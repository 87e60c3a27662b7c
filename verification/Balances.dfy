/** The balances table: database/src/query/insert.rs, update_balances_incremental and update_balances_absolute. */
module Balances {
  import opened Database

  const I64_MIN: int := -0x8000_0000_0000_0000
  const I64_MAX: int := 0x7FFF_FFFF_FFFF_FFFF
  const CHUNK_SIZE: nat := 25_000

  predicate FitsI64(x: int) {
    I64_MIN <= x <= I64_MAX
  }

  datatype Balance = Balance(address: Address, balance: int)

  /** Aborted: an i64 addition overflowed in the process. SqlError: a statement failed; the chunks before it stay committed. */
  datatype UpdateResult = Updated(rows: nat) | Aborted | SqlError

  function BalanceOf(balances: map<Address, int>, a: Address): int {
    if a in balances then balances[a] else 0
  }

  /** The net change that a list of deltas asks for. */
  function SumOf(deltas: seq<Balance>, a: Address): int {
    if deltas == [] then 0 else
      var last := deltas[|deltas| - 1];
      SumOf(deltas[..|deltas| - 1], a) + if last.address == a then last.balance else 0
  }

  /** The addresses with a non-zero net change. */
  function Changed(deltas: seq<Balance>): set<Address> {
    set d | d in deltas && SumOf(deltas, d.address) != 0 :: d.address
  }

  /** Adding the deltas up one by one never leaves the i64 range. */
  ghost predicate SumsFit(deltas: seq<Balance>) {
    forall n, a :: 0 <= n <= |deltas| ==> FitsI64(SumOf(deltas[..n], a))
  }

  predicate DistinctAddresses(entries: seq<Balance>) {
    forall i, j :: 0 <= i < j < |entries| ==> entries[i].address != entries[j].address
  }

  lemma {:induction false} UnmentionedSumsToZero(deltas: seq<Balance>, a: Address)
    requires forall d :: d in deltas ==> d.address != a
    ensures SumOf(deltas, a) == 0
  {
    if deltas != [] {
      UnmentionedSumsToZero(deltas[..|deltas| - 1], a);
    }
  }

  predicate Mentions(entries: seq<Balance>, a: Address) {
    exists e :: e in entries && e.address == a
  }

  // ---- Aggregation ----

  /** The running sums of the deltas so far. */
  ghost predicate RunningSums(deltas: seq<Balance>, sums: map<Address, int>) {
    && (forall a :: a in sums <==> Mentions(deltas, a))
    && (forall a :: BalanceOf(sums, a) == SumOf(deltas, a))
    && SumsFit(deltas)
  }

  lemma SumsGrow(deltas: seq<Balance>, sums: map<Address, int>, d: Balance)
    requires RunningSums(deltas, sums)
    ensures SumOf(deltas + [d], d.address) == BalanceOf(sums, d.address) + d.balance
    ensures FitsI64(BalanceOf(sums, d.address) + d.balance) ==>
      RunningSums(deltas + [d], sums[d.address := BalanceOf(sums, d.address) + d.balance])
  {
    var longer := deltas + [d];
    assert longer[..|deltas|] == deltas;
    assert forall a :: SumOf(longer, a) == SumOf(deltas, a) + if d.address == a then d.balance else 0;
    forall n, a | 0 <= n <= |longer| && FitsI64(BalanceOf(sums, d.address) + d.balance) ensures FitsI64(SumOf(longer[..n], a)) {
      if n <= |deltas| {
        assert longer[..n] == deltas[..n];
      } else {
        assert longer[..n] == longer && deltas[..|deltas|] == deltas;
        assert FitsI64(SumOf(deltas[..|deltas|], a));
      }
    }
  }

  lemma ChangedAreMentioned(deltas: seq<Balance>, sums: map<Address, int>)
    requires RunningSums(deltas, sums)
    ensures Changed(deltas) == set a | a in sums && sums[a] != 0
  {
    forall a | a in sums && sums[a] != 0 ensures a in Changed(deltas) {
      var d :| d in deltas && d.address == a;
    }
  }

  method Aggregate(deltas: seq<Balance>) returns (ok: bool, aggregated: map<Address, int>)
    ensures ok <==> SumsFit(deltas)
    ensures ok <==> forall n, a :: 0 <= n <= |deltas| ==>
      -0x8000_0000_0000_0000 <= SumOf(deltas[..n], a) <= 0x7FFF_FFFF_FFFF_FFFF
    ensures ok ==> aggregated.Keys == Changed(deltas)
    ensures ok ==> forall a :: a in aggregated ==> aggregated[a] == SumOf(deltas, a)
  {
    var sums: map<Address, int> := map[];
    for n := 0 to |deltas|
      invariant RunningSums(deltas[..n], sums)
    {
      var d := deltas[n];
      var sum := BalanceOf(sums, d.address) + d.balance;
      assert deltas[..n + 1] == deltas[..n] + [d];
      SumsGrow(deltas[..n], sums, d);
      if !FitsI64(sum) {
        assert !FitsI64(SumOf(deltas[..n + 1], d.address));
        return false, map[];
      }
      sums := sums[d.address := sum];
    }
    assert deltas[..|deltas|] == deltas;
    ChangedAreMentioned(deltas, sums);
    aggregated := map a | a in sums && sums[a] != 0 :: sums[a];
    ok := true;
  }

  /** HashMap iteration: the entries in some order. */
  method Entries(m: map<Address, int>) returns (entries: seq<Balance>)
    ensures DistinctAddresses(entries) && |entries| == |m|
    ensures forall e :: e in entries ==> e.address in m && e.balance == m[e.address]
    ensures forall a :: a in m ==> Balance(a, m[a]) in entries
  {
    entries := [];
    var left := m.Keys;
    while left != {}
      invariant left <= m.Keys && |entries| == |m.Keys| - |left|
      invariant DistinctAddresses(entries)
      invariant forall e :: e in entries ==> e.address in m.Keys - left && e.balance == m[e.address]
      invariant forall a :: a in m.Keys - left ==> Balance(a, m[a]) in entries
      decreases left
    {
      var a :| a in left;
      entries, left := entries + [Balance(a, m[a])], left - {a};
    }
  }

  // ---- The upsert ----

  /** after is before with every entry added to its address. */
  ghost predicate Added(before: map<Address, int>, entries: seq<Balance>, after: map<Address, int>) {
    && (forall e :: e in entries ==> e.address in after && after[e.address] == BalanceOf(before, e.address) + e.balance)
    && (forall a :: !Mentions(entries, a) ==> (a in after <==> a in before) && (a in before ==> after[a] == before[a]))
  }

  ghost predicate Overflows(balances: map<Address, int>, entries: seq<Balance>) {
    exists e :: e in entries && !FitsI64(BalanceOf(balances, e.address) + e.balance)
  }

  lemma AddedGrows(before: map<Address, int>, entries: seq<Balance>, after: map<Address, int>, e: Balance)
    requires Added(before, entries, after) && !Mentions(entries, e.address)
    ensures Added(before, entries + [e], after[e.address := BalanceOf(before, e.address) + e.balance])
  {
  }

  /** One statement: it fails as a whole when it meets an address twice or a sum leaves BIGINT. */
  method UpsertAdd(db: Db, entries: seq<Balance>) returns (ok: bool)
    modifies db`balances
    ensures ok <==> DistinctAddresses(entries) && !Overflows(old(db.balances), entries)
    ensures if ok then Added(old(db.balances), entries, db.balances) else db.balances == old(db.balances)
  {
    var before, after := db.balances, db.balances;
    for n := 0 to |entries|
      invariant DistinctAddresses(entries[..n]) && !Overflows(before, entries[..n])
      invariant Added(before, entries[..n], after)
      invariant db.balances == before
    {
      var e := entries[n];
      assert e in entries && entries[..n + 1] == entries[..n] + [e];
      if Mentions(entries[..n], e.address) {
        return false;
      }
      if !FitsI64(BalanceOf(before, e.address) + e.balance) {
        return false;
      }
      AddedGrows(before, entries[..n], after, e);
      after := after[e.address := BalanceOf(before, e.address) + e.balance];
    }
    assert entries[..|entries|] == entries;
    db.balances := after;
    ok := true;
  }

  // ---- update_balances_incremental ----

  /** One statement per CHUNK_SIZE entries, until one fails. */
  method UpsertChunks(db: Db, entries: seq<Balance>) returns (ok: bool, ghost n: nat)
    requires DistinctAddresses(entries)
    modifies db`balances
    ensures n <= |entries| && Added(old(db.balances), entries[..n], db.balances)
    ensures ok ==> n == |entries|
    ensures ok <==> !Overflows(old(db.balances), entries)
  {
    ghost var before := db.balances;
    var done := 0;
    while done < |entries|
      invariant done <= |entries| && Added(before, entries[..done], db.balances)
      invariant !Overflows(before, entries[..done])
    {
      var m := if done + CHUNK_SIZE <= |entries| then done + CHUNK_SIZE else |entries|;
      ghost var midway := db.balances;
      ChunkIsFresh(before, entries, done, m, midway);
      var committed := UpsertAdd(db, entries[done..m]);
      if !committed {
        return false, done;
      }
      ChunkIsAdded(before, entries, done, m, midway, db.balances);
      done := m;
    }
    assert entries[..done] == entries;
    ok, n := true, done;
  }

  /** The net changes as a list, in the order of the hash map. */
  method NetEntries(deltas: seq<Balance>) returns (ok: bool, entries: seq<Balance>)
    ensures ok <==> SumsFit(deltas)
    ensures ok ==> NetChanges(deltas, entries) && |entries| == |Changed(deltas)|
  {
    var aggregated;
    ok, aggregated := Aggregate(deltas);
    if !ok {
      return false, [];
    }
    entries := Entries(aggregated);
    MapSize(aggregated);
  }

  method UpdateBalancesIncremental(db: Db, deltas: seq<Balance>) returns (result: UpdateResult)
    modifies db`balances
    ensures result.Aborted? <==> !SumsFit(deltas)
    ensures result.Aborted? ==> db.balances == old(db.balances)
    ensures result.SqlError? <==> SumsFit(deltas) && LeavesBigint(old(db.balances), deltas)
    ensures result.SqlError? ==> forall a :: BalanceOf(db.balances, a) - BalanceOf(old(db.balances), a) in {0, SumOf(deltas, a)}
    ensures result.Updated? ==> forall a :: BalanceOf(db.balances, a) == BalanceOf(old(db.balances), a) + SumOf(deltas, a)
    ensures result.Updated? ==> db.balances.Keys == old(db.balances).Keys + Changed(deltas)
    ensures result.Updated? ==> result.rows == |Changed(deltas)|
  {
    var fits, entries := NetEntries(deltas);
    if !fits {
      return Aborted;
    }
    ghost var before := db.balances;
    var ok, n := UpsertChunks(db, entries);
    BigintLimit(deltas, before, entries);
    if ok {
      assert entries[..n] == entries;
      AllAdded(deltas, before, entries, db.balances);
      result := Updated(|entries|);
    } else {
      PartlyAdded(deltas, before, entries, n, db.balances);
      result := SqlError;
    }
  }

  /** The new balance of some changed address does not fit the column. */
  ghost predicate LeavesBigint(balances: map<Address, int>, deltas: seq<Balance>) {
    exists a :: a in Changed(deltas) && !FitsI64(BalanceOf(balances, a) + SumOf(deltas, a))
  }

  /** The entries are the non-zero net changes, one per address. */
  ghost predicate NetChanges(deltas: seq<Balance>, entries: seq<Balance>) {
    && DistinctAddresses(entries)
    && (forall e :: e in entries ==> e.address in Changed(deltas) && e.balance == SumOf(deltas, e.address))
    && (forall a :: a in Changed(deltas) ==> Balance(a, SumOf(deltas, a)) in entries)
  }

  lemma ChunkIsFresh(before: map<Address, int>, entries: seq<Balance>, n: nat, m: nat, midway: map<Address, int>)
    requires DistinctAddresses(entries) && n <= m <= |entries|
    requires Added(before, entries[..n], midway) && !Overflows(before, entries[..n])
    ensures DistinctAddresses(entries[n..m])
    ensures forall e :: e in entries[n..m] ==> BalanceOf(midway, e.address) == BalanceOf(before, e.address)
    ensures Overflows(midway, entries[n..m]) <==> Overflows(before, entries[..m])
  {
  }

  lemma MentionsSplit(a: seq<Balance>, b: seq<Balance>, address: Address)
    ensures Mentions(a + b, address) <==> Mentions(a, address) || Mentions(b, address)
  {
    assert forall e :: e in a + b <==> e in a || e in b;
  }

  lemma NotMentionedTwice(a: seq<Balance>, b: seq<Balance>, e: Balance)
    requires DistinctAddresses(a + b) && e in a
    ensures !Mentions(b, e.address)
  {
    var i :| 0 <= i < |a| && a[i] == e;
    assert forall j :: 0 <= j < |b| ==> (a + b)[|a| + j] == b[j] && (a + b)[i] == e;
  }

  /** Adding one list and then another is adding both. */
  lemma AddedTwice(before: map<Address, int>, a: seq<Balance>, midway: map<Address, int>, b: seq<Balance>, after: map<Address, int>)
    requires DistinctAddresses(a + b) && Added(before, a, midway) && Added(midway, b, after)
    ensures Added(before, a + b, after)
  {
    forall e | e in a + b ensures e.address in after && after[e.address] == BalanceOf(before, e.address) + e.balance {
      if f :| f in a && f.address == e.address {
        NotMentionedTwice(a, b, f);
      }
    }
    forall address | !Mentions(a + b, address)
      ensures (address in after <==> address in before) && (address in before ==> after[address] == before[address])
    {
      MentionsSplit(a, b, address);
    }
  }

  lemma ChunkIsAdded(before: map<Address, int>, entries: seq<Balance>, n: nat, m: nat, midway: map<Address, int>, after: map<Address, int>)
    requires DistinctAddresses(entries) && n <= m <= |entries|
    requires Added(before, entries[..n], midway)
    requires Added(midway, entries[n..m], after)
    ensures Added(before, entries[..m], after)
  {
    assert entries[..m] == entries[..n] + entries[n..m];
    AddedTwice(before, entries[..n], midway, entries[n..m], after);
  }

  lemma BigintLimit(deltas: seq<Balance>, before: map<Address, int>, entries: seq<Balance>)
    requires NetChanges(deltas, entries)
    ensures Overflows(before, entries) <==> LeavesBigint(before, deltas)
  {
  }

  lemma PartlyAdded(deltas: seq<Balance>, before: map<Address, int>, entries: seq<Balance>, n: nat, after: map<Address, int>)
    requires NetChanges(deltas, entries) && n <= |entries| && Added(before, entries[..n], after)
    ensures forall a :: BalanceOf(after, a) - BalanceOf(before, a) in {0, SumOf(deltas, a)}
  {
  }

  lemma AllAdded(deltas: seq<Balance>, before: map<Address, int>, entries: seq<Balance>, after: map<Address, int>)
    requires NetChanges(deltas, entries) && Added(before, entries, after)
    ensures forall a :: BalanceOf(after, a) == BalanceOf(before, a) + SumOf(deltas, a)
    ensures after.Keys == before.Keys + Changed(deltas)
  {
    forall a ensures Mentions(entries, a) <==> a in Changed(deltas) {
      assert a in Changed(deltas) ==> Balance(a, SumOf(deltas, a)) in entries;
    }
    forall a | a !in Changed(deltas) ensures SumOf(deltas, a) == 0 {
      if !Mentions(deltas, a) {
        UnmentionedSumsToZero(deltas, a);
      }
    }
    forall a | a in Changed(deltas) ensures a in after && after[a] == BalanceOf(before, a) + SumOf(deltas, a) {
      assert Balance(a, SumOf(deltas, a)) in entries;
    }
  }

  // ---- One created and one spent total per address ----

  /** Adding one non-negative i64 and taking one away per address never overflows, in this order. */
  lemma CreatedThenSpentFits(created: seq<Balance>, spent: seq<Balance>)
    requires DistinctAddresses(created) && forall d :: d in created ==> 0 <= d.balance <= I64_MAX
    requires DistinctAddresses(spent) && forall d :: d in spent ==> -I64_MAX <= d.balance <= 0
    ensures SumsFit(created + spent)
  {
    var deltas := created + spent;
    forall n, a | 0 <= n <= |deltas| ensures FitsI64(SumOf(deltas[..n], a)) {
      if n <= |created| {
        assert deltas[..n] == created[..n];
        DistinctSum(created[..n], a);
      } else {
        assert deltas[..n] == created + spent[..n - |created|];
        SumOfConcat(created, spent[..n - |created|], a);
        DistinctSum(created, a);
        DistinctSum(spent[..n - |created|], a);
      }
    }
  }

  lemma {:induction false} SumOfConcat(a: seq<Balance>, b: seq<Balance>, address: Address)
    ensures SumOf(a + b, address) == SumOf(a, address) + SumOf(b, address)
  {
    if b == [] {
      assert a + b == a;
    } else {
      assert (a + b)[..|a + b| - 1] == a + b[..|b| - 1];
      SumOfConcat(a, b[..|b| - 1], address);
    }
  }

  /** With one entry per address, the net change of an address is its entry. */
  lemma {:induction false} DistinctSum(deltas: seq<Balance>, a: Address)
    requires DistinctAddresses(deltas)
    ensures SumOf(deltas, a) == 0 || exists d :: d in deltas && d.address == a && SumOf(deltas, a) == d.balance
  {
    if deltas != [] {
      var last := deltas[|deltas| - 1];
      if last.address == a {
        UnmentionedSumsToZero(deltas[..|deltas| - 1], a);
      } else {
        DistinctSum(deltas[..|deltas| - 1], a);
      }
    }
  }

  // ---- update_balances_absolute ----

  /** Every entry's balance written over its address, in order. */
  function WriteAll(balances: map<Address, int>, entries: seq<Balance>): map<Address, int> {
    if entries == [] then balances else
      var last := entries[|entries| - 1];
      WriteAll(balances, entries[..|entries| - 1])[last.address := last.balance]
  }

  /** after is before with every entry's balance written over its address. */
  ghost predicate Written(before: map<Address, int>, entries: seq<Balance>, after: map<Address, int>) {
    && (forall e :: e in entries ==> e.address in after && after[e.address] == e.balance)
    && (forall a :: !Mentions(entries, a) ==> (a in after <==> a in before) && (a in before ==> after[a] == before[a]))
  }

  lemma {:induction false} DistinctAreWritten(before: map<Address, int>, entries: seq<Balance>)
    requires DistinctAddresses(entries)
    ensures Written(before, entries, WriteAll(before, entries))
  {
    if entries != [] {
      var last := |entries| - 1;
      DistinctAreWritten(before, entries[..last]);
      assert forall e :: e in entries <==> e in entries[..last] || e == entries[last];
    }
  }

  lemma {:induction false} WriteAllConcat(balances: map<Address, int>, a: seq<Balance>, b: seq<Balance>)
    ensures WriteAll(balances, a + b) == WriteAll(WriteAll(balances, a), b)
  {
    if b == [] {
      assert a + b == a;
    } else {
      assert (a + b)[..|a + b| - 1] == a + b[..|b| - 1];
      WriteAllConcat(balances, a, b[..|b| - 1]);
    }
  }

  /** Where the n-th statement starts. */
  function Start(entries: seq<Balance>, n: nat): (start: nat)
    ensures start <= |entries|
    ensures start == if n * 25_000 <= |entries| then n * 25_000 else |entries|
  {
    if n * CHUNK_SIZE <= |entries| then n * CHUNK_SIZE else |entries|
  }

  /** The entries of the n-th statement. */
  function Statement(entries: seq<Balance>, n: nat): seq<Balance> {
    entries[Start(entries, n)..Start(entries, n + 1)]
  }

  /** The n-th statement is sent and fails: for a reason of its own, or because it meets an address twice. */
  predicate StatementFails(entries: seq<Balance>, failure: Option<nat>, n: nat) {
    n * CHUNK_SIZE < |entries| && (failure == Some(n) || !DistinctAddresses(Statement(entries, n)))
  }

  /** The first statement that fails, or the end of the entries. */
  ghost predicate StopsAt(entries: seq<Balance>, failure: Option<nat>, n: nat) {
    && (n * CHUNK_SIZE < |entries| ==> StatementFails(entries, failure, n))
    && forall m: nat :: m < n ==> !StatementFails(entries, failure, m)
  }

  /**
   * One statement per CHUNK_SIZE entries, until one fails; failure is the number of a statement that the database rejects.
   * The statements before the one that fails stay committed.
   */
  method UpdateBalancesAbsolute(db: Db, entries: seq<Balance>, failure: Option<nat>) returns (result: UpdateResult, ghost n: nat)
    modifies db`balances
    ensures StopsAt(entries, failure, n) && db.balances == WriteAll(old(db.balances), entries[..Start(entries, n)])
    ensures result == if n * CHUNK_SIZE < |entries| then SqlError else Updated(|entries|)
  {
    var i := 0;
    while i * CHUNK_SIZE < |entries|
      invariant db.balances == WriteAll(old(db.balances), entries[..Start(entries, i)])
      invariant forall m: nat :: m < i ==> !StatementFails(entries, failure, m)
      decreases |entries| - Start(entries, i)
    {
      if failure == Some(i) || !DistinctAddresses(Statement(entries, i)) {
        return SqlError, i;
      }
      WriteStatement(db, entries, i, old(db.balances));
      i := i + 1;
    }
    result, n := Updated(|entries|), i;
  }

  method WriteStatement(db: Db, entries: seq<Balance>, n: nat, ghost before: map<Address, int>)
    requires db.balances == WriteAll(before, entries[..Start(entries, n)])
    modifies db`balances
    ensures db.balances == WriteAll(before, entries[..Start(entries, n + 1)])
  {
    var start, end := Start(entries, n), Start(entries, n + 1);
    assert entries[..end] == entries[..start] + entries[start..end];
    WriteAllConcat(before, entries[..start], entries[start..end]);
    Overwrite(db, entries[start..end]);
  }

  method Overwrite(db: Db, entries: seq<Balance>)
    modifies db`balances
    ensures db.balances == WriteAll(old(db.balances), entries)
  {
    for i := 0 to |entries|
      invariant db.balances == WriteAll(old(db.balances), entries[..i])
    {
      assert entries[..i + 1][..i] == entries[..i];
      db.balances := db.balances[entries[i].address := entries[i].balance];
    }
    assert entries[..|entries|] == entries;
  }

  lemma DistinctPart(entries: seq<Balance>, n: nat)
    requires DistinctAddresses(entries)
    ensures DistinctAddresses(Statement(entries, n))
  {
  }

  /** With one entry per address all entries are written, unless the database rejects a statement that is sent. */
  lemma DistinctStopsAt(entries: seq<Balance>, failure: Option<nat>, n: nat)
    requires DistinctAddresses(entries) && StopsAt(entries, failure, n)
    ensures n * CHUNK_SIZE < |entries| <==> failure.Some? && failure.value * CHUNK_SIZE < |entries|
    ensures n * CHUNK_SIZE < |entries| ==> failure == Some(n)
  {
    if failure.Some? && failure.value * CHUNK_SIZE < |entries| {
      assert StatementFails(entries, failure, failure.value);
    }
    forall n: nat ensures DistinctAddresses(Statement(entries, n)) {
      DistinctPart(entries, n);
    }
  }
}
