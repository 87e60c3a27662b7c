/** The import of the pruning point's UTXO set: attempts until one completes, balances summed up in memory and written last. */
module UtxoImport {
  import opened Database
  import opened Inserts
  import opened Balances

  /** An outpoint and its entry; the address is the one that the script pays to, if it has a standard form. */
  datatype Utxo = Utxo(tx: TxId, index: nat, amount: nat, script: Script, address: Option<Address>)

  /** Which optional columns are included. */
  datatype Fields = Fields(amount: bool, script: bool, address: bool)

  /** The u32 as i16 and u64 as i64 casts. */
  function AsI16(x: nat): (r: int)
    ensures -0x8000 <= r < 0x8000 && (r - x) % 0x1_0000 == 0 && (x < 0x8000 ==> r == x)
  {
    var low := x % 0x1_0000;
    if low < 0x8000 then low else low - 0x1_0000
  }

  function AsI64(x: nat): (r: int)
    ensures FitsI64(r) && (x <= I64_MAX ==> r == x)
  {
    var low := x % 0x1_0000_0000_0000_0000;
    if low < 0x8000_0000_0000_0000 then low else low - 0x1_0000_0000_0000_0000
  }

  function AddressOf(f: Fields, u: Utxo): Option<Address> {
    if f.address then u.address else None
  }

  function Row(f: Fields, u: Utxo): (Outpoint, Output) {
    (Outpoint(u.tx, AsI16(u.index)),
     Output(if f.amount then Some(AsI64(u.amount)) else None, if f.script then Some(u.script) else None, AddressOf(f, u)))
  }

  // ---- Balances ----

  /** What the entries pay to an address. */
  function Total(f: Fields, utxos: seq<Utxo>, a: Address): int {
    if utxos == [] then 0 else
      var last := utxos[|utxos| - 1];
      Total(f, utxos[..|utxos| - 1], a) + if AddressOf(f, last) == Some(a) then AsI64(last.amount) else 0
  }

  predicate PaidIn(f: Fields, utxos: seq<Utxo>, a: Address) {
    exists u :: u in utxos && AddressOf(f, u) == Some(a)
  }

  /** Summing up entry by entry stays within i64. */
  ghost predicate Fits(f: Fields, utxos: seq<Utxo>) {
    utxos == [] || (Fits(f, utxos[..|utxos| - 1]) && forall a :: FitsI64(Total(f, utxos, a)))
  }

  ghost predicate Tallied(f: Fields, utxos: seq<Utxo>, totals: map<Address, int>) {
    forall a :: (a in totals <==> PaidIn(f, utxos, a)) && BalanceOf(totals, a) == Total(f, utxos, a)
  }

  lemma TotalMore(f: Fields, utxos: seq<Utxo>, u: Utxo)
    ensures forall a :: Total(f, utxos + [u], a) == Total(f, utxos, a) + if AddressOf(f, u) == Some(a) then AsI64(u.amount) else 0
    ensures forall a :: PaidIn(f, utxos + [u], a) <==> PaidIn(f, utxos, a) || AddressOf(f, u) == Some(a)
  {
  }

  lemma {:induction false} FitsPrefix(f: Fields, utxos: seq<Utxo>, more: seq<Utxo>)
    requires Fits(f, utxos + more)
    ensures Fits(f, utxos)
  {
    if more == [] {
      assert utxos + more == utxos;
    } else {
      assert (utxos + more)[..|utxos + more| - 1] == utxos + more[..|more| - 1];
      FitsPrefix(f, utxos, more[..|more| - 1]);
    }
  }

  /** If the sums fit, then the total of every address after each entry is an i64. */
  lemma FitsMeans(f: Fields, utxos: seq<Utxo>, n: nat, a: Address)
    requires Fits(f, utxos) && n <= |utxos|
    ensures -0x8000_0000_0000_0000 <= Total(f, utxos[..n], a) <= 0x7FFF_FFFF_FFFF_FFFF
  {
    assert utxos == utxos[..n] + utxos[n..];
    FitsPrefix(f, utxos[..n], utxos[n..]);
  }

  /** And if all these totals are, then the sums fit. */
  lemma {:induction false} FitsIf(f: Fields, utxos: seq<Utxo>)
    requires forall n, a :: 0 <= n <= |utxos| ==> -0x8000_0000_0000_0000 <= Total(f, utxos[..n], a) <= 0x7FFF_FFFF_FFFF_FFFF
    ensures Fits(f, utxos)
  {
    if utxos != [] {
      var front := utxos[..|utxos| - 1];
      forall n, a | 0 <= n <= |front| ensures FitsI64(Total(f, front[..n], a)) {
        assert front[..n] == utxos[..n];
      }
      FitsIf(f, front);
      assert utxos[..|utxos|] == utxos;
    }
  }

  /** entry(address).or_insert(0) += amount, with overflow checks on. */
  method AddEntry(f: Fields, u: Utxo, totals: map<Address, int>, ghost before: seq<Utxo>)
    returns (fits: bool, totals': map<Address, int>)
    requires Tallied(f, before, totals) && Fits(f, before)
    ensures fits <==> Fits(f, before + [u])
    ensures fits ==> Tallied(f, before + [u], totals')
  {
    TotalMore(f, before, u);
    assert (before + [u])[..|before|] == before;
    assert before == [] ==> forall a :: Total(f, before, a) == 0;
    fits, totals' := true, totals;
    var address := AddressOf(f, u);
    if address.Some? {
      var sum := BalanceOf(totals, address.value) + AsI64(u.amount);
      assert sum == Total(f, before + [u], address.value);
      fits, totals' := FitsI64(sum), totals[address.value := sum];
    }
  }

  lemma PartOverflows(f: Fields, before: seq<Utxo>, chunk: seq<Utxo>, i: nat)
    requires i < |chunk| && !Fits(f, before + chunk[..i] + [chunk[i]])
    ensures !Fits(f, before + chunk)
  {
    assert before + chunk == (before + chunk[..i] + [chunk[i]]) + chunk[i + 1..];
    if Fits(f, before + chunk) {
      FitsPrefix(f, before + chunk[..i] + [chunk[i]], chunk[i + 1..]);
    }
  }

  /** Adds a chunk to the totals of all chunks before it. */
  method Accumulate(f: Fields, chunk: seq<Utxo>, totals: map<Address, int>, ghost before: seq<Utxo>)
    returns (fits: bool, totals': map<Address, int>)
    requires Tallied(f, before, totals) && Fits(f, before)
    ensures fits <==> Fits(f, before + chunk)
    ensures fits ==> Tallied(f, before + chunk, totals')
  {
    fits, totals' := true, totals;
    ghost var done := before;
    assert before + chunk[..0] == before;
    for i := 0 to |chunk|
      invariant fits && done == before + chunk[..i]
      invariant Tallied(f, done, totals') && Fits(f, done)
    {
      fits, totals' := AddEntry(f, chunk[i], totals', done);
      if !fits {
        PartOverflows(f, before, chunk, i);
        return;
      }
      done := done + [chunk[i]];
      assert done == before + chunk[..i + 1];
    }
    assert done == before + chunk;
  }

  // ---- Rows ----

  /** Rows are only added; new rows are those of the entries, with acceptances that name no block. */
  ghost predicate Stored(f: Fields, utxos: seq<Utxo>, before: Store, after: Store) {
    && after.transactions == before.transactions && after.inputs == before.inputs
    && (forall o :: o in before.outputs ==> o in after.outputs && after.outputs[o] == before.outputs[o])
    && (forall o :: o in after.outputs && o !in before.outputs ==> exists u :: u in utxos && Row(f, u) == (o, after.outputs[o]))
    && (forall t :: t in before.acceptances ==> t in after.acceptances && after.acceptances[t] == before.acceptances[t])
    && (forall t :: t in after.acceptances && t !in before.acceptances ==>
          after.acceptances[t] == None && exists u :: u in utxos && u.tx == t)
  }

  ghost predicate AllStored(f: Fields, utxos: seq<Utxo>, s: Store) {
    forall u :: u in utxos ==> Row(f, u).0 in s.outputs && u.tx in s.acceptances
  }

  method RowsOf(f: Fields, chunk: seq<Utxo>) returns (outputs: seq<(Outpoint, Output)>, acceptances: seq<(TxId, Option<Hash>)>)
    ensures forall row :: row in outputs <==> exists u :: u in chunk && Row(f, u) == row
    ensures forall row :: row in acceptances <==> row.1 == None && exists u :: u in chunk && u.tx == row.0
  {
    outputs, acceptances := [], [];
    for i := 0 to |chunk|
      invariant forall row :: row in outputs <==> exists u :: u in chunk[..i] && Row(f, u) == row
      invariant forall row :: row in acceptances <==> row.1 == None && exists u :: u in chunk[..i] && u.tx == row.0
    {
      assert forall u :: u in chunk[..i + 1] <==> u in chunk[..i] || u == chunk[i];
      outputs := outputs + [Row(f, chunk[i])];
      if (chunk[i].tx, None) !in acceptances {
        acceptances := acceptances + [(chunk[i].tx, None)];
      }
    }
    assert chunk[..|chunk|] == chunk;
  }

  /** A row with the included columns. */
  function Columns(f: Fields, amount: int, script: Script, address: Option<Address>): (row: Output)
    ensures row.amount == if f.amount then Some(amount) else None
    ensures row.script == if f.script then Some(script) else None
    ensures row.address == if f.address then address else None
  {
    Output(if f.amount then Some(amount) else None, if f.script then Some(script) else None, if f.address then address else None)
  }

  /** By outpoints: new rows are those of entries. */
  lemma StoredByOutpoints(f: Fields, utxos: seq<Utxo>, before: Store, after: Store)
    requires Stored(f, utxos, before, after)
    ensures forall o :: o in after.outputs && o !in before.outputs ==>
      exists u :: u in utxos && o.tx == u.tx && (u.index < 0x8000 ==> o.index == u.index)
                && (u.amount <= I64_MAX ==> after.outputs[o] == Columns(f, u.amount, u.script, u.address))
  {
    forall o | o in after.outputs && o !in before.outputs
      ensures exists u :: u in utxos && o.tx == u.tx && (u.index < 0x8000 ==> o.index == u.index)
                && (u.amount <= I64_MAX ==> after.outputs[o] == Columns(f, u.amount, u.script, u.address))
    {
      var u :| u in utxos && Row(f, u) == (o, after.outputs[o]);
    }
  }

  lemma StoredAtOutpoints(f: Fields, utxos: seq<Utxo>, s: Store)
    ensures AllStored(f, utxos, s) ==>
      forall u :: u in utxos && u.index < 0x8000 ==> Outpoint(u.tx, u.index) in s.outputs && u.tx in s.acceptances
  {
    if AllStored(f, utxos, s) {
      forall u | u in utxos && u.index < 0x8000 ensures Outpoint(u.tx, u.index) in s.outputs && u.tx in s.acceptances {
        assert Row(f, u).0 == Outpoint(u.tx, u.index);
      }
    }
  }

  method InsertRows(db: Db, f: Fields, chunk: seq<Utxo>, acceptancesOk: bool, outputsOk: bool)
    modifies db`outputs, db`acceptances
    ensures Stored(f, chunk, old(db.Tables()), db.Tables())
    ensures acceptancesOk && outputsOk ==> AllStored(f, chunk, db.Tables())
    ensures !outputsOk ==> db.outputs == old(db.outputs)
    ensures !acceptancesOk ==> db.acceptances == old(db.acceptances)
  {
    var outputs, acceptances := RowsOf(f, chunk);
    InsertAllInserts(db.acceptances, acceptances);
    InsertAllInserts(db.outputs, outputs);
    assert forall u :: u in chunk ==> Row(f, u) in outputs && (u.tx, None) in acceptances;
    if acceptancesOk {
      db.acceptances := InsertAll(db.acceptances, acceptances);
    }
    if outputsOk {
      db.outputs := InsertAll(db.outputs, outputs);
    }
  }

  /** Two statements; the import goes on when one of them fails. */
  method PersistRows(db: Db, f: Fields, chunk: seq<Utxo>, acceptancesOk: bool, outputsOk: bool)
    modifies db`outputs, db`acceptances
    ensures Stored(f, chunk, old(db.Tables()), db.Tables())
    ensures acceptancesOk && outputsOk ==> AllStored(f, chunk, db.Tables())
    ensures forall o :: o in db.outputs && o !in old(db.outputs) ==>
      exists u :: u in chunk && o.tx == u.tx && (u.index < 0x8000 ==> o.index == u.index)
                && (u.amount <= I64_MAX ==> db.outputs[o] == Columns(f, u.amount, u.script, u.address))
    ensures acceptancesOk && outputsOk ==>
      forall u :: u in chunk && u.index < 0x8000 ==> Outpoint(u.tx, u.index) in db.outputs && u.tx in db.acceptances
    ensures !outputsOk ==> db.outputs == old(db.outputs)
    ensures !acceptancesOk ==> db.acceptances == old(db.acceptances)
  {
    ghost var s := db.Tables();
    InsertRows(db, f, chunk, acceptancesOk, outputsOk);
    StoredByOutpoints(f, chunk, s, db.Tables());
    StoredAtOutpoints(f, chunk, db.Tables());
  }

  // ---- One attempt ----

  /**
   * Chunk: with whether its two statements succeed. Done: with the statement of the final write that the database rejects,
   * if any. Ignored: version and ping messages and the like. Fatal: an unexpected pruning point, a failed send.
   */
  datatype Message = Chunk(utxos: seq<Utxo>, acceptancesOk: bool, outputsOk: bool) | Done(rejected: Option<nat>) | Ignored | Fatal

  datatype Outcome = Completed | Failed | Overflowed

  /** The entries of the chunks before the message that ends the attempt. */
  function Received(messages: seq<Message>): seq<Utxo> {
    if messages == [] then [] else match messages[0]
      case Chunk(utxos, _, _) => utxos + Received(messages[1..])
      case Ignored => Received(messages[1..])
      case _ => []
  }

  /** How the messages end the attempt; running out of them is a closed connection, a timeout or a shutdown. */
  function Verdict(messages: seq<Message>): (outcome: Outcome)
    ensures !outcome.Overflowed?
  {
    if messages == [] then Failed else match messages[0]
      case Chunk(_, _, _) => Verdict(messages[1..])
      case Ignored => Verdict(messages[1..])
      case Done(_) => Completed
      case Fatal => Failed
  }

  lemma {:induction false} ReceivedMore(before: seq<Message>, m: Message)
    requires forall i :: 0 <= i < |before| ==> before[i].Chunk? || before[i].Ignored?
    ensures Received(before + [m]) == Received(before) + if m.Chunk? then m.utxos else []
  {
    if before != [] {
      assert (before + [m])[1..] == before[1..] + [m];
      ReceivedMore(before[1..], m);
    }
  }

  /** An attempt ends with its first message that is no chunk and not ignored: as completed if it is done, else as failed. */
  lemma {:induction false} EndOfAttempt(messages: seq<Message>, n: nat)
    requires n <= |messages| && (forall i :: 0 <= i < n ==> messages[i].Chunk? || messages[i].Ignored?)
    requires n < |messages| ==> messages[n].Done? || messages[n].Fatal?
    ensures Verdict(messages) == if n < |messages| && messages[n].Done? then Completed else Failed
    ensures Rejected(messages) == if n < |messages| && messages[n].Done? then messages[n].rejected else None
    ensures Received(messages) == Received(messages[..n])
  {
    if n > 0 {
      EndOfAttempt(messages[1..], n - 1);
      assert messages[..n][1..] == messages[1..][..n - 1];
    }
  }

  predicate StatementsOk(messages: seq<Message>) {
    forall m :: m in messages && m.Chunk? ==> m.acceptancesOk && m.outputsOk
  }

  /** Which statement of the final write the database rejects. */
  function Rejected(messages: seq<Message>): Option<nat> {
    if messages == [] then None else match messages[0]
      case Done(rejected) => rejected
      case Fatal => None
      case _ => Rejected(messages[1..])
  }

  function Paid(f: Fields, utxos: seq<Utxo>): set<Address> {
    set u | u in utxos && AddressOf(f, u).Some? :: AddressOf(f, u).value
  }

  /** The final write ends early: the rejected statement is one that is sent. */
  predicate CutShort(f: Fields, utxos: seq<Utxo>, rejected: Option<nat>) {
    rejected.Some? && rejected.value * CHUNK_SIZE < |Paid(f, utxos)|
  }

  /** How many addresses the statements before a rejected one, or all statements, write. */
  function WriteCount(f: Fields, utxos: seq<Utxo>, rejected: Option<nat>): nat {
    if CutShort(f, utxos, rejected) then rejected.value * CHUNK_SIZE else |Paid(f, utxos)|
  }

  /** The written addresses, all unless the write was cut short, are at their totals; the others are as before. */
  ghost predicate Finished(f: Fields, utxos: seq<Utxo>, rejected: Option<nat>, written: set<Address>,
                           before: map<Address, int>, after: map<Address, int>) {
    && written <= Paid(f, utxos) && |written| == WriteCount(f, utxos, rejected)
    && forall a :: if a in written then a in after && after[a] == Total(f, utxos, a)
                   else (a in after <==> a in before) && (a in before ==> after[a] == before[a])
  }

  lemma PaidIsPaidIn(f: Fields, utxos: seq<Utxo>)
    ensures forall a :: a in Paid(f, utxos) <==> PaidIn(f, utxos, a)
  {
    forall a | PaidIn(f, utxos, a) ensures a in Paid(f, utxos) {
      var u :| u in utxos && AddressOf(f, u) == Some(a);
      assert AddressOf(f, u).Some?;
    }
  }

  function AddressSet(entries: seq<Balance>): set<Address> {
    set e | e in entries :: e.address
  }

  lemma {:induction false} DistinctCount(entries: seq<Balance>)
    requires DistinctAddresses(entries)
    ensures |AddressSet(entries)| == |entries|
  {
    if entries != [] {
      var last := |entries| - 1;
      DistinctCount(entries[..last]);
      assert entries == entries[..last] + [entries[last]];
      assert AddressSet(entries) == AddressSet(entries[..last]) + {entries[last].address};
      assert entries[last].address !in AddressSet(entries[..last]);
    }
  }

  lemma PartIsFinished(f: Fields, utxos: seq<Utxo>, totals: map<Address, int>, entries: seq<Balance>, n: nat, rejected: Option<nat>,
                       before: map<Address, int>, after: map<Address, int>)
    requires Tallied(f, utxos, totals) && DistinctAddresses(entries) && |entries| == |totals|
    requires forall e :: e in entries ==> e.address in totals && e.balance == totals[e.address]
    requires StopsAt(entries, rejected, n) && after == WriteAll(before, entries[..Balances.Start(entries, n)])
    ensures Finished(f, utxos, rejected, AddressSet(entries[..Balances.Start(entries, n)]), before, after)
  {
    var done := entries[..Balances.Start(entries, n)];
    PaidIsPaidIn(f, utxos);
    assert totals.Keys == Paid(f, utxos);
    MapSize(totals);
    DistinctStopsAt(entries, rejected, n);
    DistinctCount(done);
    DistinctAreWritten(before, done);
    assert forall e :: e in done ==> e in entries;
    forall a ensures a in AddressSet(done) <==> Mentions(done, a) {
    }
  }

  /** The last step of an attempt. Its result is dropped: the attempt counts as completed even if the write is cut short. */
  method WriteTotals(db: Db, f: Fields, totals: map<Address, int>, rejected: Option<nat>, ghost utxos: seq<Utxo>)
    returns (ghost written: set<Address>)
    requires Tallied(f, utxos, totals)
    modifies db`balances
    ensures Finished(f, utxos, rejected, written, old(db.balances), db.balances)
  {
    PaidIsPaidIn(f, utxos);
    if f.address && totals != map[] {
      var entries := Entries(totals);
      var result, n := UpdateBalancesAbsolute(db, entries, rejected);
      written := AddressSet(entries[..Balances.Start(entries, n)]);
      PartIsFinished(f, utxos, totals, entries, n, rejected, old(db.balances), db.balances);
    } else {
      written := {};
      assert forall a :: a !in totals;
      assert Paid(f, utxos) == {};
    }
  }

  lemma OverflowShows(f: Fields, utxos: seq<Utxo>, more: seq<Utxo>)
    requires !Fits(f, utxos)
    ensures !Fits(f, utxos + more)
  {
    if Fits(f, utxos + more) {
      FitsPrefix(f, utxos, more);
    }
  }

  /** The first i messages are handled, and seen are their entries. */
  ghost predicate Receiving(f: Fields, messages: seq<Message>, i: nat, seen: seq<Utxo>, s0: Store, s: Store)
    requires i <= |messages|
  {
    && seen + Received(messages[i..]) == Received(messages)
    && Verdict(messages[i..]) == Verdict(messages) && Rejected(messages[i..]) == Rejected(messages)
    && Stored(f, seen, s0, s)
    && (StatementsOk(messages) ==> AllStored(f, seen, s))
  }

  lemma ReceivingStarts(f: Fields, messages: seq<Message>, s: Store)
    ensures Receiving(f, messages, 0, [], s, s)
  {
  }

  lemma IgnoredStep(f: Fields, messages: seq<Message>, i: nat, seen: seq<Utxo>, s0: Store, s: Store)
    requires i < |messages| && Receiving(f, messages, i, seen, s0, s) && messages[i].Ignored?
    ensures Receiving(f, messages, i + 1, seen, s0, s)
  {
  }

  lemma ChunkStep(f: Fields, messages: seq<Message>, i: nat, seen: seq<Utxo>, s0: Store, s: Store, s': Store)
    requires i < |messages| && Receiving(f, messages, i, seen, s0, s) && messages[i].Chunk?
    requires Stored(f, messages[i].utxos, s, s')
    requires messages[i].acceptancesOk && messages[i].outputsOk ==> AllStored(f, messages[i].utxos, s')
    ensures Receiving(f, messages, i + 1, seen + messages[i].utxos, s0, s')
    ensures Received(messages) == (seen + messages[i].utxos) + Received(messages[i + 1..])
  {
  }

  lemma ChunkOverflows(f: Fields, messages: seq<Message>, i: nat, seen: seq<Utxo>, s0: Store, s: Store)
    requires i < |messages| && Receiving(f, messages, i, seen, s0, s) && messages[i].Chunk?
    requires !Fits(f, seen + messages[i].utxos)
    ensures !Fits(f, Received(messages))
  {
    var chunk := messages[i].utxos;
    assert messages[i..][1..] == messages[i + 1..];
    assert seen + (chunk + Received(messages[i + 1..])) == (seen + chunk) + Received(messages[i + 1..]);
    OverflowShows(f, seen + chunk, Received(messages[i + 1..]));
  }

  lemma ReceivingEnds(f: Fields, messages: seq<Message>, i: nat, seen: seq<Utxo>, s0: Store, s: Store)
    requires i <= |messages| && Receiving(f, messages, i, seen, s0, s)
    requires i < |messages| ==> messages[i].Done? || messages[i].Fatal?
    ensures Received(messages) == seen
    ensures Verdict(messages) == if i < |messages| && messages[i].Done? then Completed else Failed
    ensures i < |messages| && messages[i].Done? ==> Rejected(messages) == messages[i].rejected
  {
  }

  method ReceiveAndHandle(db: Db, f: Fields, messages: seq<Message>) returns (outcome: Outcome, ghost written: set<Address>)
    modifies db`outputs, db`acceptances, db`balances
    ensures outcome == if Fits(f, Received(messages)) then Verdict(messages) else Overflowed
    ensures outcome.Completed? ==> Finished(f, Received(messages), Rejected(messages), written, old(db.balances), db.balances)
    ensures !outcome.Completed? ==> db.balances == old(db.balances)
    ensures !outcome.Overflowed? ==> Stored(f, Received(messages), old(db.Tables()), db.Tables())
    ensures outcome.Completed? && StatementsOk(messages) ==> AllStored(f, Received(messages), db.Tables())
  {
    written := {};
    var totals: map<Address, int> := map[];
    ghost var seen: seq<Utxo> := [];
    ghost var s0 := db.Tables();
    ReceivingStarts(f, messages, s0);
    for i := 0 to |messages|
      invariant Tallied(f, seen, totals) && Fits(f, seen)
      invariant Receiving(f, messages, i, seen, s0, db.Tables())
      invariant db.balances == old(db.balances)
    {
      ghost var s := db.Tables();
      match messages[i] {
        case Ignored =>
          IgnoredStep(f, messages, i, seen, s0, s);
        case Fatal =>
          ReceivingEnds(f, messages, i, seen, s0, s);
          return Failed, written;
        case Done(rejected) =>
          ReceivingEnds(f, messages, i, seen, s0, s);
          written := WriteTotals(db, f, totals, rejected, seen);
          return Completed, written;
        case Chunk(chunk, acceptancesOk, outputsOk) =>
          var fits;
          fits, totals := Accumulate(f, chunk, totals, seen);
          if !fits {
            ChunkOverflows(f, messages, i, seen, s0, s);
            return Overflowed, written;
          }
          PersistRows(db, f, chunk, acceptancesOk, outputsOk);
          ChunkStep(f, messages, i, seen, s0, s, db.Tables());
          seen := seen + chunk;
      }
    }
    ReceivingEnds(f, messages, |messages|, seen, s0, db.Tables());
    outcome := Failed;
  }

  // ---- Attempts ----

  /** What an attempt meets: whether the balances could be truncated, whether a peer was reached and what it sent. */
  datatype Attempt = Attempt(truncated: bool, connected: bool, messages: seq<Message>)

  function OutcomeOf(f: Fields, a: Attempt): Outcome {
    if a.connected then Verdict(a.messages) else Failed
  }

  method TruncateBalances(db: Db, f: Fields, ok: bool)
    modifies db`balances
    ensures db.balances == if f.address && ok then map[] else old(db.balances)
  {
    if f.address && ok {
      db.balances := map[];
    }
  }

  /** The balances table that failed attempts leave. */
  function Emptied(f: Fields, attempts: seq<Attempt>, balances: map<Address, int>): map<Address, int> {
    if f.address && exists a :: a in attempts && a.truncated then map[] else balances
  }

  /** The entries of an attempt, and of all attempts. */
  function ReceivedIn(a: Attempt): seq<Utxo> {
    if a.connected then Received(a.messages) else []
  }

  function AllReceived(attempts: seq<Attempt>): seq<Utxo> {
    if attempts == [] then [] else
      AllReceived(attempts[..|attempts| - 1]) + ReceivedIn(attempts[|attempts| - 1])
  }

  method Try(db: Db, f: Fields, a: Attempt) returns (outcome: Outcome, ghost written: set<Address>)
    modifies db`outputs, db`acceptances, db`balances
    ensures outcome == if Fits(f, ReceivedIn(a)) then OutcomeOf(f, a) else Overflowed
    ensures outcome.Failed? ==> db.balances == Emptied(f, [a], old(db.balances))
    ensures outcome.Completed? ==>
      Finished(f, ReceivedIn(a), Rejected(a.messages), written, Emptied(f, [a], old(db.balances)), db.balances)
    ensures outcome.Completed? && StatementsOk(a.messages) ==> AllStored(f, ReceivedIn(a), db.Tables())
    ensures !outcome.Overflowed? ==> Stored(f, ReceivedIn(a), old(db.Tables()), db.Tables())
  {
    assert a in [a];
    TruncateBalances(db, f, a.truncated);
    if a.connected {
      outcome, written := ReceiveAndHandle(db, f, a.messages);
    } else {
      outcome, written := Failed, {};
    }
  }

  /** All attempts so far failed: they stored some of their entries and perhaps emptied the balances. */
  ghost predicate Retrying(f: Fields, attempts: seq<Attempt>, s0: Store, balances0: map<Address, int>,
                           s: Store, balances: map<Address, int>) {
    && (forall a :: a in attempts ==> OutcomeOf(f, a) == Failed)
    && Stored(f, AllReceived(attempts), s0, s)
    && balances == Emptied(f, attempts, balances0)
  }

  lemma OneMore(f: Fields, attempts: seq<Attempt>, a: Attempt, s0: Store, balances0: map<Address, int>, s: Store, s': Store)
    requires Retrying(f, attempts, s0, balances0, s, Emptied(f, attempts, balances0)) && Stored(f, ReceivedIn(a), s, s')
    ensures Emptied(f, [a], Emptied(f, attempts, balances0)) == Emptied(f, attempts + [a], balances0)
    ensures Stored(f, AllReceived(attempts + [a]), s0, s')
    ensures OutcomeOf(f, a) == Failed ==>
      Retrying(f, attempts + [a], s0, balances0, s', Emptied(f, attempts + [a], balances0))
  {
  }

  /** What the attempt that completes leaves: its totals, as far as they were written, over what the attempts before it left. */
  ghost predicate Ended(f: Fields, attempts: seq<Attempt>, last: nat, written: set<Address>, s0: Store, balances0: map<Address, int>,
                        s: Store, balances: map<Address, int>) {
    && last < |attempts| && OutcomeOf(f, attempts[last]) == Completed
    && Finished(f, ReceivedIn(attempts[last]), Rejected(attempts[last].messages), written,
                Emptied(f, attempts[..last + 1], balances0), balances)
    && Stored(f, AllReceived(attempts[..last + 1]), s0, s)
    && (StatementsOk(attempts[last].messages) ==> AllStored(f, ReceivedIn(attempts[last]), s))
  }

  lemma EndsHere(f: Fields, attempts: seq<Attempt>, i: nat, written: set<Address>, s0: Store, balances0: map<Address, int>,
                 s: Store, balances: map<Address, int>, s': Store, balances': map<Address, int>)
    requires i < |attempts| && Retrying(f, attempts[..i], s0, balances0, s, balances)
    requires OutcomeOf(f, attempts[i]) == Completed && Stored(f, ReceivedIn(attempts[i]), s, s')
    requires Finished(f, ReceivedIn(attempts[i]), Rejected(attempts[i].messages), written, Emptied(f, [attempts[i]], balances), balances')
    requires StatementsOk(attempts[i].messages) ==> AllStored(f, ReceivedIn(attempts[i]), s')
    ensures Ended(f, attempts, i, written, s0, balances0, s', balances')
  {
    assert attempts[..i + 1] == attempts[..i] + [attempts[i]];
    OneMore(f, attempts[..i], attempts[i], s0, balances0, s, s');
  }

  lemma GoesOn(f: Fields, attempts: seq<Attempt>, i: nat, s0: Store, balances0: map<Address, int>,
               s: Store, balances: map<Address, int>, s': Store, balances': map<Address, int>)
    requires i < |attempts| && Retrying(f, attempts[..i], s0, balances0, s, balances)
    requires OutcomeOf(f, attempts[i]) == Failed && Stored(f, ReceivedIn(attempts[i]), s, s')
    requires balances' == Emptied(f, [attempts[i]], balances)
    ensures Retrying(f, attempts[..i + 1], s0, balances0, s', balances')
  {
    assert attempts[..i + 1] == attempts[..i] + [attempts[i]];
    OneMore(f, attempts[..i], attempts[i], s0, balances0, s, s');
  }

  method TryNext(db: Db, f: Fields, attempts: seq<Attempt>, i: nat, ghost s0: Store, ghost balances0: map<Address, int>)
    returns (outcome: Outcome, ghost written: set<Address>)
    requires i < |attempts| && Retrying(f, attempts[..i], s0, balances0, db.Tables(), db.balances)
    modifies db`outputs, db`acceptances, db`balances
    ensures outcome.Completed? ==> Ended(f, attempts, i, written, s0, balances0, db.Tables(), db.balances)
    ensures outcome.Failed? ==> Retrying(f, attempts[..i + 1], s0, balances0, db.Tables(), db.balances)
    ensures outcome.Overflowed? ==> !Fits(f, ReceivedIn(attempts[i]))
  {
    ghost var s, balances := db.Tables(), db.balances;
    outcome, written := Try(db, f, attempts[i]);
    ghost var s', balances' := db.Tables(), db.balances;
    if outcome.Completed? {
      EndsHere(f, attempts, i, written, s0, balances0, s, balances, s', balances');
    } else if outcome.Failed? {
      GoesOn(f, attempts, i, s0, balances0, s, balances, s', balances');
    }
  }

  lemma {:induction false} ReceivedBefore(attempts: seq<Attempt>, n: nat)
    requires n <= |attempts|
    ensures forall u :: u in AllReceived(attempts[..n]) ==> u in AllReceived(attempts)
    decreases |attempts|
  {
    if n == |attempts| {
      assert attempts[..n] == attempts;
    } else {
      var front := attempts[..|attempts| - 1];
      assert front[..n] == attempts[..n];
      ReceivedBefore(front, n);
    }
  }

  lemma EndedByOutpoints(f: Fields, attempts: seq<Attempt>, last: nat, written: set<Address>, s0: Store, balances0: map<Address, int>,
                         s: Store, balances: map<Address, int>)
    requires Ended(f, attempts, last, written, s0, balances0, s, balances)
    ensures forall o :: o in s.outputs && o !in s0.outputs ==>
      exists u :: u in AllReceived(attempts) && o.tx == u.tx && (u.index < 0x8000 ==> o.index == u.index)
                && (u.amount <= I64_MAX ==> s.outputs[o] == Columns(f, u.amount, u.script, u.address))
    ensures StatementsOk(attempts[last].messages) ==>
      forall u :: u in ReceivedIn(attempts[last]) && u.index < 0x8000 ==> Outpoint(u.tx, u.index) in s.outputs && u.tx in s.acceptances
  {
    StoredByOutpoints(f, AllReceived(attempts[..last + 1]), s0, s);
    ReceivedBefore(attempts, last + 1);
    StoredAtOutpoints(f, ReceivedIn(attempts[last]), s);
  }

  /** Attempts until one completes; the list ends with a shutdown. last is the attempt that completed. */
  method Start(db: Db, f: Fields, attempts: seq<Attempt>) returns (outcome: Outcome, ghost last: nat, ghost written: set<Address>)
    modifies db`outputs, db`acceptances, db`balances
    ensures outcome.Completed? ==> Ended(f, attempts, last, written, old(db.Tables()), old(db.balances), db.Tables(), db.balances)
    ensures outcome.Failed? ==> Retrying(f, attempts, old(db.Tables()), old(db.balances), db.Tables(), db.balances)
    ensures outcome.Overflowed? ==> last < |attempts| && !Fits(f, ReceivedIn(attempts[last]))
    ensures outcome.Completed? ==>
      last < |attempts| && attempts[last].connected && Verdict(attempts[last].messages) == Completed
    ensures outcome.Completed? ==>
      Finished(f, Received(attempts[last].messages), Rejected(attempts[last].messages), written,
               Emptied(f, attempts[..last + 1], old(db.balances)), db.balances)
    ensures !outcome.Failed? ==>
      last < |attempts| && forall a :: a in attempts[..last] && a.connected ==> Verdict(a.messages) == Failed
    ensures outcome.Failed? ==> forall a :: a in attempts && a.connected ==> Verdict(a.messages) == Failed
    ensures outcome.Failed? ==>
      db.balances == if f.address && exists a :: a in attempts && a.truncated then map[] else old(db.balances)
    ensures !outcome.Overflowed? ==> forall o :: o in db.outputs && o !in old(db.outputs) ==>
      exists u :: u in AllReceived(attempts) && o.tx == u.tx && (u.index < 0x8000 ==> o.index == u.index)
                && (u.amount <= I64_MAX ==> db.outputs[o] == Columns(f, u.amount, u.script, u.address))
    ensures outcome.Completed? && StatementsOk(attempts[last].messages) ==>
      forall u :: u in ReceivedIn(attempts[last]) && u.index < 0x8000 ==> Outpoint(u.tx, u.index) in db.outputs && u.tx in db.acceptances
  {
    ghost var s0, balances0 := db.Tables(), db.balances;
    for i := 0 to |attempts|
      invariant Retrying(f, attempts[..i], s0, balances0, db.Tables(), db.balances)
    {
      last := i;
      outcome, written := TryNext(db, f, attempts, i, s0, balances0);
      if !outcome.Failed? {
        if outcome.Completed? {
          EndedByOutpoints(f, attempts, last, written, s0, balances0, db.Tables(), db.balances);
        }
        return;
      }
    }
    assert attempts[..|attempts|] == attempts;
    StoredByOutpoints(f, AllReceived(attempts), s0, db.Tables());
    outcome, last, written := Failed, |attempts|, {};
  }

  /** No other address had a balance that a missing truncation would leave. */
  predicate NoOthers(f: Fields, utxos: seq<Utxo>, balances: map<Address, int>) {
    forall a :: a in balances && balances[a] != 0 ==> a in Paid(f, utxos)
  }

  /**
   * The table holds exactly the entries' totals if and only if some truncation worked or no other address had a balance,
   * and the addresses that a cut-short write left out were at their totals before. What failed attempts received, and how
   * the entries were split into chunks, does not show.
   */
  lemma BalancesAreTotalsIff(f: Fields, attempts: seq<Attempt>, utxos: seq<Utxo>, rejected: Option<nat>, written: set<Address>,
                             before: map<Address, int>, after: map<Address, int>)
    requires f.address && Finished(f, utxos, rejected, written, Emptied(f, attempts, before), after)
    ensures (forall a :: BalanceOf(after, a) == Total(f, utxos, a)) <==>
            && ((exists t :: t in attempts && t.truncated) || NoOthers(f, utxos, before))
            && (forall a :: a in Paid(f, utxos) - written ==> BalanceOf(Emptied(f, attempts, before), a) == Total(f, utxos, a))
    ensures !CutShort(f, utxos, rejected) ==> written == Paid(f, utxos)
  {
    PaidIsPaidIn(f, utxos);
    SameSize(written, Paid(f, utxos));
    forall a | a !in Paid(f, utxos) ensures Total(f, utxos, a) == 0 {
      UnpaidTotal(f, utxos, a);
    }
    var emptied := Emptied(f, attempts, before);
    assert forall a :: a !in written ==> BalanceOf(after, a) == BalanceOf(emptied, a);
    if a :| a in before && before[a] != 0 && a !in Paid(f, utxos) {
      assert BalanceOf(emptied, a) == BalanceOf(after, a);
    }
  }

  lemma SameSize<T>(a: set<T>, b: set<T>)
    requires a <= b
    ensures |a| == |b| <==> a == b
  {
    if a != b {
      assert b == a + (b - a) && |b - a| > 0;
    }
  }

  /** After a truncation that worked, and with a balance for each address paid to, only a complete final write will do. */
  lemma TruncatedTotalsIff(f: Fields, attempts: seq<Attempt>, utxos: seq<Utxo>, rejected: Option<nat>, written: set<Address>,
                           before: map<Address, int>, after: map<Address, int>)
    requires f.address && Finished(f, utxos, rejected, written, Emptied(f, attempts, before), after)
    requires exists t :: t in attempts && t.truncated
    requires forall a :: a in Paid(f, utxos) ==> Total(f, utxos, a) != 0
    ensures (forall a :: BalanceOf(after, a) == Total(f, utxos, a)) <==> !CutShort(f, utxos, rejected)
  {
    BalancesAreTotalsIff(f, attempts, utxos, rejected, written, before, after);
    SameSize(written, Paid(f, utxos));
    if CutShort(f, utxos, rejected) {
      assert Paid(f, utxos) - written != {};
      var a :| a in Paid(f, utxos) - written;
    }
  }

  lemma {:induction false} UnpaidTotal(f: Fields, utxos: seq<Utxo>, a: Address)
    requires !PaidIn(f, utxos, a)
    ensures Total(f, utxos, a) == 0
  {
    if utxos != [] {
      var last := |utxos| - 1;
      assert utxos[last] in utxos && forall u :: u in utxos[..last] ==> u in utxos;
      UnpaidTotal(f, utxos[..last], a);
    }
  }
}
