/** The incremental balance update: indexer/src/utxo_import/balance_updater.rs. */
module BalanceUpdater {
  import opened Database
  import opened Sums
  import opened Balances
  import opened Windows

  /** The rows of a join: the address and amount of each. */
  type Joined<!K> = map<K, (Address, int)>

  function RowsOf<K>(rows: Joined<K>, a: Address): map<K, int> {
    map k | k in rows && rows[k].0 == a :: rows[k].1
  }

  /** GROUP BY address, summing the amounts. */
  method GroupByAddress<K(!new, ==)>(rows: Joined<K>) returns (totals: map<Address, int>)
    ensures forall a :: BalanceOf(totals, a) == Sum(RowsOf(rows, a))
  {
    totals := map[];
    var left := rows.Keys;
    while left != {}
      invariant left <= rows.Keys
      invariant forall a :: BalanceOf(totals, a) == SumOn(RowsOf(rows, a), RowsOf(rows, a).Keys - left)
      decreases left
    {
      var k :| k in left;
      forall a ensures SumOn(RowsOf(rows, a), RowsOf(rows, a).Keys - (left - {k}))
                    == SumOn(RowsOf(rows, a), RowsOf(rows, a).Keys - left) + if rows[k].0 == a then rows[k].1 else 0 {
        OneRowMore(rows, a, left, k);
      }
      totals := totals[rows[k].0 := BalanceOf(totals, rows[k].0) + rows[k].1];
      left := left - {k};
    }
    forall a ensures RowsOf(rows, a).Keys - left == RowsOf(rows, a).Keys {
    }
  }

  lemma OneRowMore<K(!new)>(rows: Joined<K>, a: Address, left: set<K>, k: K)
    requires left <= rows.Keys && k in left
    ensures var of := RowsOf(rows, a);
      SumOn(of, of.Keys - (left - {k})) == SumOn(of, of.Keys - left) + if rows[k].0 == a then rows[k].1 else 0
  {
    var of := RowsOf(rows, a);
    if rows[k].0 == a {
      SumRemove(of, of.Keys - (left - {k}), k);
      assert of.Keys - (left - {k}) - {k} == of.Keys - left;
    } else {
      assert of.Keys - (left - {k}) == of.Keys - left;
    }
  }

  function CreatedJoin(s: Store, blocks: map<Hash, Block>, from: int, to: int): Joined<Outpoint> {
    map o | o in s.outputs && InWindow(s, blocks, o.tx, from, to) && s.outputs[o].address.Some?
      :: (s.outputs[o].address.value, Amount(s.outputs[o]))
  }

  function SpentJoin(s: Store, blocks: map<Hash, Block>, from: int, to: int): Joined<InputId> {
    map i | i in s.inputs && InWindow(s, blocks, i.tx, from, to)
            && s.inputs[i].previous in s.outputs && s.outputs[s.inputs[i].previous].address.Some?
      :: (s.outputs[s.inputs[i].previous].address.value, Amount(s.outputs[s.inputs[i].previous]))
  }

  lemma JoinsAreRows(s: Store, blocks: map<Hash, Block>, from: int, to: int, a: Address)
    ensures RowsOf(CreatedJoin(s, blocks, from, to), a) == CreatedRows(s, blocks, from, to, a)
    ensures RowsOf(SpentJoin(s, blocks, from, to), a) == SpentRows(s, blocks, from, to, a)
  {
  }

  /** The totals as deltas, each with the given sign; zero totals are skipped. */
  method SignedDeltas(totals: seq<Balance>, sign: int) returns (deltas: seq<Balance>)
    requires sign == 1 || sign == -1
    requires DistinctAddresses(totals)
    ensures DistinctAddresses(deltas)
    ensures forall a :: SumOf(deltas, a) == sign * SumOf(totals, a)
    ensures forall d :: d in deltas ==> Balance(d.address, sign * d.balance) in totals
  {
    deltas := [];
    for n := 0 to |totals|
      invariant DistinctAddresses(deltas)
      invariant forall a :: SumOf(deltas, a) == sign * SumOf(totals[..n], a)
      invariant forall d :: d in deltas ==> exists i :: 0 <= i < n && totals[i] == Balance(d.address, sign * d.balance)
    {
      assert totals[..n + 1][..n] == totals[..n];
      if totals[n].balance != 0 {
        var delta := Balance(totals[n].address, sign * totals[n].balance);
        assert (deltas + [delta])[..|deltas|] == deltas;
        deltas := deltas + [delta];
      }
    }
    assert totals[..|totals|] == totals;
  }

  lemma {:induction false} EntrySum(entries: seq<Balance>, e: Balance)
    requires DistinctAddresses(entries) && e in entries
    ensures SumOf(entries, e.address) == e.balance
  {
    var last := |entries| - 1;
    if entries[last] == e {
      UnmentionedSumsToZero(entries[..last], e.address);
    } else {
      assert e in entries[..last];
      EntrySum(entries[..last], e);
    }
  }

  /** SELECT address, SUM(amount)::BIGINT ... GROUP BY address: fails when a total does not fit. */
  method SelectTotals<K(!new, ==)>(rows: Joined<K>) returns (ok: bool, totals: seq<Balance>)
    ensures ok <==> forall a :: FitsI64(Sum(RowsOf(rows, a)))
    ensures ok ==> DistinctAddresses(totals) && forall a :: SumOf(totals, a) == Sum(RowsOf(rows, a))
    ensures ok ==> forall e :: e in totals ==> FitsI64(e.balance)
  {
    var groups := GroupByAddress(rows);
    if exists a :: a in groups && !FitsI64(groups[a]) {
      ghost var a :| a in groups && !FitsI64(groups[a]);
      assert BalanceOf(groups, a) == Sum(RowsOf(rows, a));
      return false, [];
    }
    totals := Entries(groups);
    forall a ensures SumOf(totals, a) == BalanceOf(groups, a) {
      if a in groups {
        EntrySum(totals, Balance(a, groups[a]));
      } else {
        UnmentionedSumsToZero(totals, a);
      }
    }
    ok := true;
  }

  /** Both sums, from the joined rows; a total that cannot be negated aborts. */
  method ApplyTotals(db: Db, created: seq<Balance>, spent: seq<Balance>) returns (result: UpdateResult)
    requires DistinctAddresses(created) && DistinctAddresses(spent)
    requires forall e :: e in created + spent ==> FitsI64(e.balance)
    modifies db`balances
    ensures result.Updated? ==> forall a ::
      BalanceOf(db.balances, a) == BalanceOf(old(db.balances), a) + SumOf(created, a) - SumOf(spent, a)
    ensures !result.Updated? && (forall e :: e in created + spent ==> 0 <= e.balance) ==> result.SqlError? && exists a ::
      !FitsI64(BalanceOf(old(db.balances), a) + SumOf(created, a) - SumOf(spent, a))
  {
    assert forall e :: e in created || e in spent ==> e in created + spent;
    if exists e :: e in spent && e.balance == I64_MIN {
      return Aborted;
    }
    var plus := SignedDeltas(created, 1);
    var minus := SignedDeltas(spent, -1);
    var deltas := plus + minus;
    forall a ensures SumOf(deltas, a) == SumOf(created, a) - SumOf(spent, a) {
      SumOfConcat(plus, minus, a);
    }
    if forall e :: e in created + spent ==> 0 <= e.balance {
      CreatedThenSpentFits(plus, minus);
    }
    if deltas == [] {
      return Updated(0);
    }
    result := UpdateBalancesIncremental(db, deltas);
  }

  /** Whether both checkpoint blocks are stored, so that the query has its two scores. */
  predicate ScoresKnown(blocks: map<Hash, Block>, from: Hash, to: Hash) {
    from in blocks && to in blocks
  }

  predicate NonNegativeAmounts(outputs: map<Outpoint, Output>) {
    forall o :: o in outputs ==> 0 <= Amount(outputs[o])
  }

  lemma TotalsAreNonNegative<K(!new)>(rows: Joined<K>, totals: seq<Balance>)
    requires forall k :: k in rows ==> 0 <= rows[k].1
    requires DistinctAddresses(totals) && forall a :: SumOf(totals, a) == Sum(RowsOf(rows, a))
    ensures forall e :: e in totals ==> 0 <= e.balance
  {
    forall e | e in totals ensures 0 <= e.balance {
      EntrySum(totals, e);
      SumNonNegative(RowsOf(rows, e.address), RowsOf(rows, e.address).Keys);
    }
  }

  ghost predicate NonNegativeRows<K(!new)>(rows: Joined<K>) {
    forall k :: k in rows ==> 0 <= rows[k].1
  }

  /** Some total or some new balance does not fit a BIGINT. */
  ghost predicate RowsTooLarge<K(!new), L(!new)>(created: Joined<K>, spent: Joined<L>, balances: map<Address, int>) {
    exists a :: !FitsI64(Sum(RowsOf(created, a))) || !FitsI64(Sum(RowsOf(spent, a)))
             || !FitsI64(BalanceOf(balances, a) + Sum(RowsOf(created, a)) - Sum(RowsOf(spent, a)))
  }

  /** The two totals of the joined rows, applied. */
  method ApplyJoins<K(!new, ==), L(!new, ==)>(db: Db, created: Joined<K>, spent: Joined<L>) returns (result: UpdateResult)
    modifies db`balances
    ensures result.Updated? ==> forall a ::
      BalanceOf(db.balances, a) == BalanceOf(old(db.balances), a) + Sum(RowsOf(created, a)) - Sum(RowsOf(spent, a))
    ensures !result.Updated? && NonNegativeRows(created) && NonNegativeRows(spent) ==>
      result.SqlError? && RowsTooLarge(created, spent, old(db.balances))
  {
    var ok, plus := SelectTotals(created);
    if !ok {
      return SqlError;
    }
    var minus;
    ok, minus := SelectTotals(spent);
    if !ok {
      return SqlError;
    }
    if NonNegativeRows(created) && NonNegativeRows(spent) {
      TotalsAreNonNegative(created, plus);
      TotalsAreNonNegative(spent, minus);
    }
    assert forall a :: SumOf(plus, a) == Sum(RowsOf(created, a)) && SumOf(minus, a) == Sum(RowsOf(spent, a));
    result := ApplyTotals(db, plus, minus);
  }

  lemma JoinsAreNonNegative(s: Store, blocks: map<Hash, Block>, from: int, to: int)
    requires NonNegativeAmounts(s.outputs)
    ensures NonNegativeRows(CreatedJoin(s, blocks, from, to)) && NonNegativeRows(SpentJoin(s, blocks, from, to))
  {
  }

  lemma JoinsAreSums(s: Store, blocks: map<Hash, Block>, from: int, to: int)
    ensures forall a :: Sum(RowsOf(CreatedJoin(s, blocks, from, to), a)) == Created(s, blocks, from, to, a)
    ensures forall a :: Sum(RowsOf(SpentJoin(s, blocks, from, to), a)) == Spent(s, blocks, from, to, a)
  {
    forall a ensures Sum(RowsOf(CreatedJoin(s, blocks, from, to), a)) == Created(s, blocks, from, to, a)
                  && Sum(RowsOf(SpentJoin(s, blocks, from, to), a)) == Spent(s, blocks, from, to, a) {
      JoinsAreRows(s, blocks, from, to, a);
    }
  }

  lemma JoinsTooLarge(s: Store, blocks: map<Hash, Block>, from: int, to: int, balances: map<Address, int>)
    requires RowsTooLarge(CreatedJoin(s, blocks, from, to), SpentJoin(s, blocks, from, to), balances)
    ensures exists a :: !FitsI64(Created(s, blocks, from, to, a)) || !FitsI64(Spent(s, blocks, from, to, a))
                     || !FitsI64(BalanceOf(balances, a) + Net(s, blocks, from, to, a))
  {
    JoinsAreSums(s, blocks, from, to);
  }

  /**
   * Moves every balance by what the window between the two blocks created and spent.
   * Without both scores the queries return nothing and the call succeeds without effect.
   */
  method UpdateBalancesFromUtxoChanges(db: Db, from: Hash, to: Hash) returns (result: UpdateResult)
    modifies db`balances
    ensures from !in db.blocks || to !in db.blocks ==> result == Updated(0) && db.balances == old(db.balances)
    ensures result.Updated? && from in db.blocks && to in db.blocks ==>
      forall a :: BalanceOf(db.balances, a) == BalanceOf(old(db.balances), a)
                  + Net(db.Tables(), db.blocks, db.blocks[from].blueScore, db.blocks[to].blueScore, a)
    ensures !result.Updated? ==> from in db.blocks && to in db.blocks
    ensures !result.Updated? && NonNegativeAmounts(db.outputs) ==> result.SqlError?
    ensures !result.Updated? && NonNegativeAmounts(db.outputs) ==>
      var (f, t) := (db.blocks[from].blueScore, db.blocks[to].blueScore);
      exists a :: !FitsI64(Created(db.Tables(), db.blocks, f, t, a)) || !FitsI64(Spent(db.Tables(), db.blocks, f, t, a))
               || !FitsI64(BalanceOf(old(db.balances), a) + Net(db.Tables(), db.blocks, f, t, a))
  {
    if !ScoresKnown(db.blocks, from, to) {
      return Updated(0);
    }
    ghost var s, before := db.Tables(), db.balances;
    var f, t := db.blocks[from].blueScore, db.blocks[to].blueScore;
    JoinsAreSums(s, db.blocks, f, t);
    result := ApplyJoins(db, CreatedJoin(db.Tables(), db.blocks, f, t), SpentJoin(db.Tables(), db.blocks, f, t));
    if !result.Updated? && NonNegativeAmounts(db.outputs) {
      JoinsAreNonNegative(s, db.blocks, f, t);
      JoinsTooLarge(s, db.blocks, f, t, before);
    }
  }
}
