/** Saves that read between the statements of a poll, while acceptance rows are missing: exactly when they go right. */
module MidwaySaves {
  import opened Database
  import opened Sums
  import opened Balances
  import opened Windows
  import opened Chain
  import opened Ledger
  import Acceptances
  import LedgerSteps

  /** What a statement reads while a poll deletes or writes rows: some acceptance rows are missing. */
  function Midway(s: Store, missing: set<TxId>): Store {
    s.(acceptances := s.acceptances - missing)
  }

  lemma MidwayNet(s: Store, blocks: map<Hash, Block>, missing: set<TxId>, from: int, to: int, a: Address)
    requires forall t :: t in missing ==> !InWindow(s, blocks, t, from, to)
    ensures Net(Midway(s, missing), blocks, from, to, a) == Net(s, blocks, from, to, a)
  {
    SameCreated(s, Midway(s, missing), blocks, from, to, a);
    SameSpent(s, Midway(s, missing), blocks, from, to, a);
  }

  // ---- Over all tables ----

  const FIVE := Output(Some(5), None, Some("a"))

  /** One stored output, of transaction t. */
  function Paying(t: TxId, acc: map<TxId, Option<Hash>>): Store {
    Store(map[], map[], map[Outpoint(t, 0) := FIVE], acc)
  }

  lemma PayingNet(t: TxId, acc: map<TxId, Option<Hash>>, blocks: map<Hash, Block>, from: int, to: int)
    ensures Net(Paying(t, acc), blocks, from, to, "a") == if InWindow(Paying(t, acc), blocks, t, from, to) then 5 else 0
  {
    var rows := CreatedRows(Paying(t, acc), blocks, from, to, "a");
    if InWindow(Paying(t, acc), blocks, t, from, to) {
      assert rows == map[Outpoint(t, 0) := 5];
      SumAdd(map[], Outpoint(t, 0), 5);
    } else {
      assert rows == map[];
    }
    assert SpentRows(Paying(t, acc), blocks, from, to, "a") == map[];
  }

  lemma MissingIsNotCounted(t: TxId, acc: map<TxId, Option<Hash>>, blocks: map<Hash, Block>, missing: set<TxId>, from: int, to: int)
    requires t in missing && InWindow(Paying(t, acc), blocks, t, from, to)
    ensures Net(Midway(Paying(t, acc), missing), blocks, from, to, "a") == 0 && Net(Paying(t, acc), blocks, from, to, "a") == 5
  {
    PayingNet(t, acc, blocks, from, to);
    PayingNet(t, acc - missing, blocks, from, to);
    assert Midway(Paying(t, acc), missing) == Paying(t, acc - missing);
  }

  /** The window's amounts do not show which rows are missing. */
  ghost predicate Unseen(acc: map<TxId, Option<Hash>>, blocks: map<Hash, Block>, missing: set<TxId>, from: int, to: int) {
    forall s: Store, a: Address :: s.acceptances == acc ==>
      Net(Midway(s, missing), blocks, from, to, a) == Net(s, blocks, from, to, a)
  }

  /** Over all tables with these acceptances, missing rows are not seen if and only if none of them is in the window. */
  lemma UnseenIff(acc: map<TxId, Option<Hash>>, blocks: map<Hash, Block>, missing: set<TxId>, from: int, to: int)
    ensures Unseen(acc, blocks, missing, from, to) <==>
      forall t :: t in missing ==> !InWindow(Store(map[], map[], map[], acc), blocks, t, from, to)
  {
    if t :| t in missing && InWindow(Store(map[], map[], map[], acc), blocks, t, from, to) {
      MissingIsNotCounted(t, acc, blocks, missing, from, to);
    } else {
      forall s: Store, a: Address | s.acceptances == acc
        ensures Net(Midway(s, missing), blocks, from, to, a) == Net(s, blocks, from, to, a)
      {
        MidwayNet(s, blocks, missing, from, to, a);
      }
    }
  }

  // ---- Over all ledgers ----

  /** A save that reads while the rows are missing brings all balances to the replay up to the score. */
  ghost predicate Balanced(w: World, l: Ledger, to: int, now: seq<Accepted>, missing: set<TxId>) {
    forall a: Address ::
      BalanceOf(l.balances, a) + Net(Midway(l.store, missing), l.blocks, l.saved, to, a) == UtxoSum(Replay(w, l.settled + now), a)
  }

  /** The ledgers with the same chain, in which the same is to be settled. */
  ghost predicate Alike(l: Ledger, to: int, now: seq<Accepted>, later: seq<Accepted>, w': World, l': Ledger) {
    && Inv(w', l') && Ready(w', l', to, now, later)
    && l'.store.acceptances == l.store.acceptances && l'.blocks == l.blocks && l'.saved == l.saved
  }

  lemma NothingToSettleIsBalanced(w: World, l: Ledger, to: int, now: seq<Accepted>, later: seq<Accepted>, missing: set<TxId>)
    requires Inv(w, l) && Ready(w, l, to, now, later) && missing !! Ids(now)
    ensures Balanced(w, l, to, now, missing)
  {
    forall t | t in missing ensures !InWindow(l.store, l.blocks, t, l.saved, to) {
      WindowIsNow(w, l, to, now, later, t);
    }
    forall a: Address
      ensures BalanceOf(l.balances, a) + Net(Midway(l.store, missing), l.blocks, l.saved, to, a) == UtxoSum(Replay(w, l.settled + now), a)
    {
      MidwayNet(l.store, l.blocks, missing, l.saved, to, a);
      NetLeadsToReplay(w, l, to, now, later, a);
    }
  }

  /** The world in which transaction t creates an output and nothing else happens. */
  function OnlyPays(blue: Hash -> int, ancient: set<TxId>, t: TxId): World {
    World(x => if x == t then Body([], [FIVE]) else Body([], []), blue, map[], ancient)
  }

  lemma LastIsNew(w: World, before: seq<Accepted>, front: seq<Accepted>, e: Accepted)
    requires Valid(w, before + (front + [e]))
    ensures Valid(w, before + front) && e.tx !in Ids(front)
  {
    assert (before + (front + [e]))[..|before + front|] == before + front;
    IdsSplit(before, front);
  }

  lemma OneMoreWithoutInputs(w: World, front: seq<Accepted>, e: Accepted)
    requires Valid(w, front) && e.tx !in Ids(front) && e.tx !in w.ancient && forall t :: w.body(t).inputs == []
    ensures Valid(w, front + [e])
  {
    assert (front + [e])[..|front|] == front;
  }

  lemma {:induction false} ValidWithoutInputs(w: World, w': World, before: seq<Accepted>, txs: seq<Accepted>)
    requires Valid(w, before + txs) && w'.ancient !! Ids(txs) && forall t :: w'.body(t).inputs == []
    ensures Valid(w', txs)
    decreases |txs|
  {
    if txs != [] {
      var front, e := txs[..|txs| - 1], txs[|txs| - 1];
      assert txs == front + [e];
      assert e.tx in Ids(txs) && Ids(front) <= Ids(txs);
      LastIsNew(w, before, front, e);
      ValidWithoutInputs(w, w', before, front);
      OneMoreWithoutInputs(w', front, e);
    }
  }

  /** The ledger of that world on the same chain. */
  function OnlyPaid(l: Ledger, t: TxId): Ledger {
    Ledger(Paying(t, l.store.acceptances), l.blocks, map[], l.saved, [], l.recent)
  }

  /** w' and l' are that world and its ledger. */
  ghost predicate Replaced(w: World, l: Ledger, t: TxId, w': World, l': Ledger) {
    w' == OnlyPays(w.blue, l.store.acceptances.Keys - Ids(l.recent), t) && l' == OnlyPaid(l, t)
  }

  lemma ReplacedIndex(w: World, l: Ledger, t: TxId, w': World, l': Ledger)
    requires Inv(w, l) && Replaced(w, l, t, w', l')
    ensures IndexedAbove(w', l'.store, l'.saved, l'.settled, l'.recent)
  {
  }

  lemma ReplacedRows(w: World, l: Ledger, t: TxId, w': World, l': Ledger)
    requires GenuineRows(w, l.store, l.blocks) && Replaced(w, l, t, w', l')
    ensures GenuineRows(w', l'.store, l'.blocks) && w'.WellFormed() && AllRowsOf(w', l'.store, t)
    ensures forall x :: x != t ==> AllRowsOf(w', l'.store, x)
  {
  }

  lemma ReplacedBalances(w': World, l': Ledger)
    requires w'.base == map[] && l'.settled == [] && l'.balances == map[]
    ensures UnspentStored(l'.store, Replay(w', l'.settled)) && BalancesAreReplay(w', l')
  {
    forall a: Address ensures UtxoSum(Replay(w', []), a) == 0 {
      assert PaidTo(map[], a) == map[];
    }
  }

  lemma ReplacedHolds(w: World, l: Ledger, t: TxId, w': World, l': Ledger)
    requires Inv(w, l) && Replaced(w, l, t, w', l')
    ensures Inv(w', l')
  {
    ValidWithoutInputs(w, w', l.settled, l.recent);
    assert l'.settled + l'.recent == l.recent;
    ReplacedIndex(w, l, t, w', l');
    ReplacedRows(w, l, t, w', l');
    ReplacedBalances(w', l');
  }

  lemma ReplacedIsAlike(w: World, l: Ledger, to: int, now: seq<Accepted>, later: seq<Accepted>, t: TxId, w': World, l': Ledger)
    requires Inv(w, l) && Ready(w, l, to, now, later) && Replaced(w, l, t, w', l')
    ensures Alike(l, to, now, later, w', l')
  {
    ReplacedHolds(w, l, t, w', l');
    ReplacedRows(w, l, t, w', l');
  }

  lemma PaidIsMissed(w: World, l: Ledger, to: int, now: seq<Accepted>, later: seq<Accepted>, missing: set<TxId>, t: TxId)
    requires Inv(w, l) && Ready(w, l, to, now, later) && t in missing && t in Ids(now)
    requires l.store == Paying(t, l.store.acceptances)
    ensures !Balanced(w, l, to, now, missing)
  {
    WindowIsNow(w, l, to, now, later, t);
    MissingIsNotCounted(t, l.store.acceptances, l.blocks, missing, l.saved, to);
    NetLeadsToReplay(w, l, to, now, later, "a");
  }

  /** With a row to settle missing, some ledger on the same chain goes wrong. */
  lemma MissingUnbalances(w: World, l: Ledger, to: int, now: seq<Accepted>, later: seq<Accepted>, missing: set<TxId>, t: TxId)
    returns (w': World, l': Ledger)
    requires Inv(w, l) && Ready(w, l, to, now, later) && t in missing && t in Ids(now)
    ensures Alike(l, to, now, later, w', l') && !Balanced(w', l', to, now, missing)
  {
    w', l' := OnlyPays(w.blue, l.store.acceptances.Keys - Ids(l.recent), t), OnlyPaid(l, t);
    ReplacedIsAlike(w, l, to, now, later, t, w', l');
    PaidIsMissed(w', l', to, now, later, missing, t);
  }

  /**
   * On a chain, with what a save settles: the save brings the balances to the replay in all ledgers on the chain, if and
   * only if no row to settle is missing while it reads.
   */
  lemma MidwaySaveIff(w: World, l: Ledger, to: int, now: seq<Accepted>, later: seq<Accepted>, missing: set<TxId>)
    requires Inv(w, l) && Ready(w, l, to, now, later)
    ensures (forall w': World, l': Ledger :: Alike(l, to, now, later, w', l') ==> Balanced(w', l', to, now, missing))
       <==> missing !! Ids(now)
  {
    if missing !! Ids(now) {
      forall w': World, l': Ledger | Alike(l, to, now, later, w', l') ensures Balanced(w', l', to, now, missing) {
        NothingToSettleIsBalanced(w', l', to, now, later, missing);
      }
    } else {
      var t :| t in missing && t in Ids(now);
      var w', l' := MissingUnbalances(w, l, to, now, later, missing, t);
    }
  }

  // ---- Behind the first statements of a poll ----

  /** The rows that the removal of the blocks deletes. */
  function RowsOfBlocks(s: Store, blocks: set<Hash>): set<TxId> {
    s.acceptances.Keys - Acceptances.WithoutBlocks(s.acceptances, blocks).Keys
  }

  /** Once the removed blocks' rows are deleted, a row to settle is missing if and only if it named one of them. */
  lemma RemovalMissesIff(w: World, l: Ledger, to: int, now: seq<Accepted>, later: seq<Accepted>, blocks: set<Hash>)
    requires Inv(w, l) && Ready(w, l, to, now, later)
    ensures RowsOfBlocks(l.store, blocks) !! Ids(now) <==> forall e :: e in now ==> e.block !in blocks
  {
    assert forall e :: e in now ==> e in l.recent;
    if e :| e in now && e.block in blocks {
      assert e.tx in RowsOfBlocks(l.store, blocks) && e.tx in Ids(now);
    }
  }

  /**
   * A poll that goes back above the saved score takes the ledger to where the rows of its removed blocks are missing. A save
   * that reads there goes right in all ledgers on the chain, if and only if no removed block accepts what is to be settled.
   */
  lemma SaveAfterRemovalIff(w: World, l: Ledger, to: int, now: seq<Accepted>, later: seq<Accepted>, blocks: set<Hash>)
    requires Inv(w, l) && Ready(w, l, to, now, later) && forall b :: b in blocks ==> l.saved < w.blue(b)
    ensures var missing, l1 := RowsOfBlocks(l.store, blocks), l.(store := Midway(l.store, RowsOfBlocks(l.store, blocks)));
      && Remove(w, l, l1, missing) && Inv(w, l1)
      && ((forall w': World, l': Ledger :: Alike(l, to, now, later, w', l') ==> Balanced(w', l', to, now, missing)) <==>
          (forall e :: e in now ==> e.block !in blocks))
  {
    LedgerSteps.RemovalIsStep(w, l, blocks);
    var kept := Acceptances.WithoutBlocks(l.store.acceptances, blocks);
    assert kept == l.store.acceptances - RowsOfBlocks(l.store, blocks);
    RemovalMissesIff(w, l, to, now, later, blocks);
    MidwaySaveIff(w, l, to, now, later, RowsOfBlocks(l.store, blocks));
  }
}
