/**
 * The balance table over whole runs: transactions are committed, the chain grows and reorganises, rows are pruned and
 * checkpoints are saved, in any order; each balance stays the sum of an address's outputs in the replayed UTXO set.
 */
module Ledger {
  import opened Database
  import opened Sums
  import opened Balances
  import opened Pruning
  import opened PruningTheorems
  import opened Windows
  import opened Chain

  /**
   * The tables, and beside them what they stand for: the blue score of the saved checkpoint, the transactions accepted
   * up to it and those accepted after it.
   */
  datatype Ledger = Ledger(store: Store, blocks: map<Hash, Block>, balances: map<Address, int>,
                           saved: int, settled: seq<Accepted>, recent: seq<Accepted>)

  ghost predicate GenuineInput(w: World, i: InputId, row: Input) {
    0 <= i.index < |w.body(i.tx).inputs| && row.previous == w.body(i.tx).inputs[i.index]
  }

  /** Every stored row is a row of the transaction it names; every stored block has its own score. */
  ghost predicate GenuineRows(w: World, s: Store, blocks: map<Hash, Block>) {
    && (forall i :: i in s.inputs ==> GenuineInput(w, i, s.inputs[i]))
    && (forall o :: o in s.outputs ==> w.Genuine(o, s.outputs[o]))
    && (forall b :: b in blocks ==> blocks[b].blueScore == w.blue(b))
  }

  ghost predicate AllRowsOf(w: World, s: Store, t: TxId) {
    && (forall k :: 0 <= k < |w.body(t).inputs| ==> InputId(t, k) in s.inputs)
    && (forall k :: 0 <= k < |w.body(t).outputs| ==> Outpoint(t, k) in s.outputs)
  }

  /** The acceptances above the saved score are rows of the recent chain; some of its rows may be missing in between. */
  ghost predicate IndexedAbove(w: World, s: Store, saved: int, settled: seq<Accepted>, recent: seq<Accepted>) {
    && (forall e :: e in recent ==>
          saved < w.blue(e.block) && (e.tx in s.acceptances ==> s.acceptances[e.tx] == Some(e.block)))
    && (forall t :: t in s.acceptances && t !in Ids(recent) ==>
          && (t in Ids(settled) || t in w.ancient)
          && (s.acceptances[t].Some? ==> w.blue(s.acceptances[t].value) <= saved))
  }

  /** What is unspent at the saved score is stored, with its acceptance. */
  ghost predicate UnspentStored(s: Store, u: map<Outpoint, Output>) {
    forall o :: o in u ==> o in s.outputs && s.outputs[o] == u[o] && o.tx in s.acceptances
  }

  ghost predicate BalancesAreReplay(w: World, l: Ledger) {
    forall a :: BalanceOf(l.balances, a) == UtxoSum(Replay(w, l.settled), a)
  }

  ghost predicate Inv(w: World, l: Ledger) {
    && w.WellFormed()
    && Valid(w, l.settled + l.recent)
    && GenuineRows(w, l.store, l.blocks)
    && IndexedAbove(w, l.store, l.saved, l.settled, l.recent)
    && UnspentStored(l.store, Replay(w, l.settled))
    && BalancesAreReplay(w, l)
  }

  // ---- The steps ----

  /** The import: its UTXO set is stored with acceptances that name no block, and the balances are its sums. */
  ghost predicate Init(w: World, l: Ledger) {
    && w.WellFormed()
    && l.settled == [] && l.recent == []
    && GenuineRows(w, l.store, l.blocks)
    && (forall o :: o in w.base ==> o in l.store.outputs && l.store.outputs[o] == w.base[o] && o.tx in l.store.acceptances)
    && (forall t :: t in l.store.acceptances ==>
          t in w.ancient && (l.store.acceptances[t].Some? ==> w.blue(l.store.acceptances[t].value) <= l.saved))
    && (forall a :: BalanceOf(l.balances, a) == UtxoSum(w.base, a))
  }

  /** The transaction processor commits all rows of some transactions, keeping rows already stored. */
  ghost predicate Commit(w: World, l: Ledger, l': Ledger, txs: set<TxId>) {
    && l' == l.(store := l'.store)
    && l'.store.acceptances == l.store.acceptances
    && Submap(l.store.inputs, l'.store.inputs) && Submap(l.store.outputs, l'.store.outputs)
    && GenuineRows(w, l'.store, l'.blocks)
    && forall t :: t in txs ==> AllRowsOf(w, l'.store, t)
  }

  /** The block processor stores blocks and block pruning deletes some. */
  ghost predicate ChangeBlocks(w: World, l: Ledger, l': Ledger) {
    l' == l.(blocks := l'.blocks) && GenuineRows(w, l'.store, l'.blocks)
  }

  /** The chain processor deletes rows of the recent chain: a chunk of the removed blocks. */
  ghost predicate Remove(w: World, l: Ledger, l': Ledger, gone: set<TxId>) {
    && l' == l.(store := l.store.(acceptances := l.store.acceptances - gone))
    && gone <= Ids(l.recent)
  }

  /** Once the rows of the removed blocks are gone, another chain above the saved score is the recent one. */
  ghost predicate Reorganise(w: World, l: Ledger, l': Ledger, kept: seq<Accepted>, dropped: seq<Accepted>, added: seq<Accepted>) {
    && l.recent == kept + dropped && l' == l.(recent := kept + added)
    && Valid(w, l.settled + (kept + added))
    && (forall e :: e in dropped ==> e.tx !in l.store.acceptances)
    && (forall e :: e in added ==> e.tx !in l.store.acceptances && l.saved < w.blue(e.block))
  }

  /** The chain processor writes rows of the recent chain: a chunk of the accepted transactions. */
  ghost predicate Accept(w: World, l: Ledger, l': Ledger) {
    && l' == l.(store := l.store.(acceptances := l'.store.acceptances))
    && Submap(l.store.acceptances, l'.store.acceptances)
    && forall t :: t in l'.store.acceptances && t !in l.store.acceptances ==>
         exists e :: e in l.recent && e.tx == t && l'.store.acceptances[t] == Some(e.block)
  }

  /** Pruning by any chunks whose accepted transactions are settled. */
  ghost predicate Prune(w: World, l: Ledger, l': Ledger, chunks: seq<set<TxId>>) {
    && l' == l.(store := PruneChunks(l.store, chunks))
    && Disjoint(chunks)
    && Union(chunks) !! Ids(l.recent)
  }

  /** What a save at the score settles is now, all rows of it are there, and later is accepted above the score. */
  ghost predicate Ready(w: World, l: Ledger, to: int, now: seq<Accepted>, later: seq<Accepted>) {
    && l.recent == now + later && l.saved <= to
    && (forall e :: e in now ==> w.blue(e.block) <= to && e.block in l.blocks)
    && (forall e :: e in now ==> AllRowsOf(w, l.store, e.tx) && e.tx in l.store.acceptances)
    && (forall e :: e in later ==> to < w.blue(e.block))
  }

  /** A checkpoint save at a score no lower than the last, while all rows up to it are there. */
  ghost predicate Save(w: World, l: Ledger, l': Ledger, now: seq<Accepted>) {
    && l' == l.(balances := l'.balances, saved := l'.saved, settled := l.settled + now, recent := l'.recent)
    && Ready(w, l, l'.saved, now, l'.recent)
    && (forall a :: BalanceOf(l'.balances, a) ==
          BalanceOf(l.balances, a) + Net(l.store, l.blocks, l.saved, l'.saved, a))
  }

  /** What the chain processor does. */
  ghost predicate ChainStep(w: World, l: Ledger, l': Ledger) {
    || (exists gone :: Remove(w, l, l', gone))
    || (exists kept, dropped, added :: Reorganise(w, l, l', kept, dropped, added))
    || Accept(w, l, l')
  }

  ghost predicate Next(w: World, l: Ledger, l': Ledger) {
    || (exists txs :: Commit(w, l, l', txs))
    || ChangeBlocks(w, l, l')
    || ChainStep(w, l, l')
    || (exists chunks :: Prune(w, l, l', chunks))
    || (exists now :: Save(w, l, l', now))
  }

  // ---- The invariant ----

  lemma InitHolds(w: World, l: Ledger)
    requires Init(w, l)
    ensures Inv(w, l)
  {
  }

  lemma CommitKeeps(w: World, l: Ledger, l': Ledger, txs: set<TxId>)
    requires Inv(w, l) && Commit(w, l, l', txs)
    ensures Inv(w, l')
  {
  }

  /** What is unspent at the saved score was created by no recent transaction. */
  lemma UnspentIsSettled(w: World, l: Ledger, o: Outpoint)
    requires Inv(w, l) && o in Replay(w, l.settled)
    ensures o.tx !in Ids(l.recent)
  {
    OwnersAreKnown(w, l.settled);
    ValidParts(w, l.settled, l.recent);
    IdsSplit(l.settled, l.recent);
  }

  lemma RemoveKeeps(w: World, l: Ledger, l': Ledger, gone: set<TxId>)
    requires Inv(w, l) && Remove(w, l, l', gone)
    ensures Inv(w, l')
  {
    forall o | o in Replay(w, l.settled) ensures o.tx in l'.store.acceptances {
      UnspentIsSettled(w, l, o);
    }
  }

  lemma ReorganiseKeeps(w: World, l: Ledger, l': Ledger, kept: seq<Accepted>, dropped: seq<Accepted>, added: seq<Accepted>)
    requires Inv(w, l) && Reorganise(w, l, l', kept, dropped, added)
    ensures Inv(w, l')
  {
    IdsSplit(kept, dropped);
    IdsSplit(kept, added);
    assert forall e :: e in l.recent <==> e in kept || e in dropped;
  }

  lemma AcceptKeeps(w: World, l: Ledger, l': Ledger)
    requires Inv(w, l) && Accept(w, l, l')
    ensures Inv(w, l')
  {
    forall e | e in l.recent && e.tx in l'.store.acceptances ensures l'.store.acceptances[e.tx] == Some(e.block) {
      if e.tx !in l.store.acceptances {
        var f :| f in l.recent && f.tx == e.tx && l'.store.acceptances[e.tx] == Some(f.block);
        AcceptedOnceInOrder(w, l.settled + l.recent, e, f);
      }
    }
  }

  lemma ChainStepKeeps(w: World, l: Ledger, l': Ledger)
    requires Inv(w, l) && ChainStep(w, l, l')
    ensures Inv(w, l')
    ensures forall t :: AllRowsOf(w, l'.store, t) <==> AllRowsOf(w, l.store, t)
  {
    if gone :| Remove(w, l, l', gone) {
      RemoveKeeps(w, l, l', gone);
    } else if kept, dropped, added :| Reorganise(w, l, l', kept, dropped, added) {
      ReorganiseKeeps(w, l, l', kept, dropped, added);
    } else {
      AcceptKeeps(w, l, l');
    }
  }

  lemma {:induction false} AcceptedOnceInOrder(w: World, txs: seq<Accepted>, e: Accepted, f: Accepted)
    requires Valid(w, txs) && e in txs && f in txs && e.tx == f.tx
    ensures e == f
  {
    var last := |txs| - 1;
    assert txs == txs[..last] + [txs[last]];
    assert forall x :: x in txs[..last] ==> x.tx in Ids(txs[..last]);
    if e in txs[..last] && f in txs[..last] {
      AcceptedOnceInOrder(w, txs[..last], e, f);
    }
  }

  /** Accepted transactions outside the recent chain spend nothing unspent and nothing of the recent chain. */
  lemma SettledSpends(w: World, l: Ledger, t: TxId, p: Outpoint)
    requires Inv(w, l) && t in l.store.acceptances && t !in Ids(l.recent) && p in w.body(t).inputs
    ensures p !in Replay(w, l.settled) && p.tx !in Ids(l.recent)
  {
    ValidParts(w, l.settled, l.recent);
    if t in Ids(l.settled) {
      var e :| e in l.settled && e.tx == t;
      SpentIsGone(w, l.settled, l.recent, e, p);
    } else {
      AncientSpends(w, l.settled, t, p);
      AncientSpends(w, l.settled + l.recent, t, p);
      IdsSplit(l.settled, l.recent);
    }
  }

  lemma {:induction false} AncientSpends(w: World, txs: seq<Accepted>, t: TxId, p: Outpoint)
    requires w.WellFormed() && Valid(w, txs) && t in w.ancient && p in w.body(t).inputs
    ensures p !in Replay(w, txs) && p.tx !in Ids(txs)
  {
    if txs != [] {
      var before, e := txs[..|txs| - 1], txs[|txs| - 1];
      AncientSpends(w, before, t, p);
      assert txs == before + [e];
      IdsSplit(before, [e]);
      assert Ids([e]) == {e.tx};
    }
  }

  /** What the pruning sees as spent is neither unspent nor an output of the recent chain. */
  lemma PrunedSpends(w: World, l: Ledger, chunks: seq<set<TxId>>, p: Outpoint)
    requires Inv(w, l) && Union(chunks) !! Ids(l.recent) && p in Seen(l.store, chunks)
    ensures p !in Replay(w, l.settled) && p.tx !in Ids(l.recent)
  {
    var i := SeenSpender(l.store, chunks, p);
    SettledSpends(w, l, i.tx, p);
  }

  lemma PruneKeeps(w: World, l: Ledger, l': Ledger, chunks: seq<set<TxId>>)
    requires Inv(w, l) && Prune(w, l, l', chunks)
    ensures Inv(w, l')
    ensures forall e :: e in l.recent && AllRowsOf(w, l.store, e.tx) ==> AllRowsOf(w, l'.store, e.tx)
    ensures forall e :: e in l.recent && e.tx in l.store.acceptances ==> e.tx in l'.store.acceptances
  {
    var u := Replay(w, l.settled);
    ClosedForm(l.store, chunks);
    PruningOnlyDeletes(l.store, chunks);
    forall o | o in u ensures o in l'.store.outputs && o.tx in l'.store.acceptances {
      if o in Seen(l.store, chunks) {
        PrunedSpends(w, l, chunks, o);
      }
      UnspentStays(l.store, chunks, o);
    }
    forall e | e in l.recent && e.tx in l.store.acceptances ensures e.tx in l'.store.acceptances {
      RecentAcceptanceStays(w, l, chunks, e);
    }
    forall e | e in l.recent && AllRowsOf(w, l.store, e.tx) ensures AllRowsOf(w, l'.store, e.tx) {
      RecentRowsStay(w, l, chunks, e);
    }
  }

  lemma UnspentStays(s: Store, chunks: seq<set<TxId>>, o: Outpoint)
    requires Disjoint(chunks) && o in s.outputs && o.tx in s.acceptances && o !in Seen(s, chunks)
    ensures o in PruneChunks(s, chunks).outputs && o.tx in PruneChunks(s, chunks).acceptances
  {
    ClosedForm(s, chunks);
    StrippedHasNoOutputs(s, Seen(s, chunks), o);
    KeptAcceptances(s, Union(chunks), Seen(s, chunks));
  }

  lemma RecentAcceptanceStays(w: World, l: Ledger, chunks: seq<set<TxId>>, e: Accepted)
    requires Inv(w, l) && Disjoint(chunks) && Union(chunks) !! Ids(l.recent) && e in l.recent && e.tx in l.store.acceptances
    ensures e.tx in PruneChunks(l.store, chunks).acceptances
  {
    ClosedForm(l.store, chunks);
    forall p | p in Seen(l.store, chunks) ensures p.tx != e.tx {
      PrunedSpends(w, l, chunks, p);
    }
  }

  lemma RecentRowsStay(w: World, l: Ledger, chunks: seq<set<TxId>>, e: Accepted)
    requires Inv(w, l) && Disjoint(chunks) && Union(chunks) !! Ids(l.recent) && e in l.recent && AllRowsOf(w, l.store, e.tx)
    ensures AllRowsOf(w, PruneChunks(l.store, chunks), e.tx)
  {
    ClosedForm(l.store, chunks);
    assert e.tx !in Union(chunks);
    forall p | p in Seen(l.store, chunks) ensures p.tx != e.tx {
      PrunedSpends(w, l, chunks, p);
    }
  }

  // ---- The save ----

  ghost predicate SpendsOnce(w: World, now: seq<Accepted>) {
    forall e, f, k, j :: e in now && f in now && 0 <= k < |w.body(e.tx).inputs| && 0 <= j < |w.body(f.tx).inputs| ==>
      w.body(e.tx).inputs[k] == w.body(f.tx).inputs[j] ==> e.tx == f.tx && k == j
  }

  /** What the window sums of a save read: its transactions, all their rows, and the outputs unspent before it. */
  ghost predicate Settles(w: World, s: Store, blocks: map<Hash, Block>, from: int, to: int, u: map<Outpoint, Output>, now: seq<Accepted>) {
    && (forall t :: InWindow(s, blocks, t, from, to) <==> t in Ids(now))
    && (forall i :: i in s.inputs ==> GenuineInput(w, i, s.inputs[i]))
    && (forall o :: o in s.outputs ==> w.Genuine(o, s.outputs[o]))
    && (forall e :: e in now ==> AllRowsOf(w, s, e.tx))
    && (forall o :: o in u ==> o in s.outputs && s.outputs[o] == u[o])
    && AllInputs(w, now) <= (u + AllOutputs(w, now)).Keys
    && SpendsOnce(w, now)
  }

  lemma CreatedIsStored(w: World, s: Store, blocks: map<Hash, Block>, from: int, to: int, u: map<Outpoint, Output>, now: seq<Accepted>, o: Outpoint)
    requires Settles(w, s, blocks, from, to, u, now) && o in AllOutputs(w, now)
    ensures o in s.outputs && s.outputs[o] == AllOutputs(w, now)[o] && InWindow(s, blocks, o.tx, from, to)
  {
    AllOutputsAre(w, now);
    var e :| e in now && e.tx == o.tx;
    assert o == Outpoint(e.tx, o.index);
  }

  lemma StoredIsCreated(w: World, s: Store, blocks: map<Hash, Block>, from: int, to: int, u: map<Outpoint, Output>, now: seq<Accepted>, o: Outpoint)
    requires Settles(w, s, blocks, from, to, u, now) && o in s.outputs && InWindow(s, blocks, o.tx, from, to)
    ensures o in AllOutputs(w, now) && s.outputs[o] == AllOutputs(w, now)[o]
  {
    AllOutputsAre(w, now);
    assert w.Genuine(o, s.outputs[o]);
  }

  lemma CreatedRowIsPaid(w: World, s: Store, blocks: map<Hash, Block>, from: int, to: int, u: map<Outpoint, Output>, now: seq<Accepted>, a: Address, o: Outpoint)
    requires Settles(w, s, blocks, from, to, u, now) && o in CreatedRows(s, blocks, from, to, a)
    ensures o in PaidTo(AllOutputs(w, now), a) && PaidTo(AllOutputs(w, now), a)[o] == CreatedRows(s, blocks, from, to, a)[o]
  {
    StoredIsCreated(w, s, blocks, from, to, u, now, o);
  }

  lemma PaidIsCreatedRow(w: World, s: Store, blocks: map<Hash, Block>, from: int, to: int, u: map<Outpoint, Output>, now: seq<Accepted>, a: Address, o: Outpoint)
    requires Settles(w, s, blocks, from, to, u, now) && o in PaidTo(AllOutputs(w, now), a)
    ensures o in CreatedRows(s, blocks, from, to, a)
  {
    CreatedIsStored(w, s, blocks, from, to, u, now, o);
  }

  lemma SameMaps<K, V>(m: map<K, V>, n: map<K, V>)
    requires forall k :: k in m ==> k in n && n[k] == m[k]
    requires forall k :: k in n ==> k in m
    ensures m == n
  {
  }

  lemma CreatedIsAllOutputs(w: World, s: Store, blocks: map<Hash, Block>, from: int, to: int, u: map<Outpoint, Output>, now: seq<Accepted>, a: Address)
    requires Settles(w, s, blocks, from, to, u, now)
    ensures Created(s, blocks, from, to, a) == UtxoSum(AllOutputs(w, now), a)
  {
    var rows, paid := CreatedRows(s, blocks, from, to, a), PaidTo(AllOutputs(w, now), a);
    forall o | o in rows ensures o in paid && paid[o] == rows[o] {
      CreatedRowIsPaid(w, s, blocks, from, to, u, now, a, o);
    }
    forall o | o in paid ensures o in rows {
      PaidIsCreatedRow(w, s, blocks, from, to, u, now, a, o);
    }
    SameMaps(rows, paid);
  }

  function PreviousOf<V>(s: Store, rows: map<InputId, V>): map<InputId, Outpoint>
    requires rows.Keys <= s.inputs.Keys
  {
    map i | i in rows :: s.inputs[i].previous
  }

  /** What the unspent outputs and the outputs of the window held at the outpoints that the window spends. */
  ghost function SpentNow(w: World, u: map<Outpoint, Output>, now: seq<Accepted>): map<Outpoint, Output> {
    Only(u + AllOutputs(w, now), AllInputs(w, now))
  }

  lemma SpentNowIsStored(w: World, s: Store, blocks: map<Hash, Block>, from: int, to: int, u: map<Outpoint, Output>, now: seq<Accepted>, p: Outpoint)
    requires Settles(w, s, blocks, from, to, u, now)
    ensures p in SpentNow(w, u, now) <==> exists e :: e in now && p in w.body(e.tx).inputs
    ensures p in SpentNow(w, u, now) ==> p in s.outputs && s.outputs[p] == SpentNow(w, u, now)[p]
  {
    AllInputsAre(w, now);
    if p in AllOutputs(w, now) {
      CreatedIsStored(w, s, blocks, from, to, u, now, p);
    }
  }

  lemma SpentRowsGoInto(w: World, s: Store, blocks: map<Hash, Block>, from: int, to: int, u: map<Outpoint, Output>, now: seq<Accepted>, a: Address, i: InputId)
    requires Settles(w, s, blocks, from, to, u, now) && i in SpentRows(s, blocks, from, to, a)
    ensures i.tx in Ids(now) && s.inputs[i].previous in PaidTo(SpentNow(w, u, now), a)
    ensures PaidTo(SpentNow(w, u, now), a)[s.inputs[i].previous] == SpentRows(s, blocks, from, to, a)[i]
  {
    var e :| e in now && e.tx == i.tx;
    assert GenuineInput(w, i, s.inputs[i]);
    assert s.inputs[i].previous in w.body(e.tx).inputs;
    SpentNowIsStored(w, s, blocks, from, to, u, now, s.inputs[i].previous);
  }

  lemma SpentRowsCover(w: World, s: Store, blocks: map<Hash, Block>, from: int, to: int, u: map<Outpoint, Output>, now: seq<Accepted>, a: Address, p: Outpoint)
    returns (i: InputId)
    requires Settles(w, s, blocks, from, to, u, now) && p in PaidTo(SpentNow(w, u, now), a)
    ensures i in SpentRows(s, blocks, from, to, a) && s.inputs[i].previous == p
  {
    SpentNowIsStored(w, s, blocks, from, to, u, now, p);
    var e :| e in now && p in w.body(e.tx).inputs;
    var k :| 0 <= k < |w.body(e.tx).inputs| && w.body(e.tx).inputs[k] == p;
    i := InputId(e.tx, k);
    assert i in s.inputs && GenuineInput(w, i, s.inputs[i]);
  }

  lemma SpentRowsDiffer(w: World, s: Store, blocks: map<Hash, Block>, from: int, to: int, u: map<Outpoint, Output>, now: seq<Accepted>, a: Address, i: InputId, j: InputId)
    requires Settles(w, s, blocks, from, to, u, now) && i in SpentRows(s, blocks, from, to, a) && j in SpentRows(s, blocks, from, to, a)
    requires s.inputs[i].previous == s.inputs[j].previous
    ensures i == j
  {
    assert GenuineInput(w, i, s.inputs[i]) && GenuineInput(w, j, s.inputs[j]);
    var e :| e in now && e.tx == i.tx;
    var f :| f in now && f.tx == j.tx;
    assert w.body(e.tx).inputs[i.index] == w.body(f.tx).inputs[j.index];
  }

  lemma SpentRowsAreApart(w: World, s: Store, blocks: map<Hash, Block>, from: int, to: int, u: map<Outpoint, Output>, now: seq<Accepted>, a: Address)
    requires Settles(w, s, blocks, from, to, u, now)
    ensures Injective(PreviousOf(s, SpentRows(s, blocks, from, to, a)))
  {
    var rows := SpentRows(s, blocks, from, to, a);
    forall i, j | i in rows && j in rows && s.inputs[i].previous == s.inputs[j].previous ensures i == j {
      SpentRowsDiffer(w, s, blocks, from, to, u, now, a, i, j);
    }
  }

  lemma SpentRowsAreAll(w: World, s: Store, blocks: map<Hash, Block>, from: int, to: int, u: map<Outpoint, Output>, now: seq<Accepted>, a: Address)
    requires Settles(w, s, blocks, from, to, u, now)
    ensures Onto(PreviousOf(s, SpentRows(s, blocks, from, to, a)), PaidTo(SpentNow(w, u, now), a))
  {
    var rows, paid := SpentRows(s, blocks, from, to, a), PaidTo(SpentNow(w, u, now), a);
    forall p | p in paid ensures exists i :: i in PreviousOf(s, rows) && PreviousOf(s, rows)[i] == p {
      var i := SpentRowsCover(w, s, blocks, from, to, u, now, a, p);
      assert i in PreviousOf(s, rows) && PreviousOf(s, rows)[i] == p;
    }
  }

  lemma SpentIsSpentNow(w: World, s: Store, blocks: map<Hash, Block>, from: int, to: int, u: map<Outpoint, Output>, now: seq<Accepted>, a: Address)
    requires Settles(w, s, blocks, from, to, u, now)
    ensures Spent(s, blocks, from, to, a) == UtxoSum(SpentNow(w, u, now), a)
  {
    var rows, paid := SpentRows(s, blocks, from, to, a), PaidTo(SpentNow(w, u, now), a);
    SpentRowsAreApart(w, s, blocks, from, to, u, now, a);
    SpentRowsAreAll(w, s, blocks, from, to, u, now, a);
    forall i | i in rows ensures s.inputs[i].previous in paid && paid[s.inputs[i].previous] == rows[i] {
      SpentRowsGoInto(w, s, blocks, from, to, u, now, a, i);
    }
    RenamedSums(rows, paid, PreviousOf(s, rows));
  }

  lemma ValidUpTo(w: World, l: Ledger, to: int, now: seq<Accepted>, later: seq<Accepted>)
    requires Inv(w, l) && Ready(w, l, to, now, later)
    ensures Valid(w, l.settled + now) && l.settled + l.recent == (l.settled + now) + later
  {
    ValidPrefix(w, l.settled, now, later);
  }

  lemma ValidPrefix(w: World, a: seq<Accepted>, b: seq<Accepted>, c: seq<Accepted>)
    requires Valid(w, a + (b + c))
    ensures Valid(w, a + b) && a + (b + c) == (a + b) + c
  {
    assert a + (b + c) == (a + b) + c;
    ValidParts(w, a + b, c);
  }

  lemma WindowIsNow(w: World, l: Ledger, to: int, now: seq<Accepted>, later: seq<Accepted>, t: TxId)
    requires Inv(w, l) && Ready(w, l, to, now, later)
    ensures InWindow(l.store, l.blocks, t, l.saved, to) <==> t in Ids(now)
  {
    IdsSplit(now, later);
    assert forall e :: e in l.recent <==> e in now || e in later;
    if t in Ids(now) {
      var e :| e in now && e.tx == t;
    } else if t in l.store.acceptances && t in Ids(later) {
      var e :| e in later && e.tx == t;
    }
  }

  lemma PartSpendsOnce(w: World, settled: seq<Accepted>, now: seq<Accepted>)
    requires w.WellFormed() && Valid(w, settled + now)
    ensures SpendsOnce(w, now)
  {
    InputsAreUnique(w, settled + now);
    assert forall e :: e in now ==> e in settled + now;
  }

  lemma SaveSettles(w: World, l: Ledger, to: int, now: seq<Accepted>, later: seq<Accepted>)
    requires Inv(w, l) && Ready(w, l, to, now, later)
    ensures Settles(w, l.store, l.blocks, l.saved, to, Replay(w, l.settled), now)
  {
    ValidUpTo(w, l, to, now, later);
    ReplayMore(w, l.settled, now);
    PartSpendsOnce(w, l.settled, now);
    forall t ensures InWindow(l.store, l.blocks, t, l.saved, to) <==> t in Ids(now) {
      WindowIsNow(w, l, to, now, later, t);
    }
  }

  lemma ReplayNow(w: World, settled: seq<Accepted>, now: seq<Accepted>, a: Address)
    requires w.WellFormed() && Valid(w, settled + now)
    ensures UtxoSum(Replay(w, settled + now), a)
         == UtxoSum(Replay(w, settled), a) + UtxoSum(AllOutputs(w, now), a) - UtxoSum(SpentNow(w, Replay(w, settled), now), a)
  {
    ReplayMovesBalance(w, settled, now, a);
  }

  /** The window's net amount is the change from replaying its transactions. */
  lemma NetIsReplayed(w: World, s: Store, blocks: map<Hash, Block>, from: int, to: int, settled: seq<Accepted>, now: seq<Accepted>, a: Address)
    requires w.WellFormed() && Valid(w, settled + now) && Settles(w, s, blocks, from, to, Replay(w, settled), now)
    ensures UtxoSum(Replay(w, settled + now), a) == UtxoSum(Replay(w, settled), a) + Net(s, blocks, from, to, a)
  {
    CreatedIsAllOutputs(w, s, blocks, from, to, Replay(w, settled), now, a);
    SpentIsSpentNow(w, s, blocks, from, to, Replay(w, settled), now, a);
    ReplayNow(w, settled, now, a);
  }

  /** What the balances become if the window's net amounts are added to them is the replay up to the score. */
  lemma NetLeadsToReplay(w: World, l: Ledger, to: int, now: seq<Accepted>, later: seq<Accepted>, a: Address)
    requires Inv(w, l) && Ready(w, l, to, now, later)
    ensures BalanceOf(l.balances, a) + Net(l.store, l.blocks, l.saved, to, a) == UtxoSum(Replay(w, l.settled + now), a)
  {
    ValidUpTo(w, l, to, now, later);
    SaveSettles(w, l, to, now, later);
    NetIsReplayed(w, l.store, l.blocks, l.saved, to, l.settled, now, a);
  }

  lemma SavedUnspent(w: World, l: Ledger, l': Ledger, now: seq<Accepted>)
    requires Inv(w, l) && Save(w, l, l', now)
    ensures UnspentStored(l.store, Replay(w, l.settled + now))
  {
    ValidUpTo(w, l, l'.saved, now, l'.recent);
    SaveSettles(w, l, l'.saved, now, l'.recent);
    ReplayMore(w, l.settled, now);
    forall o | o in Replay(w, l.settled + now)
      ensures o in l.store.outputs && l.store.outputs[o] == Replay(w, l.settled + now)[o] && o.tx in l.store.acceptances
    {
      if o in AllOutputs(w, now) {
        CreatedIsStored(w, l.store, l.blocks, l.saved, l'.saved, Replay(w, l.settled), now, o);
      }
    }
  }

  lemma SaveKeeps(w: World, l: Ledger, l': Ledger, now: seq<Accepted>)
    requires Inv(w, l) && Save(w, l, l', now)
    ensures Inv(w, l')
  {
    ValidUpTo(w, l, l'.saved, now, l'.recent);
    SavedUnspent(w, l, l', now);
    SavedIndex(w, l, l', now);
    forall a ensures BalanceOf(l'.balances, a) == UtxoSum(Replay(w, l'.settled), a) {
      NetLeadsToReplay(w, l, l'.saved, now, l'.recent, a);
    }
  }

  lemma SavedIndex(w: World, l: Ledger, l': Ledger, now: seq<Accepted>)
    requires Inv(w, l) && Save(w, l, l', now)
    ensures IndexedAbove(w, l'.store, l'.saved, l'.settled, l'.recent)
  {
    IdsSplit(now, l'.recent);
    IdsSplit(l.settled, now);
    forall t | t in l.store.acceptances && t !in Ids(l'.recent)
      ensures (t in Ids(l'.settled) || t in w.ancient)
           && (l.store.acceptances[t].Some? ==> w.blue(l.store.acceptances[t].value) <= l'.saved)
    {
      if t in Ids(now) {
        var e :| e in now && e.tx == t;
        assert e in l.recent;
      }
    }
  }

  // ---- Whole runs ----

  /** Every step keeps the invariant, and no step takes away a row that a later save will need. */
  lemma StepKeeps(w: World, l: Ledger, l': Ledger)
    requires Inv(w, l) && Next(w, l, l')
    ensures Inv(w, l')
    ensures forall e :: e in l.recent && AllRowsOf(w, l.store, e.tx) ==> AllRowsOf(w, l'.store, e.tx)
  {
    if txs :| Commit(w, l, l', txs) {
      CommitKeeps(w, l, l', txs);
    } else if ChangeBlocks(w, l, l') {
    } else if ChainStep(w, l, l') {
      ChainStepKeeps(w, l, l');
    } else if chunks :| Prune(w, l, l', chunks) {
      PruneKeeps(w, l, l', chunks);
    } else {
      var now :| Save(w, l, l', now);
      SaveKeeps(w, l, l', now);
    }
  }

  ghost predicate Run(w: World, run: seq<Ledger>) {
    run != [] && Init(w, run[0]) && forall n :: 0 < n < |run| ==> Next(w, run[n - 1], run[n])
  }

  lemma {:induction false} RunKeeps(w: World, run: seq<Ledger>, n: nat)
    requires Run(w, run) && n < |run|
    ensures Inv(w, run[n])
  {
    if n == 0 {
      InitHolds(w, run[0]);
    } else {
      RunKeeps(w, run, n - 1);
      StepKeeps(w, run[n - 1], run[n]);
    }
  }

  lemma InvIsReplay(w: World, l: Ledger, a: Address)
    requires Inv(w, l) && forall t, o :: o in w.body(t).outputs ==> 0 <= Amount(o)
    ensures BalanceOf(l.balances, a) == UtxoSum(Replay(w, l.settled), a)
    ensures 0 <= BalanceOf(l.balances, a)
  {
    OwnersAreKnown(w, l.settled);
    UtxoSumIsNonNegative(Replay(w, l.settled), a);
  }

  /** In every state of every run, each balance is the sum of the address's outputs in the replayed UTXO set, and not negative. */
  lemma BalanceIsReplay(w: World, run: seq<Ledger>, n: nat, a: Address)
    requires Run(w, run) && n < |run|
    requires forall t, o :: o in w.body(t).outputs ==> 0 <= Amount(o)
    ensures BalanceOf(run[n].balances, a) == UtxoSum(Replay(w, run[n].settled), a)
    ensures 0 <= BalanceOf(run[n].balances, a)
  {
    RunKeeps(w, run, n);
    InvIsReplay(w, run[n], a);
  }
}
