/**
 * The pruning loop, a committed batch, a poll of the chain processor and a checkpoint's balance update are steps of the
 * ledger, so that its theorem on whole runs holds of the tables that they write.
 */
module LedgerSteps {
  import opened Database
  import opened Balances
  import opened BalanceUpdater
  import opened Pruning
  import opened PruningTheorems
  import opened Windows
  import opened Chain
  import opened Ledger
  import Acceptances
  import Checkpoint
  import Contents
  import VirtualChain

  ghost predicate Shows(db: Db, l: Ledger)
    reads db
  {
    db.Tables() == l.store && db.blocks == l.blocks && db.balances == l.balances
  }

  lemma PrunedIsStep(w: World, l: Ledger, l': Ledger, cutoff: int, batchSize: nat, chunks: seq<set<TxId>>)
    requires Inv(w, l) && ExpiredIn(l.store.transactions, cutoff) !! Ids(l.recent)
    requires l' == l.(store := l'.store) && Pruned(l.store, cutoff, batchSize, chunks, l'.store)
    ensures Prune(w, l, l', chunks) && Inv(w, l')
  {
    PruneKeeps(w, l, l', chunks);
  }

  /** Pruning is a step of the ledger, whatever the chunks and even if one fails, if no transaction of the recent chain has expired. */
  method PruneSettled(db: Db, cutoff: int, batchSize: nat, failure: Option<nat>, ghost w: World, ghost l: Ledger)
    returns (ok: bool, rows: nat, ghost l': Ledger, ghost chunks: seq<set<TxId>>)
    requires Shows(db, l) && Inv(w, l)
    requires ExpiredIn(l.store.transactions, cutoff) !! Ids(l.recent)
    modifies db`transactions, db`inputs, db`outputs, db`acceptances
    ensures db.Tables() == l'.store && db.blocks == l'.blocks && db.balances == l'.balances
    ensures Prune(w, l, l', chunks) && Inv(w, l')
  {
    ghost var s;
    ok, rows, s, chunks := PruneFrom(db, cutoff, batchSize, failure, l.store);
    l' := l.(store := s);
    PrunedIsStep(w, l, l', cutoff, batchSize, chunks);
  }

  /** A successful balance update between two stored checkpoint blocks moves every balance to the replay up to the new one. */
  method SaveUpTo(db: Db, from: Hash, to: Hash, ghost w: World, ghost l: Ledger, ghost now: seq<Accepted>, ghost later: seq<Accepted>)
    returns (result: UpdateResult, ghost l': Ledger)
    requires Shows(db, l) && Inv(w, l) && l.recent == now + later
    requires ScoresKnown(db.blocks, from, to)
    requires w.blue(from) == l.saved && l.saved <= w.blue(to)
    requires forall e :: e in now ==> w.blue(e.block) <= w.blue(to) && e.block in l.blocks
    requires forall e :: e in now ==> AllRowsOf(w, l.store, e.tx) && e.tx in l.store.acceptances
    requires forall e :: e in later ==> w.blue(to) < w.blue(e.block)
    modifies db`balances
    ensures result.Updated? ==> db.Tables() == l'.store && db.blocks == l'.blocks && db.balances == l'.balances
    ensures result.Updated? ==> Save(w, l, l', now) && Inv(w, l')
    ensures result.Updated? ==>
      forall a :: BalanceOf(db.balances, a) == UtxoSum(Replay(w, l.settled + now), a)
  {
    result := UpdateBalancesFromUtxoChanges(db, from, to);
    l' := l.(balances := db.balances, saved := w.blue(to), settled := l.settled + now, recent := later);
    if result.Updated? {
      SaveKeeps(w, l, l', now);
    }
  }

  // ---- A committed batch ----

  lemma GenuineContent(w: World, s: Store, blocks: map<Hash, Block>, c: Contents.Content)
    requires Contents.Genuine(w.body, c) && c.inputs == s.inputs && c.outputs == s.outputs
    requires forall b :: b in blocks ==> blocks[b].blueScore == w.blue(b)
    ensures GenuineRows(w, s, blocks)
  {
    forall i | i in s.inputs ensures GenuineInput(w, i, s.inputs[i]) {
      assert Contents.IsInput(w.body, i);
    }
    forall o | o in s.outputs ensures w.Genuine(o, s.outputs[o]) {
      assert Contents.IsOutput(w.body, o);
    }
  }

  lemma ContentIsGenuine(w: World, s: Store, blocks: map<Hash, Block>, c: Contents.Content)
    requires GenuineRows(w, s, blocks) && c.inputs == s.inputs && c.outputs == s.outputs
    ensures Contents.Genuine(w.body, c)
  {
    forall i | i in c.inputs ensures Contents.IsInput(w.body, i) && c.inputs[i].previous == w.body(i.tx).inputs[i.index] {
      assert GenuineInput(w, i, s.inputs[i]);
    }
    forall o | o in c.outputs ensures Contents.IsOutput(w.body, o) && c.outputs[o] == w.body(o.tx).outputs[o.index] {
      assert w.Genuine(o, s.outputs[o]);
    }
  }

  lemma BatchOnlyAdds(w: World, resolve: bool, c: Contents.Content, stored: set<TxId>, batch: set<(Hash, TxId)>, c': Contents.Content)
    requires Contents.BatchStored(w.body, resolve, c, stored, batch, c')
    ensures Submap(c.inputs, c'.inputs) && Submap(c.outputs, c'.outputs)
  {
  }

  lemma RowsAreStored(w: World, s: Store, t: TxId, c: Contents.Content)
    requires c.inputs == s.inputs && c.outputs == s.outputs && Contents.Complete(w.body, c, t)
    ensures AllRowsOf(w, s, t)
  {
    forall k | 0 <= k < |w.body(t).inputs| ensures InputId(t, k) in s.inputs {
      assert Contents.IsInput(w.body, InputId(t, k));
    }
    forall k | 0 <= k < |w.body(t).outputs| ensures Outpoint(t, k) in s.outputs {
      assert Contents.IsOutput(w.body, Outpoint(t, k));
    }
  }

  /** Storing a batch is a commit of the transactions that are stored completely. */
  lemma BatchIsCommit(w: World, resolve: bool, l: Ledger, l': Ledger, c: Contents.Content, stored: set<TxId>, batch: set<(Hash, TxId)>, c': Contents.Content)
    requires Inv(w, l) && l' == l.(store := l'.store) && l'.store.acceptances == l.store.acceptances
    requires c.inputs == l.store.inputs && c.outputs == l.store.outputs
    requires c'.inputs == l'.store.inputs && c'.outputs == l'.store.outputs
    requires Contents.BatchStored(w.body, resolve, c, stored, batch, c')
    ensures Commit(w, l, l', stored) && Inv(w, l')
  {
    ContentIsGenuine(w, l.store, l.blocks, c);
    Contents.BatchKeepsGenuine(w.body, resolve, c, stored, batch, c');
    GenuineContent(w, l'.store, l'.blocks, c');
    BatchOnlyAdds(w, resolve, c, stored, batch, c');
    forall t | t in stored ensures AllRowsOf(w, l'.store, t) {
      Contents.BatchCompletes(w.body, resolve, c, stored, batch, c', t);
      RowsAreStored(w, l'.store, t, c');
    }
    CommitKeeps(w, l, l', stored);
  }

  // ---- A poll, statement by statement ----

  function WithAcceptances(l: Ledger, acceptances: map<TxId, Option<Hash>>): Ledger {
    l.(store := l.store.(acceptances := acceptances))
  }

  /** Deleting the rows of some blocks above the saved score is a removal. */
  lemma RemovalIsStep(w: World, l: Ledger, blocks: set<Hash>)
    requires Inv(w, l) && forall b :: b in blocks ==> l.saved < w.blue(b)
    ensures var kept := Acceptances.WithoutBlocks(l.store.acceptances, blocks);
      Remove(w, l, WithAcceptances(l, kept), l.store.acceptances.Keys - kept.Keys) && Inv(w, WithAcceptances(l, kept))
  {
    var acceptances := l.store.acceptances;
    var kept := Acceptances.WithoutBlocks(acceptances, blocks);
    var gone := acceptances.Keys - kept.Keys;
    assert kept == acceptances - gone;
    RemoveKeeps(w, l, WithAcceptances(l, kept), gone);
  }

  /**
   * The node reorganises above the saved score: of the recent transactions it drops those of the removed blocks, and the
   * accepted ones continue the rest in a valid order.
   */
  ghost predicate Reorganises(w: World, l: Ledger, removed: set<Hash>, kept: seq<Accepted>, dropped: seq<Accepted>, added: seq<Accepted>) {
    && l.recent == kept + dropped
    && (forall e :: e in dropped ==> e.block in removed)
    && (forall b :: b in removed ==> l.saved < w.blue(b))
    && (forall e :: e in added ==> l.saved < w.blue(e.block))
    && Valid(w, l.settled + (kept + added))
  }

  /** The transactions that a reorganisation adds have no row once those of the removed blocks are gone. */
  lemma AddedAreNew(w: World, l: Ledger, removed: set<Hash>, kept: seq<Accepted>, dropped: seq<Accepted>, added: seq<Accepted>, e: Accepted)
    requires Inv(w, l) && Reorganises(w, l, removed, kept, dropped, added) && e in added
    requires forall t :: t in l.store.acceptances && l.store.acceptances[t].Some? ==> l.store.acceptances[t].value !in removed
    ensures e.tx !in l.store.acceptances
  {
    assert l.settled + (kept + added) == (l.settled + kept) + added;
    ValidParts(w, l.settled + kept, added);
    IdsSplit(l.settled, kept);
    IdsSplit(l.settled + kept, added);
    IdsSplit(kept, dropped);
    assert e.tx in Ids(added);
    assert forall f :: f in dropped ==> f in l.recent;
  }

  /** Once the rows of all removed blocks are gone, the node's chain is the recent one. */
  lemma ReorganisationIsStep(w: World, l: Ledger, removed: set<Hash>, kept: seq<Accepted>, dropped: seq<Accepted>, added: seq<Accepted>)
    requires Inv(w, l) && Reorganises(w, l, removed, kept, dropped, added)
    requires forall t :: t in l.store.acceptances && l.store.acceptances[t].Some? ==> l.store.acceptances[t].value !in removed
    ensures Reorganise(w, l, l.(recent := kept + added), kept, dropped, added) && Inv(w, l.(recent := kept + added))
  {
    forall e | e in added ensures e.tx !in l.store.acceptances {
      AddedAreNew(w, l, removed, kept, dropped, added, e);
    }
    assert forall e :: e in dropped ==> e in l.recent;
    ReorganiseKeeps(w, l, l.(recent := kept + added), kept, dropped, added);
  }

  /** Inserting some rows of accepted transactions of the recent chain is an acceptance. */
  lemma AcceptanceIsStep(w: World, l: Ledger, accepted: seq<Acceptances.AcceptedIds>, after: map<TxId, Option<Hash>>)
    requires Inv(w, l)
    requires forall t :: t in l.store.acceptances ==> t in after && after[t] == l.store.acceptances[t]
    requires forall t :: t in after && t !in l.store.acceptances ==>
      exists a :: a in accepted && t in a.txs && after[t] == Some(a.block)
    requires forall a, t :: a in accepted && t in a.txs ==> Accepted(t, a.block) in l.recent
    ensures Accept(w, l, WithAcceptances(l, after)) && Inv(w, WithAcceptances(l, after))
  {
    forall t | t in after && t !in l.store.acceptances ensures exists e :: e in l.recent && e.tx == t && after[t] == Some(e.block) {
      var a :| a in accepted && t in a.txs && after[t] == Some(a.block);
      assert Accepted(t, a.block) in l.recent;
    }
    AcceptKeeps(w, l, WithAcceptances(l, after));
  }

  /** A processed poll that reorganises above the saved score takes the ledger through these three steps. */
  lemma PollIsSteps(w: World, l: Ledger, c: VirtualChain.Config, v: VirtualChain.View, reply: VirtualChain.Reply, v': VirtualChain.View,
                    kept: seq<Accepted>, dropped: seq<Accepted>, added: seq<Accepted>)
    returns (l1: Ledger, l2: Ledger, l3: Ledger)
    requires Inv(w, l) && c.acceptance && |reply.accepted| == |reply.added| > v.tip.distance
    requires VirtualChain.Polled(c, v, reply, v') && v.acceptances == l.store.acceptances
    requires Reorganises(w, l, Acceptances.HashSet(reply.removed), kept, dropped, added)
    requires forall a, t :: a in reply.accepted[..|reply.added| - v.tip.distance] && t in a.txs ==> Accepted(t, a.block) in added
    ensures ChainStep(w, l, l1) && ChainStep(w, l1, l2) && ChainStep(w, l2, l3) && Inv(w, l3)
    ensures l3 == WithAcceptances(l, v'.acceptances).(recent := kept + added)
  {
    var removed, accepted := Acceptances.HashSet(reply.removed), reply.accepted[..|reply.added| - v.tip.distance];
    var cleared := Acceptances.WithoutBlocks(l.store.acceptances, removed);
    l1 := WithAcceptances(l, cleared);
    l2 := l1.(recent := kept + added);
    l3 := WithAcceptances(l2, v'.acceptances);
    RemovalIsStep(w, l, removed);
    ReorganisationIsStep(w, l1, removed, kept, dropped, added);
    AcceptanceIsStep(w, l2, accepted, v'.acceptances);
  }

  // ---- A checkpoint ----

  /** The balance update of a saved checkpoint is a save of the ledger, once all rows up to its score are stored. */
  lemma CheckpointIsSave(w: World, l: Ledger, l': Ledger, from: Hash, to: Hash, now: seq<Accepted>)
    requires Inv(w, l) && ScoresKnown(l.blocks, from, to) && w.blue(from) == l.saved && l.saved <= w.blue(to)
    requires Checkpoint.Moved(l.store, l.blocks, from, to, l.balances, l'.balances)
    requires l' == l.(balances := l'.balances, saved := w.blue(to), settled := l.settled + now, recent := l'.recent)
    requires l.recent == now + l'.recent
    requires forall e :: e in now ==> w.blue(e.block) <= w.blue(to) && e.block in l.blocks
    requires forall e :: e in now ==> AllRowsOf(w, l.store, e.tx) && e.tx in l.store.acceptances
    requires forall e :: e in l'.recent ==> w.blue(to) < w.blue(e.block)
    ensures Save(w, l, l', now) && Inv(w, l')
  {
    SaveKeeps(w, l, l', now);
  }
}
