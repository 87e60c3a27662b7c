/**
 * The restart protocol: stale acceptances are cleared before the chain processor starts, so that a run that was
 * interrupted ends with the table of one that was not.
 */
module Restart {
  import opened Database
  import opened Acceptances
  import opened BlockProcessor
  import VirtualChain
  import opened ChainIndex

  // ---- The start gate ----

  ghost predicate NoRowNames(acceptances: map<TxId, Option<Hash>>, chainBlocks: multiset<Hash>, b: Hash) {
    b !in chainBlocks && forall t :: t in acceptances ==> acceptances[t] != Some(b)
  }

  /** No row names a block committed since start-up, except the first of all. */
  ghost predicate Clean(s: Startup) {
    forall i :: 0 < i < |s.committed| ==> NoRowNames(s.acceptances, s.chainBlocks, s.committed[i])
  }

  /** A batch, or rows that pruning deletes meanwhile. */
  datatype Event = Batch(blocks: seq<Hash>, synced: bool) | Prune(gone: set<TxId>)

  ghost predicate Step(o: Options, s: Startup, e: Event, s': Startup) {
    match e
    case Batch(blocks, synced) => Commits(o, s, blocks, synced, s')
    case Prune(gone) => s' == s.(acceptances := s.acceptances - gone)
  }

  /** The states from start-up until the chain processor is started. */
  ghost predicate Starts(o: Options, states: seq<Startup>, events: seq<Event>) {
    && |states| == |events| + 1
    && states[0].committed == [] && states[0].noops == 0 && !states[0].started
    && forall n :: 0 <= n < |events| ==> Step(o, states[n], events[n], states[n + 1])
  }

  lemma CommitKeepsClean(o: Options, s: Startup, blocks: seq<Hash>, synced: bool, s': Startup)
    requires Clean(s) && Commits(o, s, blocks, synced, s')
    ensures Clean(s')
  {
  }

  /** When the chain processor starts, and at any time before, no row names a committed block other than the first. */
  lemma {:induction false} StartIsClean(o: Options, states: seq<Startup>, events: seq<Event>, n: nat)
    requires Starts(o, states, events) && n < |states|
    ensures Clean(states[n])
  {
    if n > 0 {
      StartIsClean(o, states, events, n - 1);
      var s, s' := states[n - 1], states[n];
      assert Step(o, s, events[n - 1], s');
      if events[n - 1].Batch? {
        CommitKeepsClean(o, s, events[n - 1].blocks, events[n - 1].synced, s');
      } else {
        assert forall i :: 0 < i < |s.committed| ==> NoRowNames(s.acceptances, s.chainBlocks, s.committed[i]);
      }
    }
  }

  /** No row names a block of the batch, leaving out the first block of all. */
  ghost predicate NothingNamed(s: Startup, blocks: seq<Hash>) {
    forall i :: 0 <= i < |blocks| && !(i == 0 && s.committed == []) ==> NoRowNames(s.acceptances, s.chainBlocks, blocks[i])
  }

  /** How many of the last batches in a row came in sync, or without waiting for it, and had no row to clear. */
  ghost function QuietSince(o: Options, states: seq<Startup>, events: seq<Event>, n: nat): nat
    requires |states| == |events| + 1 && n <= |events|
  {
    if n == 0 then 0
    else if events[n - 1].Prune? then QuietSince(o, states, events, n - 1)
    else if (o.skipSyncWait || events[n - 1].synced) && NothingNamed(states[n - 1], events[n - 1].blocks)
    then QuietSince(o, states, events, n - 1) + 1
    else 0
  }

  /** The count of one batch, by the rows before it. */
  lemma BatchLaw(o: Options, s: Startup, blocks: seq<Hash>, synced: bool, s': Startup)
    requires Commits(o, s, blocks, synced, s')
    ensures s'.noops ==
      if (o.skipSyncWait || synced) && forall i :: 0 <= i < |blocks| && !(i == 0 && s.committed == []) ==>
           blocks[i] !in s.chainBlocks && forall t :: t in s.acceptances ==> s.acceptances[t] != Some(blocks[i])
      then s.noops + 1 else 0
    ensures s'.started <==> s'.noops >= 10
    ensures s'.committed == s.committed + blocks
  {
    var clear := ToClear(s, blocks);
    HitCounts(s.acceptances, s.chainBlocks, HashSet(clear), s'.acceptances, s'.chainBlocks);
    assert Hit(s.acceptances, s.chainBlocks, HashSet(clear)) <==>
      exists i :: 0 <= i < |clear| &&
        (clear[i] in s.chainBlocks || exists t :: t in s.acceptances && s.acceptances[t] == Some(clear[i]));
    forall i | 0 <= i < |blocks| && !(i == 0 && s.committed == [])
      ensures exists j :: 0 <= j < |clear| && clear[j] == blocks[i]
    {
      assert clear[if s.committed == [] then i - 1 else i] == blocks[i];
    }
  }

  /** The chain processor is started by the tenth quiet batch in a row, and not before. */
  lemma {:induction false} StartsAfterTenQuietBatches(o: Options, states: seq<Startup>, events: seq<Event>, n: nat)
    requires Starts(o, states, events) && n <= |events|
    ensures states[n].noops == QuietSince(o, states, events, n)
    ensures states[n].started <==> QuietSince(o, states, events, n) >= 10
    decreases n
  {
    if n > 0 {
      StartsAfterTenQuietBatches(o, states, events, n - 1);
      assert Step(o, states[n - 1], events[n - 1], states[n]);
      if events[n - 1].Batch? {
        BatchLaw(o, states[n - 1], events[n - 1].blocks, events[n - 1].synced, states[n]);
      }
    }
  }

  // ---- What an interrupted run leaves ----

  /**
   * The rows of prefix and of the import are complete and right, but for pruned ones; any other row names one of the pending
   * blocks.
   */
  ghost predicate Leftover(acceptances: map<TxId, Option<Hash>>, prefix: seq<Hash>, accepts: Hash -> seq<TxId>,
                           imports: set<TxId>, pruned: set<TxId>, pending: set<Hash>) {
    && (forall t :: t in pruned ==> t !in acceptances)
    && (forall b, t :: b in prefix && t in accepts(b) && t !in pruned ==> t in acceptances && acceptances[t] == Some(b))
    && (forall t :: t in acceptances && acceptances[t].Some? ==>
          (acceptances[t].value in prefix && t in accepts(acceptances[t].value)) || acceptances[t].value in pending)
    && (forall t :: (t in acceptances && acceptances[t] == None) <==> t in imports && t !in pruned)
  }

  /** A row names a block that is neither cleared nor of the prefix. */
  ghost predicate StaleRow(acceptances: map<TxId, Option<Hash>>, prefix: seq<Hash>, cleared: set<Hash>, t: TxId) {
    t in acceptances && acceptances[t].Some? && acceptances[t].value !in prefix && acceptances[t].value !in cleared
  }

  lemma IndexedIsLeftover(acceptances: map<TxId, Option<Hash>>, prefix: seq<Hash>, rest: seq<Hash>, accepts: Hash -> seq<TxId>,
                          imports: set<TxId>, pruned: set<TxId>)
    requires Indexed(acceptances, prefix + rest, accepts, imports, pruned)
    ensures Leftover(acceptances, prefix, accepts, imports, pruned, HashSet(rest))
  {
  }

  /** Some chunks of the removed blocks are cleared and some of the accepted rows are inserted. */
  ghost predicate CutOff(acceptances: map<TxId, Option<Hash>>, removed: set<Hash>, accepted: seq<AcceptedIds>, midway: map<TxId, Option<Hash>>) {
    && (forall t :: t in WithoutBlocks(acceptances, removed) ==> t in midway && midway[t] == acceptances[t])
    && (forall t :: t in midway && !(t in acceptances && midway[t] == acceptances[t]) ==>
          exists a :: a in accepted && t in a.txs && midway[t] == Some(a.block))
  }

  /** Wherever a poll that forks above the prefix is cut off, what it leaves names blocks of the old and the new chain. */
  lemma CutOffPoll(acceptances: map<TxId, Option<Hash>>, prefix: seq<Hash>, rest: seq<Hash>, accepts: Hash -> seq<TxId>,
                   imports: set<TxId>, pruned: set<TxId>, removed: set<Hash>, accepted: seq<AcceptedIds>, added: seq<Hash>,
                   midway: map<TxId, Option<Hash>>)
    requires Indexed(acceptances, prefix + rest, accepts, imports, pruned) && CutOff(acceptances, removed, accepted, midway)
    requires forall b :: b in prefix ==> b !in removed
    requires forall a :: a in accepted ==> a.block in added
    requires forall a, t :: a in accepted && t in a.txs ==> t !in imports && t !in AcceptedBy(prefix, accepts)
    ensures Leftover(midway, prefix, accepts, imports, pruned - midway.Keys, HashSet(rest) + HashSet(added))
  {
    forall b, t | b in prefix && t in accepts(b) && t !in pruned - midway.Keys ensures t in midway && midway[t] == Some(b) {
      assert b in prefix + rest && t in AcceptedBy(prefix, accepts);
      if t !in pruned {
        assert t in WithoutBlocks(acceptances, removed);
      }
    }
    forall t ensures (t in midway && midway[t] == None) <==> t in imports && t !in pruned - midway.Keys {
      if t in imports && t !in pruned {
        assert t in WithoutBlocks(acceptances, removed);
      }
    }
  }

  /** The clean-up leaves exactly the index of the prefix if and only if no stale row escapes it. */
  lemma CleanUpIsExactIff(acceptances: map<TxId, Option<Hash>>, prefix: seq<Hash>, accepts: Hash -> seq<TxId>,
                          imports: set<TxId>, pruned: set<TxId>, pending: set<Hash>, cleared: set<Hash>)
    requires Leftover(acceptances, prefix, accepts, imports, pruned, pending)
    requires forall b :: b in prefix ==> b !in pending && b !in cleared
    ensures Indexed(WithoutBlocks(acceptances, cleared), prefix, accepts, imports, pruned) <==>
            !exists t :: StaleRow(acceptances, prefix, cleared, t)
  {
    var kept := WithoutBlocks(acceptances, cleared);
    if t :| StaleRow(acceptances, prefix, cleared, t) {
      assert t in kept && kept[t].Some?;
    } else {
      forall t | t in kept && kept[t].Some? ensures kept[t].value in prefix && t in accepts(kept[t].value) {
        assert !StaleRow(acceptances, prefix, cleared, t);
      }
    }
  }

  /** The transactions whose rows pruning deletes in the first n events. */
  function Gone(events: seq<Event>, n: nat): set<TxId>
    requires n <= |events|
  {
    if n == 0 then {} else Gone(events, n - 1) + if events[n - 1].Prune? then events[n - 1].gone else {}
  }

  /** The blocks that were cleared: all committed ones but the first. */
  function ClearedBlocks(s: Startup): set<Hash> {
    HashSet(if s.committed == [] then [] else s.committed[1..])
  }

  lemma BatchClears(o: Options, s: Startup, blocks: seq<Hash>, synced: bool, s': Startup)
    requires Commits(o, s, blocks, synced, s')
    ensures ClearedBlocks(s') == ClearedBlocks(s) + HashSet(ToClear(s, blocks))
  {
    var before := if s.committed == [] then [] else s.committed[1..];
    assert s'.committed[1..] == before + ToClear(s, blocks);
    assert HashSet(before + ToClear(s, blocks)) == HashSet(before) + HashSet(ToClear(s, blocks));
  }

  /** The tables are those of the start without the rows of the cleared blocks and without pruned rows. */
  ghost predicate ClearedFrom(s0: Startup, s: Startup, gone: set<TxId>) {
    && s.acceptances == WithoutBlocks(s0.acceptances, ClearedBlocks(s)) - gone
    && forall b :: s.chainBlocks[b] == if b in ClearedBlocks(s) then 0 else s0.chainBlocks[b]
  }

  lemma ClearedThenPruned(a: map<TxId, Option<Hash>>, blocks: set<Hash>, more: set<Hash>, gone: set<TxId>)
    ensures WithoutBlocks(WithoutBlocks(a, blocks) - gone, more) == WithoutBlocks(a, blocks + more) - gone
  {
  }

  lemma StepClears(o: Options, s0: Startup, s: Startup, e: Event, s': Startup, gone: set<TxId>)
    requires ClearedFrom(s0, s, gone) && Step(o, s, e, s')
    ensures ClearedFrom(s0, s', gone + if e.Prune? then e.gone else {})
  {
    if e.Batch? {
      BatchClears(o, s, e.blocks, e.synced, s');
      ClearedThenPruned(s0.acceptances, ClearedBlocks(s), HashSet(ToClear(s, e.blocks)), gone);
      assert gone + {} == gone;
    } else {
      assert ClearedBlocks(s') == ClearedBlocks(s);
    }
  }

  /** The batches clear exactly the committed blocks but the first, whatever pruning deletes meanwhile. */
  lemma {:induction false} BatchesClear(o: Options, states: seq<Startup>, events: seq<Event>, n: nat)
    requires Starts(o, states, events) && n < |states|
    ensures ClearedFrom(states[0], states[n], Gone(events, n))
  {
    if n == 0 {
      assert ClearedBlocks(states[0]) == {};
    } else {
      BatchesClear(o, states, events, n - 1);
      StepClears(o, states[0], states[n - 1], events[n - 1], states[n], Gone(events, n - 1));
    }
  }

  // ---- Restart equivalence ----

  /** The stale rows name blocks that are committed again, and no block of the prefix is, but for the first one committed. */
  ghost predicate CommittedAgain(states: seq<Startup>, prefix: seq<Hash>, pending: set<Hash>)
    requires states != []
  {
    var cleared := ClearedBlocks(states[|states| - 1]);
    && pending <= cleared
    && forall b :: b in prefix ==> b !in cleared
  }

  /** The tables of an interrupted run, cleared by the start-up batches, are the index of the prefix that ends at the checkpoint. */
  lemma StartUpRestoresIndex(o: Options, states: seq<Startup>, events: seq<Event>, prefix: seq<Hash>, accepts: Hash -> seq<TxId>,
                             imports: set<TxId>, pruned: set<TxId>, pending: set<Hash>)
    requires Starts(o, states, events) && CommittedAgain(states, prefix, pending)
    requires Leftover(states[0].acceptances, prefix, accepts, imports, pruned, pending)
    ensures Indexed(states[|events|].acceptances, prefix, accepts, imports, pruned + Gone(events, |events|))
  {
    var cleared := ClearedBlocks(states[|events|]);
    BatchesClear(o, states, events, |events|);
    CleanUpIsExactIff(states[0].acceptances, prefix, accepts, imports, pruned, pending, cleared);
    PruneKeepsIndex(WithoutBlocks(states[0].acceptances, cleared), prefix, accepts, imports, pruned, Gone(events, |events|));
  }

  /** After the start-up batches the chain processor, started at the end of the prefix, tracks the prefix. */
  lemma CleanUpRestoresTracking(o: Options, states: seq<Startup>, starts: seq<Event>, prefix: seq<Hash>, pending: set<Hash>, pruned: set<TxId>,
                                c: VirtualChain.Config, m: Moment, origin: Hash, imports: set<TxId>, accepts: Hash -> seq<TxId>)
    requires Starts(o, states, starts) && CommittedAgain(states, prefix, pending) && prefix != [] && c.acceptance
    requires Leftover(states[0].acceptances, prefix, accepts, imports, pruned, pending)
    requires m.view.acceptances == states[|starts|].acceptances && m.pruned == pruned + Gone(starts, |starts|)
    requires m.chain == prefix && m.view.startHash == prefix[|prefix| - 1]
    ensures Tracks(c, m, origin, imports, accepts)
  {
    StartUpRestoresIndex(o, states, starts, prefix, accepts, imports, pruned, pending);
  }

  /**
   * A run that is interrupted, restarted from a checkpoint on its chain and cleaned up by the start-up batches ends with
   * the table of a run that was never interrupted, once both track the same chain and have the same rows pruned.
   */
  lemma RestartIsInvisible(o: Options, states: seq<Startup>, starts: seq<Event>, prefix: seq<Hash>, pending: set<Hash>, pruned: set<TxId>,
                           c: VirtualChain.Config, resumed: seq<Moment>, es: seq<ChainIndex.Event>,
                           whole: seq<Moment>, es': seq<ChainIndex.Event>, origin: Hash, imports: set<TxId>, accepts: Hash -> seq<TxId>)
    requires Starts(o, states, starts) && CommittedAgain(states, prefix, pending) && prefix != []
    requires Leftover(states[0].acceptances, prefix, accepts, imports, pruned, pending)
    requires c.acceptance && Run(c, resumed, es, imports, accepts) && Run(c, whole, es', imports, accepts)
    requires resumed[0].view.acceptances == states[|starts|].acceptances && resumed[0].pruned == pruned + Gone(starts, |starts|)
    requires resumed[0].chain == prefix && resumed[0].view.startHash == prefix[|prefix| - 1]
    requires Tracks(c, whole[0], origin, imports, accepts)
    requires resumed[|es|].chain == whole[|es'|].chain && resumed[|es|].pruned == whole[|es'|].pruned
    ensures resumed[|es|].view.acceptances == whole[|es'|].view.acceptances
    ensures resumed[|es|].view.startHash == whole[|es'|].view.startHash
  {
    CleanUpRestoresTracking(o, states, starts, prefix, pending, pruned, c, resumed[0], origin, imports, accepts);
    RunsAgree(c, resumed, es, whole, es', origin, imports, accepts);
  }

  // ---- Blocks-only mode ----

  /** One row per block of the prefix; other rows name blocks of pending, perhaps more than once. */
  ghost predicate LeftoverList(chainBlocks: multiset<Hash>, prefix: seq<Hash>, pending: set<Hash>) {
    forall b :: if b in prefix then chainBlocks[b] == 1 else b in chainBlocks ==> b in pending
  }

  lemma CleanUpRestoresListIff(rows: multiset<Hash>, prefix: seq<Hash>, pending: set<Hash>, cleared: set<Hash>, rows': multiset<Hash>)
    requires LeftoverList(rows, prefix, pending)
    requires forall b :: b in prefix ==> b !in pending && b !in cleared
    requires forall b :: rows'[b] == if b in cleared then 0 else rows[b]
    ensures Listed(rows', prefix) <==> forall b :: b in rows && b !in prefix ==> b in cleared
  {
  }

  /** The same for runs that write rows for blocks only. */
  lemma RestartIsInvisibleOnBlocks(o: Options, states: seq<Startup>, starts: seq<Event>, prefix: seq<Hash>, pending: set<Hash>,
                                   c: VirtualChain.Config, resumed: seq<Moment>, es: seq<ChainIndex.Event>,
                                   whole: seq<Moment>, es': seq<ChainIndex.Event>, origin: Hash, imports: set<TxId>, accepts: Hash -> seq<TxId>)
    requires Starts(o, states, starts) && CommittedAgain(states, prefix, pending) && prefix != []
    requires LeftoverList(states[0].chainBlocks, prefix, pending)
    requires !c.acceptance && Run(c, resumed, es, imports, accepts) && Run(c, whole, es', imports, accepts)
    requires resumed[0].view.chainBlocks == states[|starts|].chainBlocks
    requires resumed[0].chain == prefix && resumed[0].view.startHash == prefix[|prefix| - 1]
    requires Tracks(c, whole[0], origin, imports, accepts)
    requires resumed[|es|].chain == whole[|es'|].chain
    ensures resumed[|es|].view.chainBlocks == whole[|es'|].view.chainBlocks
    ensures resumed[|es|].view.startHash == whole[|es'|].view.startHash
  {
    BatchesClear(o, states, starts, |starts|);
    CleanUpRestoresListIff(states[0].chainBlocks, prefix, pending, ClearedBlocks(states[|starts|]), states[|starts|].chainBlocks);
    RunsAgreeOnBlocks(c, resumed, es, whole, es', origin, imports, accepts);
  }
}
