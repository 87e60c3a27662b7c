/**
 * The ledger behind the checkpoint gate: when the gate saves without force, the rows that the balance update reads are
 * there because the tasks wrote them, so that over whole runs the balances are the replayed UTXO set.
 */
module GatedLedger {
  import opened Database
  import opened Balances
  import opened BalanceUpdater
  import opened Chain
  import opened Checkpoint
  import opened CheckpointSystem
  import Acceptances
  import ChainIndex
  import Contents
  import Ledger
  import LedgerSteps
  import MidwaySaves
  import Pruning
  import PruningTheorems
  import VirtualChain
  import Windows

  /** The ledger stands for the tables of the system; what it still has to settle is on the tracked chain and untouched. */
  ghost predicate Joint(w: World, n: Node, s: System, l: Ledger.Ledger) {
    && Ledger.Inv(w, l) && l.store == s.store && w.body == n.body
    && s.touched !! Ids(l.recent)
    && forall e :: e in l.recent ==> e.block in s.chain && e.tx in n.accepts(e.block)
  }

  // ---- The steps of the tasks ----

  lemma CommitJoint(w: World, n: Node, c: Setup, s: System, l: Ledger.Ledger, upTo: nat, stored: set<TxId>, s': System)
    requires Joint(w, n, s, l) && Commits(n, c.resolve, s, upTo, stored, s')
    ensures Joint(w, n, s', l.(store := s'.store))
  {
    var batch := Contents.BlockRelations(n.contents, s.delivered[s.committed..upTo]);
    LedgerSteps.BatchIsCommit(w, c.resolve, l, l.(store := s'.store), s.Content(), stored, batch, s'.Content());
  }

  lemma PruneJoint(w: World, n: Node, c: Setup, s: System, l: Ledger.Ledger, chunks: seq<set<TxId>>, s': System)
    requires Joint(w, n, s, l) && Step(n, c, s, Prune(chunks), s') && Pruning.Union(chunks) !! Ids(l.recent)
    ensures Joint(w, n, s', l.(store := s'.store))
  {
    Ledger.PruneKeeps(w, l, l.(store := s'.store), chunks);
    forall o | o in PruningTheorems.Seen(s.store, chunks) ensures o.tx !in Ids(l.recent) {
      Ledger.PrunedSpends(w, l, chunks, o);
    }
  }

  /**
   * The poll reorganises the ledger: the chain that is left keeps the recent transactions of its blocks, and the taken
   * blocks add theirs, none of which pruning has touched.
   */
  ghost predicate Moves(w: World, n: Node, s: System, l: Ledger.Ledger, reply: VirtualChain.Reply,
                        kept: seq<Accepted>, dropped: seq<Accepted>, added: seq<Accepted>) {
    && LedgerSteps.Reorganises(w, l, Acceptances.HashSet(reply.removed), kept, dropped, added)
    && (forall e :: e in kept ==> e.block !in reply.removed)
    && (forall e :: e in added <==> e.block in ChainIndex.Taken(s.Moment().view, reply) && e.tx in n.accepts(e.block))
    && Ids(added) !! s.touched
  }

  lemma TakenAreListed(n: Node, c: VirtualChain.Config, s: System, reply: VirtualChain.Reply, fork: nat, a: Acceptances.AcceptedIds)
    requires c.acceptance && ChainIndex.Answers(c, s.chain, fork, reply, n.imports, n.accepts) && |reply.added| > s.tip.distance
    requires a in reply.accepted[..|reply.added| - s.tip.distance]
    ensures a.block in ChainIndex.Taken(s.Moment().view, reply) && a.txs == n.accepts(a.block)
  {
    var taken := |reply.added| - s.tip.distance;
    var i :| 0 <= i < taken && reply.accepted[i] == a;
    assert reply.added[..taken][i] == a.block;
  }

  lemma StillTracked(chain: seq<Hash>, fork: nat, removed: seq<Hash>, added: seq<Hash>, b: Hash)
    requires fork <= |chain| && b in chain && b !in removed
    requires forall i :: 0 <= i < |chain| ==> (chain[i] in removed <==> fork <= i)
    ensures b in chain[..fork] + added
  {
    var i :| 0 <= i < |chain| && chain[i] == b;
    assert chain[..fork][i] == b;
  }

  lemma PollJoint(w: World, n: Node, c: Setup, s: System, l: Ledger.Ledger, reply: VirtualChain.Reply, fork: nat, m: ChainIndex.Moment, s': System,
                  kept: seq<Accepted>, dropped: seq<Accepted>, added: seq<Accepted>)
    requires Joint(w, n, s, l) && Polls(n, c.chain, s, reply, fork, m, s') && c.chain.acceptance
    requires |reply.added| > s.tip.distance && Moves(w, n, s, l, reply, kept, dropped, added)
    ensures Joint(w, n, s', l.(store := s'.store, recent := kept + added))
  {
    var taken := |reply.added| - s.tip.distance;
    forall a, t | a in reply.accepted[..taken] && t in a.txs ensures Accepted(t, a.block) in added {
      TakenAreListed(n, c.chain, s, reply, fork, a);
    }
    var l1, l2, l3 := LedgerSteps.PollIsSteps(w, l, c.chain, s.Moment().view, reply, m.view, kept, dropped, added);
    assert l3 == l.(store := s'.store, recent := kept + added);
    forall e | e in kept ensures e.block in s'.chain && e.tx in n.accepts(e.block) && e.tx !in s.touched {
      assert e in l.recent;
      StillTracked(s.chain, fork, reply.removed, reply.added[..taken], e.block);
    }
    forall e | e in added ensures e.tx !in s.touched {
      assert e.tx in Ids(added);
    }
  }

  lemma SkippedPollJoint(w: World, n: Node, c: Setup, s: System, l: Ledger.Ledger, reply: VirtualChain.Reply, fork: nat, m: ChainIndex.Moment, s': System)
    requires Joint(w, n, s, l) && Polls(n, c.chain, s, reply, fork, m, s') && |reply.added| <= s.tip.distance
    ensures Joint(w, n, s', l)
  {
  }

  // ---- The save ----

  /** The transactions accepted up to the block are in blocks that were delivered with it or before it. */
  ghost predicate SourcesDelivered(n: Node, s: System, now: seq<Accepted>, k: Hash) {
    forall i, e :: 0 <= i < |s.delivered| && s.delivered[i] == k && e in now ==>
      exists j :: 0 <= j <= i && e.tx in n.contents(s.delivered[j])
  }

  lemma SettledRowsAreStored(w: World, n: Node, c: Setup, s: System, l: Ledger.Ledger, i: nat, e: Accepted)
    requires Joint(w, n, s, l) && TablesHold(n, c, s) && c.chain.acceptance && e in l.recent
    requires i < s.committed && exists j :: 0 <= j <= i && e.tx in n.contents(s.delivered[j])
    ensures Ledger.AllRowsOf(w, l.store, e.tx) && e.tx in l.store.acceptances
  {
    var j :| 0 <= j <= i && e.tx in n.contents(s.delivered[j]);
    assert RowsStored(n, s, s.delivered[j], e.tx);
    assert e.tx in Ids(l.recent);
    LedgerSteps.RowsAreStored(w, l.store, e.tx, s.Content());
    TrackedIsIndexed(n, c, s, e);
  }

  lemma TrackedIsIndexed(n: Node, c: Setup, s: System, e: Accepted)
    requires TablesHold(n, c, s) && c.chain.acceptance && e.block in s.chain && e.tx in n.accepts(e.block) && e.tx !in s.touched
    ensures e.tx in s.store.acceptances
  {
  }

  /** What the gate guarantees is what the ledger's save asks for: all rows of the transactions to settle are there. */
  lemma GateMeetsSave(w: World, n: Node, c: Setup, s: System, l: Ledger.Ledger, clock: Clock, k: CheckpointBlock, now: seq<Accepted>)
    requires Joint(w, n, s, l) && TablesHold(n, c, s) && RecordsHold(c.gate, s)
    requires SavesUnforced(c.gate, s, clock, k) && AllEnabled(c)
    requires (forall e :: e in now ==> e in l.recent) && SourcesDelivered(n, s, now, k.hash)
    ensures forall e :: e in now ==> Ledger.AllRowsOf(w, l.store, e.tx) && e.tx in l.store.acceptances
  {
    SavedIsVouched(c.gate, s, clock, k);
    var i :| 0 <= i < s.committed && i < |s.delivered| && s.delivered[i] == k.hash;
    forall e | e in now ensures Ledger.AllRowsOf(w, l.store, e.tx) && e.tx in l.store.acceptances {
      SettledRowsAreStored(w, n, c, s, l, i, e);
    }
  }

  /**
   * A save of the gate: from the previous checkpoint to the block, with what is accepted up to the block's score. It may
   * fall into a poll, between its statements, as long as no row of the transactions to settle is missing then.
   */
  ghost predicate SaveOf(w: World, n: Node, s: System, l: Ledger.Ledger, from: Hash, k: Hash, now: seq<Accepted>, missing: set<TxId>,
                         l': Ledger.Ledger) {
    && ScoresKnown(l.blocks, from, k) && w.blue(from) == l.saved && l.saved <= w.blue(k)
    && l.recent == now + l'.recent
    && (forall e :: e in now ==> w.blue(e.block) <= w.blue(k) && e.block in l.blocks)
    && (forall e :: e in l'.recent ==> w.blue(k) < w.blue(e.block))
    && SourcesDelivered(n, s, now, k) && missing !! Ids(now)
    && Moved(MidwaySaves.Midway(l.store, missing), l.blocks, from, k, l.balances, l'.balances)
    && l' == l.(balances := l'.balances, saved := w.blue(k), settled := l.settled + now, recent := l'.recent)
  }

  lemma MidwayNet(w: World, l: Ledger.Ledger, to: int, now: seq<Accepted>, later: seq<Accepted>, missing: set<TxId>, a: Address)
    requires Ledger.Inv(w, l) && Ledger.Ready(w, l, to, now, later) && missing !! Ids(now)
    ensures Windows.Net(MidwaySaves.Midway(l.store, missing), l.blocks, l.saved, to, a) == Windows.Net(l.store, l.blocks, l.saved, to, a)
  {
    forall t | t in missing ensures !Windows.InWindow(l.store, l.blocks, t, l.saved, to) {
      Ledger.WindowIsNow(w, l, to, now, later, t);
    }
    MidwaySaves.MidwayNet(l.store, l.blocks, missing, l.saved, to, a);
  }

  lemma SameMoves(s: Store, read: Store, blocks: map<Hash, Block>, from: Hash, to: Hash, before: map<Address, int>, after: map<Address, int>)
    requires ScoresKnown(blocks, from, to) && Moved(read, blocks, from, to, before, after)
    requires forall a :: Windows.Net(read, blocks, blocks[from].blueScore, blocks[to].blueScore, a)
                      == Windows.Net(s, blocks, blocks[from].blueScore, blocks[to].blueScore, a)
    ensures Moved(s, blocks, from, to, before, after)
  {
  }

  /** A save within a poll that misses nothing to settle moves the balances as a save before or after it. */
  lemma MidwayMoves(w: World, l: Ledger.Ledger, from: Hash, k: Hash, now: seq<Accepted>, later: seq<Accepted>, missing: set<TxId>, after: map<Address, int>)
    requires Ledger.Inv(w, l) && Ledger.Ready(w, l, w.blue(k), now, later) && missing !! Ids(now)
    requires ScoresKnown(l.blocks, from, k) && w.blue(from) == l.saved
    requires Moved(MidwaySaves.Midway(l.store, missing), l.blocks, from, k, l.balances, after)
    ensures Moved(l.store, l.blocks, from, k, l.balances, after)
  {
    assert l.blocks[from].blueScore == l.saved && l.blocks[k].blueScore == w.blue(k);
    forall a: Address ensures Windows.Net(MidwaySaves.Midway(l.store, missing), l.blocks, l.saved, w.blue(k), a)
                           == Windows.Net(l.store, l.blocks, l.saved, w.blue(k), a) {
      MidwayNet(w, l, w.blue(k), now, later, missing, a);
    }
    SameMoves(l.store, MidwaySaves.Midway(l.store, missing), l.blocks, from, k, l.balances, after);
  }

  lemma SaveJoint(w: World, n: Node, c: Setup, s: System, l: Ledger.Ledger, clock: Clock, k: CheckpointBlock,
                  from: Hash, now: seq<Accepted>, missing: set<TxId>, l': Ledger.Ledger)
    requires Joint(w, n, s, l) && TablesHold(n, c, s) && RecordsHold(c.gate, s)
    requires SavesUnforced(c.gate, s, clock, k) && AllEnabled(c)
    requires SaveOf(w, n, s, l, from, k.hash, now, missing, l')
    ensures Ledger.Save(w, l, l', now) && Joint(w, n, Turned(c.gate, s, clock), l')
  {
    GateMeetsSave(w, n, c, s, l, clock, k, now);
    MidwayMoves(w, l, from, k.hash, now, l'.recent, missing, l'.balances);
    LedgerSteps.CheckpointIsSave(w, l, l', from, k.hash, now);
    IdsSplit(now, l'.recent);
  }

  // ---- Whole runs ----

  datatype State = State(system: System, ledger: Ledger.Ledger)

  /** The block processor and block pruning change the blocks table. */
  datatype Event = Task(action: Action) | Blocks

  /** The outcome of the turn: nothing is saved, or a block is, not by force, and the ledger moves with it. */
  ghost predicate TurnFollows(w: World, n: Node, c: Setup, s: System, l: Ledger.Ledger, clock: Clock, l': Ledger.Ledger) {
    if Round(c.gate, s.gate, PoppedBy(s), clock).1.Saved? then
      exists k, from, now, missing :: SavesUnforced(c.gate, s, clock, k) && SaveOf(w, n, s, l, from, k.hash, now, missing, l')
    else l' == l
  }

  ghost predicate PollFollows(w: World, n: Node, s: System, l: Ledger.Ledger, reply: VirtualChain.Reply, s': System, l': Ledger.Ledger) {
    if |reply.added| > s.tip.distance then
      exists kept, dropped, added ::
        Moves(w, n, s, l, reply, kept, dropped, added) && l' == l.(store := s'.store, recent := kept + added)
    else l' == l
  }

  ghost predicate Follows(w: World, n: Node, c: Setup, st: State, a: Action, st': State) {
    match a
    case CommitTransactions(_, _) => st'.ledger == st.ledger.(store := st'.system.store)
    case Poll(reply, _, _) => PollFollows(w, n, st.system, st.ledger, reply, st'.system, st'.ledger)
    case Prune(chunks) => Pruning.Union(chunks) !! Ids(st.ledger.recent) && st'.ledger == st.ledger.(store := st'.system.store)
    case PruneRelations(rows) => Contents.TxsOf(rows) !! Ids(st.ledger.recent) && st'.ledger == st.ledger
    case Turn(clock) => TurnFollows(w, n, c, st.system, st.ledger, clock, st'.ledger)
    case _ => st'.ledger == st.ledger
  }

  ghost predicate Happens(w: World, n: Node, c: Setup, st: State, e: Event, st': State) {
    match e
    case Task(a) => Step(n, c, st.system, a, st'.system) && Follows(w, n, c, st, a, st')
    case Blocks => st'.system == st.system && Ledger.ChangeBlocks(w, st.ledger, st'.ledger)
  }

  ghost predicate Holds(w: World, n: Node, c: Setup, st: State) {
    Joint(w, n, st.system, st.ledger) && TablesHold(n, c, st.system) && RecordsHold(c.gate, st.system)
  }

  lemma TurnHolds(w: World, n: Node, c: Setup, st: State, clock: Clock, st': State)
    requires Holds(w, n, c, st) && Happens(w, n, c, st, Task(Turn(clock)), st')
    requires AllEnabled(c)
    ensures Joint(w, n, st'.system, st'.ledger)
  {
    if Round(c.gate, st.system.gate, PoppedBy(st.system), clock).1.Saved? {
      var k, from, now, missing :|
        SavesUnforced(c.gate, st.system, clock, k) && SaveOf(w, n, st.system, st.ledger, from, k.hash, now, missing, st'.ledger);
      SaveJoint(w, n, c, st.system, st.ledger, clock, k, from, now, missing, st'.ledger);
    }
  }

  lemma PollHolds(w: World, n: Node, c: Setup, st: State, reply: VirtualChain.Reply, fork: nat, m: ChainIndex.Moment, st': State)
    requires Holds(w, n, c, st) && Happens(w, n, c, st, Task(Poll(reply, fork, m)), st') && c.chain.acceptance
    ensures Joint(w, n, st'.system, st'.ledger)
  {
    var s, l := st.system, st.ledger;
    if |reply.added| > s.tip.distance {
      var kept, dropped, added :|
        Moves(w, n, s, l, reply, kept, dropped, added) && st'.ledger == l.(store := st'.system.store, recent := kept + added);
      PollJoint(w, n, c, s, l, reply, fork, m, st'.system, kept, dropped, added);
    } else {
      SkippedPollJoint(w, n, c, s, l, reply, fork, m, st'.system);
    }
  }

  /** A step that leaves the tables, the chain and what pruning has touched needs no step of the ledger. */
  lemma StillJoint(w: World, n: Node, s: System, l: Ledger.Ledger, s': System)
    requires Joint(w, n, s, l) && s'.store == s.store && s'.chain == s.chain && s'.touched !! Ids(l.recent)
    ensures Joint(w, n, s', l)
  {
  }

  lemma TaskJoint(w: World, n: Node, c: Setup, st: State, a: Action, st': State)
    requires Holds(w, n, c, st) && Happens(w, n, c, st, Task(a), st')
    requires AllEnabled(c)
    ensures Joint(w, n, st'.system, st'.ledger)
  {
    match a
    case CommitTransactions(upTo, stored) => CommitJoint(w, n, c, st.system, st.ledger, upTo, stored, st'.system);
    case Poll(reply, fork, m) => PollHolds(w, n, c, st, reply, fork, m, st');
    case Prune(chunks) => PruneJoint(w, n, c, st.system, st.ledger, chunks, st'.system);
    case Turn(clock) => TurnHolds(w, n, c, st, clock, st');
    case _ => StillJoint(w, n, st.system, st.ledger, st'.system);
  }

  lemma TaskHolds(w: World, n: Node, c: Setup, st: State, a: Action, st': State)
    requires Holds(w, n, c, st) && Happens(w, n, c, st, Task(a), st')
    requires AllEnabled(c)
    ensures Holds(w, n, c, st')
  {
    TaskJoint(w, n, c, st, a, st');
    StepKeepsTables(n, c, st.system, a, st'.system);
    StepKeepsRecords(n, c, st.system, a, st'.system);
  }

  lemma EventHolds(w: World, n: Node, c: Setup, st: State, e: Event, st': State)
    requires Holds(w, n, c, st) && Happens(w, n, c, st, e, st')
    requires AllEnabled(c)
    ensures Holds(w, n, c, st')
  {
    match e
    case Task(a) => TaskHolds(w, n, c, st, a, st');
    case Blocks => BlocksJoint(w, n, st.system, st.ledger, st'.ledger);
  }

  lemma BlocksJoint(w: World, n: Node, s: System, l: Ledger.Ledger, l': Ledger.Ledger)
    requires Joint(w, n, s, l) && Ledger.ChangeBlocks(w, l, l')
    ensures Joint(w, n, s, l')
  {
  }

  /** What an import leaves is a start: nothing is recent yet. */
  lemma ImportIsJoint(w: World, n: Node, s: System, l: Ledger.Ledger)
    requires Ledger.Init(w, l) && l.store == s.store && w.body == n.body
    ensures Joint(w, n, s, l)
  {
    Ledger.InitHolds(w, l);
  }

  ghost predicate Run(w: World, n: Node, c: Setup, states: seq<State>, events: seq<Event>) {
    && |states| == |events| + 1
    && Begins(w, n, c, states[0])
    && forall k :: 0 <= k < |events| ==> Happens(w, n, c, states[k], events[k], states[k + 1])
  }

  ghost predicate Begins(w: World, n: Node, c: Setup, st: State) {
    CheckpointSystem.Starts(n, c, st.system) && Joint(w, n, st.system, st.ledger)
  }

  lemma RunBeginHolds(w: World, n: Node, c: Setup, states: seq<State>, events: seq<Event>)
    requires Run(w, n, c, states, events)
    ensures Holds(w, n, c, states[0])
  {
    assert Begins(w, n, c, states[0]);
  }

  lemma RunStepHolds(w: World, n: Node, c: Setup, states: seq<State>, events: seq<Event>, k: nat)
    requires Run(w, n, c, states, events) && 0 < k < |states| && Holds(w, n, c, states[k - 1])
    requires AllEnabled(c)
    ensures Holds(w, n, c, states[k])
  {
    assert Happens(w, n, c, states[k - 1], events[k - 1], states[k]);
    EventHolds(w, n, c, states[k - 1], events[k - 1], states[k]);
  }

  lemma RunHolds(w: World, n: Node, c: Setup, states: seq<State>, events: seq<Event>, k: nat)
    requires Run(w, n, c, states, events) && k < |states|
    requires AllEnabled(c)
    ensures Holds(w, n, c, states[k])
  {
    RunBeginHolds(w, n, c, states, events);
    for i := 0 to k
      invariant Holds(w, n, c, states[i])
    {
      RunStepHolds(w, n, c, states, events, i + 1);
    }
  }

  /**
   * Over all interleavings of the tasks in which no save is forced: the balances are those of the replayed UTXO set. The
   * gate provides the rows of a save that falls between two steps; that a save within a poll misses none of them is a
   * condition of the save.
   */
  lemma BalanceIsReplayBehindTheGate(w: World, n: Node, c: Setup, states: seq<State>, events: seq<Event>, k: nat, a: Address)
    requires Run(w, n, c, states, events) && k < |states|
    requires AllEnabled(c)
    requires forall t, o :: o in w.body(t).outputs ==> 0 <= Windows.Amount(o)
    ensures BalanceOf(states[k].ledger.balances, a) == UtxoSum(Replay(w, states[k].ledger.settled), a)
    ensures 0 <= BalanceOf(states[k].ledger.balances, a)
  {
    RunHolds(w, n, c, states, events, k);
    Ledger.InvIsReplay(w, states[k].ledger, a);
  }

  // ---- The processors' contracts ----

  /** What the transaction processor promises of a commit is the commit of the system. */
  lemma HandledIsCommit(n: Node, resolve: bool, s: System, upTo: nat, m: Contents.Moment, action: Contents.Action, m': Contents.Moment,
                        pruned: set<TxId>, s': System)
    requires s.txsOutbox == [] && s.committed < upTo <= |s.delivered|
    requires action.Commit? && Contents.Step(n.body, resolve, m, action, m') && m.content == s.Content() && m'.content == s'.Content()
    requires action.batch == Contents.BlockRelations(n.contents, s.delivered[s.committed..upTo])
    requires Contents.TxsOf(action.batch) - action.stored <= pruned <= s.touched
    requires s'.store.acceptances == s.store.acceptances
    requires s' == s.(store := s'.store, blockTxs := s'.blockTxs, committed := upTo, txsOutbox := s.delivered[s.committed..upTo])
    ensures Commits(n, resolve, s, upTo, action.stored, s')
  {
  }
}
