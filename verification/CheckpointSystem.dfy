/**
 * The tasks around the checkpoint gate on the shared tables, interleaved: blocks are delivered, the transaction processor
 * commits batches, the chain processor follows the node, pruning deletes rows, records are queued one by one and the gate
 * pops them.
 */
module CheckpointSystem {
  import opened Database
  import opened Chain
  import opened Checkpoint
  import ChainIndex
  import Contents
  import Pruning
  import PruningTheorems
  import TipDistance
  import VirtualChain

  /** What the node and the import fix. */
  datatype Node = Node(body: TxId -> Body, contents: Hash -> set<TxId>, accepts: Hash -> seq<TxId>, imports: set<TxId>, origin: Hash)

  datatype Setup = Setup(gate: Config, chain: VirtualChain.Config, resolve: bool)

  /** The gate waits for both processors, and the acceptance rows are kept. */
  predicate AllEnabled(c: Setup) {
    !c.gate.disableChain && !c.gate.disableTransactions && c.chain.acceptance
  }

  datatype System = System(
    store: Store,
    blockTxs: set<(Hash, TxId)>,
    touched: set<TxId>,            // transactions of which pruning has deleted some row
    delivered: seq<Hash>,          // blocks in the order in which they were fetched
    committed: nat,                // how many of them the transaction processor has committed
    txsOutbox: seq<Hash>,          // committed, records not queued yet
    startHash: Hash,               // the chain processor
    synced: bool,
    tip: TipDistance.Tip,
    chainBlocks: multiset<Hash>,
    chain: seq<Hash>,              // the chain that it tracks
    pruned: set<TxId>,             // transactions that lost their acceptance row to pruning
    reached: set<Hash>,            // the start hashes that it had
    chainOutbox: Option<Hash>,
    queue: seq<CheckpointBlock>,
    gate: Gate)
  {
    function Content(): Contents.Content {
      Contents.Content(store.transactions.Keys, store.inputs, store.outputs, blockTxs)
    }

    function Moment(): ChainIndex.Moment {
      ChainIndex.Moment(VirtualChain.View(startHash, synced, tip, store.acceptances, chainBlocks), chain, pruned)
    }

    function Moved(m: ChainIndex.Moment): System {
      this.(store := store.(acceptances := m.view.acceptances), startHash := m.view.startHash, synced := m.view.synced,
            tip := m.view.tip, chainBlocks := m.view.chainBlocks, chain := m.chain, pruned := m.pruned)
    }
  }

  datatype Action =
    | Deliver(blocks: seq<Hash>)
    | CommitTransactions(upTo: nat, stored: set<TxId>) | QueueTransactions
    | QueueBlock(block: Hash)
    | Poll(reply: VirtualChain.Reply, fork: nat, moment: ChainIndex.Moment) | QueueChain
    | Prune(chunks: seq<set<TxId>>) | PruneRelations(rows: set<(Hash, TxId)>)
    | Turn(clock: Clock)

  function PoppedBy(s: System): Option<CheckpointBlock> {
    if s.queue == [] then None else Some(s.queue[0])
  }

  function Turned(c: Config, s: System, clock: Clock): System {
    s.(queue := if s.queue == [] then [] else s.queue[1..], gate := Round(c, s.gate, PoppedBy(s), clock).0)
  }

  /** The transactions that lose a row to the chunks: the expired ones, and the owners of the outputs that were spent. */
  function TouchedBy(s: Store, chunks: seq<set<TxId>>): set<TxId> {
    Pruning.Union(chunks) + set o | o in PruningTheorems.Seen(s, chunks) :: o.tx
  }

  ghost predicate Commits(n: Node, resolve: bool, s: System, upTo: nat, stored: set<TxId>, s': System) {
    && s.txsOutbox == [] && s.committed < upTo <= |s.delivered|
    && var blocks := s.delivered[s.committed..upTo];
      var batch := Contents.BlockRelations(n.contents, blocks);
      && Contents.BatchStored(n.body, resolve, s.Content(), stored, batch, s'.Content())
      && stored <= Contents.TxsOf(batch) <= stored + s.touched
      && s'.store.acceptances == s.store.acceptances
      && s' == s.(store := s'.store, blockTxs := s'.blockTxs, committed := upTo, txsOutbox := blocks)
  }

  ghost predicate Polls(n: Node, c: VirtualChain.Config, s: System, reply: VirtualChain.Reply, fork: nat, m: ChainIndex.Moment, s': System) {
    var processed := |reply.added| > s.tip.distance;
    && s.chainOutbox == None
    && ChainIndex.Step(c, s.Moment(), ChainIndex.Answer(reply, fork), m, n.imports, n.accepts)
    && s' == s.Moved(m).(chainOutbox := if processed then Some(m.view.startHash) else None,
                         reached := if processed then s.reached + {m.view.startHash} else s.reached)
  }

  ghost predicate Step(n: Node, c: Setup, s: System, a: Action, s': System) {
    match a
    case Deliver(blocks) =>
      s' == s.(delivered := s.delivered + blocks)
    case CommitTransactions(upTo, stored) =>
      Commits(n, c.resolve, s, upTo, stored, s')
    case QueueTransactions =>
      && s.txsOutbox != []
      && s' == s.(txsOutbox := s.txsOutbox[1..], queue := s.queue + [CheckpointBlock(Transactions, s.txsOutbox[0])])
    case QueueBlock(block) =>
      s' == s.(queue := s.queue + [CheckpointBlock(Blocks, block)])
    case Poll(reply, fork, m) =>
      Polls(n, c.chain, s, reply, fork, m, s')
    case QueueChain =>
      && s.chainOutbox.Some?
      && s' == s.(chainOutbox := None, queue := s.queue + [CheckpointBlock(Vcp, s.chainOutbox.value)])
    case Prune(chunks) =>
      && Pruning.Disjoint(chunks)
      && var store' := Pruning.PruneChunks(s.store, chunks);
        s' == s.(store := store', touched := s.touched + TouchedBy(s.store, chunks),
                 pruned := s.pruned + (s.store.acceptances.Keys - store'.acceptances.Keys))
    case PruneRelations(rows) =>
      s' == s.(blockTxs := s.blockTxs - rows, touched := s.touched + Contents.TxsOf(rows))
    case Turn(clock) =>
      s' == Turned(c.gate, s, clock)
  }

  // ---- The tables ----

  /** All rows of the transaction and its relation to the block are stored, unless pruning has touched it. */
  ghost predicate RowsStored(n: Node, s: System, b: Hash, t: TxId) {
    t in s.touched || (Contents.Complete(n.body, s.Content(), t) && (b, t) in s.blockTxs)
  }

  /** The rows of the committed blocks are stored, and the acceptance rows are those of the tracked chain. */
  ghost predicate TablesHold(n: Node, c: Setup, s: System) {
    && Contents.Genuine(n.body, s.Content())
    && s.committed <= |s.delivered|
    && (forall i, t :: 0 <= i < s.committed && t in n.contents(s.delivered[i]) ==> RowsStored(n, s, s.delivered[i], t))
    && ChainIndex.Tracks(c.chain, s.Moment(), n.origin, n.imports, n.accepts)
    && s.pruned <= s.touched
  }

  /** The relation of a block that is committed now is in the batch. */
  lemma InBatch(contents: Hash -> set<TxId>, delivered: seq<Hash>, from: nat, upTo: nat, i: nat, t: TxId)
    requires from <= i < upTo <= |delivered| && t in contents(delivered[i])
    ensures var batch := Contents.BlockRelations(contents, delivered[from..upTo]);
      (delivered[i], t) in batch && t in Contents.TxsOf(batch)
  {
    var blocks := delivered[from..upTo];
    Contents.BlockRelationsAre(contents, blocks);
    assert blocks[i - from] == delivered[i];
    assert (delivered[i], t) in Contents.BlockRelations(contents, blocks);
  }

  /** A transaction of a block that is committed now is stored by the batch or touched before. */
  lemma NewRowsStored(n: Node, resolve: bool, s: System, upTo: nat, stored: set<TxId>, s': System, i: nat, t: TxId)
    requires Commits(n, resolve, s, upTo, stored, s') && s.committed <= i < upTo && t in n.contents(s.delivered[i])
    ensures RowsStored(n, s', s.delivered[i], t)
  {
    InBatch(n.contents, s.delivered, s.committed, upTo, i, t);
    if t !in s.touched {
      var batch := Contents.BlockRelations(n.contents, s.delivered[s.committed..upTo]);
      Contents.BatchCompletes(n.body, resolve, s.Content(), stored, batch, s'.Content(), t);
    }
  }

  lemma OldRowsStay(n: Node, resolve: bool, s: System, upTo: nat, stored: set<TxId>, s': System, b: Hash, t: TxId)
    requires Commits(n, resolve, s, upTo, stored, s') && RowsStored(n, s, b, t)
    ensures RowsStored(n, s', b, t)
  {
    var batch := Contents.BlockRelations(n.contents, s.delivered[s.committed..upTo]);
    if t !in s.touched {
      Contents.BatchCompletes(n.body, resolve, s.Content(), stored, batch, s'.Content(), t);
    }
  }

  lemma CommitKeepsTables(n: Node, c: Setup, s: System, upTo: nat, stored: set<TxId>, s': System)
    requires TablesHold(n, c, s) && Commits(n, c.resolve, s, upTo, stored, s')
    ensures TablesHold(n, c, s')
  {
    var batch := Contents.BlockRelations(n.contents, s.delivered[s.committed..upTo]);
    Contents.BatchKeepsGenuine(n.body, c.resolve, s.Content(), stored, batch, s'.Content());
    forall i, t | 0 <= i < upTo && t in n.contents(s.delivered[i]) ensures RowsStored(n, s', s.delivered[i], t) {
      if i >= s.committed {
        NewRowsStored(n, c.resolve, s, upTo, stored, s', i, t);
      } else {
        OldRowsStay(n, c.resolve, s, upTo, stored, s', s.delivered[i], t);
      }
    }
    assert s'.Moment() == s.Moment();
  }

  lemma PollKeepsTables(n: Node, c: Setup, s: System, reply: VirtualChain.Reply, fork: nat, m: ChainIndex.Moment, s': System)
    requires TablesHold(n, c, s) && Polls(n, c.chain, s, reply, fork, m, s')
    ensures TablesHold(n, c, s')
  {
    ChainIndex.PollKeepsIndex(c.chain, s.Moment(), n.origin, fork, reply, m, n.imports, n.accepts);
    assert s'.Moment() == m && s'.Content() == s.Content();
    assert forall i, t :: 0 <= i < s.committed && t in n.contents(s.delivered[i]) ==>
      (RowsStored(n, s, s.delivered[i], t) <==> RowsStored(n, s', s.delivered[i], t));
  }

  /** The rows that the chunks delete. */
  function LossesOf(s: Store, s': Store): Contents.Losses {
    Contents.Losses(s.transactions.Keys - s'.transactions.Keys, s.inputs.Keys - s'.inputs.Keys, s.outputs.Keys - s'.outputs.Keys, {})
  }

  lemma ChunksTouch(s: Store, chunks: seq<set<TxId>>)
    requires Pruning.Disjoint(chunks)
    ensures var s' := Pruning.PruneChunks(s, chunks);
      && Contents.Touches(LossesOf(s, s'), TouchedBy(s, chunks))
      && s.acceptances.Keys - s'.acceptances.Keys <= TouchedBy(s, chunks)
  {
    PruningTheorems.ClosedForm(s, chunks);
  }

  lemma ChunksOnlyDelete(s: Store, chunks: seq<set<TxId>>)
    requires Pruning.Disjoint(chunks)
    ensures var s' := Pruning.PruneChunks(s, chunks);
      && s'.transactions.Keys <= s.transactions.Keys
      && s'.inputs == s.inputs - (s.inputs.Keys - s'.inputs.Keys)
      && s'.outputs == s.outputs - (s.outputs.Keys - s'.outputs.Keys)
      && s'.acceptances == s.acceptances - (s.acceptances.Keys - s'.acceptances.Keys)
  {
    PruningTheorems.ClosedForm(s, chunks);
  }

  lemma PrunedContent(s: System, chunks: seq<set<TxId>>, s': System)
    requires Pruning.Disjoint(chunks) && s'.store == Pruning.PruneChunks(s.store, chunks) && s'.blockTxs == s.blockTxs
    ensures s'.Content() == Contents.Without(s.Content(), LossesOf(s.store, s'.store))
  {
    ChunksOnlyDelete(s.store, chunks);
    assert s.blockTxs - {} == s.blockTxs;
    var txs, txs' := s.store.transactions.Keys, s'.store.transactions.Keys;
    assert txs' == txs - (txs - txs');
  }

  lemma UntouchedRowsStay(n: Node, s: System, losses: Contents.Losses, gone: set<TxId>, s': System, b: Hash, t: TxId)
    requires s'.Content() == Contents.Without(s.Content(), losses) && Contents.Touches(losses, gone)
    requires s'.touched == s.touched + gone && RowsStored(n, s, b, t)
    ensures RowsStored(n, s', b, t)
  {
    if t !in s'.touched {
      Contents.UntouchedStaysComplete(n.body, s.Content(), losses, gone, t);
    }
  }

  lemma LossKeepsTables(n: Node, c: Setup, s: System, losses: Contents.Losses, gone: set<TxId>, s': System)
    requires TablesHold(n, c, s) && s'.Content() == Contents.Without(s.Content(), losses) && Contents.Touches(losses, gone)
    requires s'.touched == s.touched + gone && s'.delivered == s.delivered && s'.committed == s.committed
    ensures Contents.Genuine(n.body, s'.Content())
    ensures forall i, t :: 0 <= i < s'.committed && t in n.contents(s'.delivered[i]) ==> RowsStored(n, s', s'.delivered[i], t)
  {
    Contents.PruneKeepsGenuine(n.body, s.Content(), losses);
    forall i, t | 0 <= i < s'.committed && t in n.contents(s'.delivered[i]) ensures RowsStored(n, s', s'.delivered[i], t) {
      UntouchedRowsStay(n, s, losses, gone, s', s.delivered[i], t);
    }
  }

  lemma PruneKeepsTables(n: Node, c: Setup, s: System, chunks: seq<set<TxId>>, s': System)
    requires TablesHold(n, c, s) && Step(n, c, s, Prune(chunks), s')
    ensures TablesHold(n, c, s')
  {
    var gone := s.store.acceptances.Keys - s'.store.acceptances.Keys;
    ChunksTouch(s.store, chunks);
    ChunksOnlyDelete(s.store, chunks);
    PrunedContent(s, chunks, s');
    LossKeepsTables(n, c, s, LossesOf(s.store, s'.store), TouchedBy(s.store, chunks), s');
    if c.chain.acceptance {
      ChainIndex.PruneKeepsIndex(s.store.acceptances, s.chain, n.accepts, n.imports, s.pruned, gone);
    }
  }

  lemma PruneRelationsKeepsTables(n: Node, c: Setup, s: System, rows: set<(Hash, TxId)>, s': System)
    requires TablesHold(n, c, s) && Step(n, c, s, PruneRelations(rows), s')
    ensures TablesHold(n, c, s')
  {
    var losses := Contents.Losses({}, {}, {}, rows);
    assert s'.Content() == Contents.Without(s.Content(), losses) by {
      assert s.store.inputs - {} == s.store.inputs && s.store.outputs - {} == s.store.outputs;
      assert s.store.transactions.Keys - {} == s.store.transactions.Keys;
    }
    LossKeepsTables(n, c, s, losses, Contents.TxsOf(rows), s');
    assert s'.Moment() == s.Moment();
  }

  lemma SameTables(n: Node, c: Setup, s: System, s': System)
    requires TablesHold(n, c, s) && s.delivered <= s'.delivered && s'.committed == s.committed
    requires s'.Content() == s.Content() && s'.Moment() == s.Moment() && s'.touched == s.touched
    ensures TablesHold(n, c, s')
  {
    forall i, t | 0 <= i < s'.committed && t in n.contents(s'.delivered[i]) ensures RowsStored(n, s', s'.delivered[i], t) {
      assert RowsStored(n, s, s.delivered[i], t);
    }
  }

  lemma StepKeepsTables(n: Node, c: Setup, s: System, a: Action, s': System)
    requires TablesHold(n, c, s) && Step(n, c, s, a, s')
    ensures TablesHold(n, c, s')
  {
    match a
    case CommitTransactions(upTo, stored) => CommitKeepsTables(n, c, s, upTo, stored, s');
    case Poll(reply, fork, m) => PollKeepsTables(n, c, s, reply, fork, m, s');
    case Prune(chunks) => PruneKeepsTables(n, c, s, chunks, s');
    case PruneRelations(rows) => PruneRelationsKeepsTables(n, c, s, rows, s');
    case _ => SameTables(n, c, s, s');
  }

  // ---- What records vouch for ----

  /** The block was delivered, and the transaction processor has committed it. */
  predicate BlockCommitted(delivered: seq<Hash>, committed: nat, h: Hash) {
    exists i :: 0 <= i < committed && i < |delivered| && delivered[i] == h
  }

  predicate Vouched(s: System, r: CheckpointBlock) {
    match r.origin
    case Transactions => BlockCommitted(s.delivered, s.committed, r.hash)
    case Vcp => r.hash in s.reached
    case _ => true
  }

  /** The candidate comes from the chain processor, or from the block processor when the chain is not processed. */
  predicate CandidateVouched(c: Config, s: System) {
    s.gate.candidate.Some? ==>
      var k := s.gate.candidate.value;
      && Vouched(s, k)
      && (k.origin == Vcp || (k.origin == Blocks && c.disableChain))
      && (s.gate.okTxs && !c.disableTransactions ==> BlockCommitted(s.delivered, s.committed, k.hash))
  }

  ghost predicate RecordsHold(c: Config, s: System) {
    && (forall h :: h in s.txsOutbox ==> BlockCommitted(s.delivered, s.committed, h))
    && (s.chainOutbox.Some? ==> s.chainOutbox.value in s.reached)
    && (forall r :: r in s.queue ==> Vouched(s, r))
    && (forall h :: h in s.gate.txs ==> BlockCommitted(s.delivered, s.committed, h))
    && CandidateVouched(c, s)
  }

  /** Nothing that was delivered, committed or reached is taken back. */
  predicate Extends(s: System, s': System) {
    s.delivered <= s'.delivered && s.committed <= s'.committed && s.reached <= s'.reached
  }

  lemma ExtendsCommitted(s: System, s': System, h: Hash)
    requires Extends(s, s') && BlockCommitted(s.delivered, s.committed, h)
    ensures BlockCommitted(s'.delivered, s'.committed, h)
  {
    var i :| 0 <= i < s.committed && i < |s.delivered| && s.delivered[i] == h;
    assert s'.delivered[i] == h;
  }

  lemma ExtendsVouched(s: System, s': System, r: CheckpointBlock)
    requires Extends(s, s') && Vouched(s, r)
    ensures Vouched(s', r)
  {
    if r.origin == Transactions {
      ExtendsCommitted(s, s', r.hash);
    }
  }

  /** A processor's step keeps what was vouched for; only its own outbox and the end of the queue need a look. */
  lemma ProcessorKeepsRecords(c: Config, s: System, s': System)
    requires RecordsHold(c, s) && Extends(s, s') && s'.gate == s.gate
    requires forall h :: h in s'.txsOutbox && h !in s.txsOutbox ==> BlockCommitted(s'.delivered, s'.committed, h)
    requires s'.chainOutbox.Some? && s'.chainOutbox != s.chainOutbox ==> s'.chainOutbox.value in s'.reached
    requires forall r :: r in s'.queue && r !in s.queue ==> Vouched(s', r)
    ensures RecordsHold(c, s')
  {
    forall h | h in s.txsOutbox || h in s.gate.txs ensures BlockCommitted(s'.delivered, s'.committed, h) {
      ExtendsCommitted(s, s', h);
    }
    forall r | r in s.queue ensures Vouched(s', r) {
      ExtendsVouched(s, s', r);
    }
    if s.gate.candidate.Some? {
      ExtendsVouched(s, s', s.gate.candidate.value);
      if s.gate.okTxs && !c.disableTransactions {
        ExtendsCommitted(s, s', s.gate.candidate.value.hash);
      }
    }
  }

  lemma CommittedBlocks(delivered: seq<Hash>, from: nat, upTo: nat)
    requires from <= upTo <= |delivered|
    ensures forall h :: h in delivered[from..upTo] ==> BlockCommitted(delivered, upTo, h)
  {
    forall h | h in delivered[from..upTo] ensures BlockCommitted(delivered, upTo, h) {
      var i :| from <= i < upTo && delivered[i] == h;
    }
  }

  /** The gate takes over what the popped record vouches for. */
  lemma TurnKeepsRecords(c: Config, s: System, clock: Clock)
    requires RecordsHold(c, s)
    ensures RecordsHold(c, Turned(c, s, clock))
  {
    var s', r := Turned(c, s, clock), PoppedBy(s);
    assert r.Some? ==> r.value in s.queue;
    var popped := Popped(c, s.gate, r, clock.popped);
    assert CandidateVouched(c, s.(gate := popped));
    assert forall h :: h in popped.txs ==> BlockCommitted(s.delivered, s.committed, h);
    forall q | q in s.queue ensures Vouched(s', q) {
      ExtendsVouched(s, s', q);
    }
  }

  lemma StepKeepsRecords(n: Node, c: Setup, s: System, a: Action, s': System)
    requires RecordsHold(c.gate, s) && Step(n, c, s, a, s')
    ensures RecordsHold(c.gate, s')
  {
    match a
    case CommitTransactions(upTo, _) =>
      CommittedBlocks(s.delivered, s.committed, upTo);
      ProcessorKeepsRecords(c.gate, s, s');
    case Turn(clock) =>
      TurnKeepsRecords(c.gate, s, clock);
    case _ =>
      ProcessorKeepsRecords(c.gate, s, s');
  }

  // ---- Whole runs ----

  /** A start: nothing is delivered yet, and the acceptance rows are those of the chain that ends at the start hash. */
  ghost predicate Starts(n: Node, c: Setup, s: System) {
    && s.delivered == [] && s.committed == 0 && s.txsOutbox == [] && s.chainOutbox == None && s.queue == [] && s.reached == {}
    && s.gate.candidate == None && s.gate.txs == {} && s.gate.blocks == {}
    && TablesHold(n, c, s)
  }

  ghost predicate Run(n: Node, c: Setup, states: seq<System>, actions: seq<Action>) {
    && |states| == |actions| + 1 && Starts(n, c, states[0])
    && forall k :: 0 <= k < |actions| ==> Step(n, c, states[k], actions[k], states[k + 1])
  }

  lemma {:induction false} RunKeeps(n: Node, c: Setup, states: seq<System>, actions: seq<Action>, k: nat)
    requires Run(n, c, states, actions) && k < |states|
    ensures TablesHold(n, c, states[k]) && RecordsHold(c.gate, states[k])
  {
    if k > 0 {
      RunKeeps(n, c, states, actions, k - 1);
      assert Step(n, c, states[k - 1], actions[k - 1], states[k]);
      StepKeepsTables(n, c, states[k - 1], actions[k - 1], states[k]);
      StepKeepsRecords(n, c, states[k - 1], actions[k - 1], states[k]);
    }
  }

  lemma PollReaches(n: Node, c: Setup, s: System, a: Action, s': System, h: Hash)
    requires TablesHold(n, c, s) && TablesHold(n, c, s') && Step(n, c, s, a, s') && c.chain.acceptance
    requires h in s'.reached && h !in s.reached
    ensures s'.chain != [] && s'.chain[|s'.chain| - 1] == h
    ensures ChainIndex.Indexed(s'.store.acceptances, s'.chain, n.accepts, n.imports, s'.pruned)
  {
  }

  /** Every start hash was reached by a poll of the run, which left the acceptance rows of the chain that ends there. */
  lemma {:induction false} ReachedWasIndexed(n: Node, c: Setup, states: seq<System>, actions: seq<Action>, k: nat, h: Hash) returns (j: nat)
    requires Run(n, c, states, actions) && k < |states| && h in states[k].reached && c.chain.acceptance
    ensures j <= k && states[j].chain != [] && states[j].chain[|states[j].chain| - 1] == h
    ensures ChainIndex.Indexed(states[j].store.acceptances, states[j].chain, n.accepts, n.imports, states[j].pruned)
  {
    assert k > 0;
    assert Step(n, c, states[k - 1], actions[k - 1], states[k]);
    if h in states[k - 1].reached {
      j := ReachedWasIndexed(n, c, states, actions, k - 1, h);
    } else {
      RunKeeps(n, c, states, actions, k - 1);
      RunKeeps(n, c, states, actions, k);
      PollReaches(n, c, states[k - 1], actions[k - 1], states[k], h);
      j := k;
    }
  }

  /** What the chunks touch is in them, or an accepted transaction of theirs spends an output of it. */
  lemma TouchedByAre(s: Store, chunks: seq<set<TxId>>, t: TxId)
    requires t in TouchedBy(s, chunks)
    ensures (exists k :: 0 <= k < |chunks| && t in chunks[k]) ||
            exists k, i :: 0 <= k < |chunks| && i in s.inputs && i.tx in chunks[k] && i.tx in s.acceptances && s.inputs[i].previous.tx == t
  {
    Pruning.UnionCovers(chunks);
    if t !in Pruning.Union(chunks) {
      var o :| o in PruningTheorems.Seen(s, chunks) && o.tx == t;
      PruningTheorems.SeenIsSpent(s, chunks);
      var i :| i in s.inputs && i.tx in Pruning.Union(chunks) * s.acceptances.Keys && s.inputs[i].previous == o;
    }
  }

  /** Only pruning touches transactions: a chunk of a pruning run held it or spent an output of it, or a relation of it went. */
  lemma {:induction false} TouchedWasPruned(n: Node, c: Setup, states: seq<System>, actions: seq<Action>, k: nat, t: TxId)
    requires Run(n, c, states, actions) && k < |states| && t in states[k].touched && t !in states[0].touched
    ensures exists j ::
      0 <= j < k && ((actions[j].Prune? && t in TouchedBy(states[j].store, actions[j].chunks))
                     || (actions[j].PruneRelations? && exists b :: (b, t) in actions[j].rows))
    decreases k
  {
    if t in states[k - 1].touched {
      TouchedWasPruned(n, c, states, actions, k - 1, t);
    } else {
      assert Step(n, c, states[k - 1], actions[k - 1], states[k]);
    }
  }

  /** The gate saves the block in this turn, and not by force. */
  predicate SavesUnforced(c: Config, s: System, clock: Clock, k: CheckpointBlock) {
    Round(c, s.gate, PoppedBy(s), clock).1 == Outcome.Saved(k, false)
  }

  lemma SavedIsVouched(c: Config, s: System, clock: Clock, k: CheckpointBlock)
    requires RecordsHold(c, s) && SavesUnforced(c, s, clock, k) && !c.disableChain && !c.disableTransactions
    ensures k.hash in s.reached && BlockCommitted(s.delivered, s.committed, k.hash)
  {
    var r := PoppedBy(s);
    assert r.Some? ==> r.value in s.queue;
    assert CandidateVouched(c, s.(gate := Popped(c, s.gate, r, clock.popped)));
  }

  /**
   * In every interleaving, when the gate saves a block without force: all rows of the transactions in the blocks delivered
   * up to it are stored, unless pruned; the acceptance rows are those of the tracked chain; and some poll of the run had
   * left those of the chain that ends at the block.
   */
  lemma UnforcedSaveIsSafe(n: Node, c: Setup, states: seq<System>, actions: seq<Action>, m: nat, k: CheckpointBlock) returns (i: nat, j: nat)
    requires Run(n, c, states, actions) && m < |actions| && actions[m].Turn? && SavesUnforced(c.gate, states[m], actions[m].clock, k)
    requires AllEnabled(c)
    ensures i < states[m].committed <= |states[m].delivered| && states[m].delivered[i] == k.hash
    ensures forall b, t :: b in states[m].delivered[..i + 1] && t in n.contents(b) ==> RowsStored(n, states[m], b, t)
    ensures ChainIndex.Tracks(c.chain, states[m].Moment(), n.origin, n.imports, n.accepts)
    ensures j <= m && states[j].chain != [] && states[j].chain[|states[j].chain| - 1] == k.hash
    ensures ChainIndex.Indexed(states[j].store.acceptances, states[j].chain, n.accepts, n.imports, states[j].pruned)
  {
    RunKeeps(n, c, states, actions, m);
    SavedIsVouched(c.gate, states[m], actions[m].clock, k);
    i :| 0 <= i < states[m].committed && i < |states[m].delivered| && states[m].delivered[i] == k.hash;
    j := ReachedWasIndexed(n, c, states, actions, m, k.hash);
  }

  /** A candidate that is pending before a step is pending after it, or the gate saves it in this step. */
  lemma PendingIsNotReplaced(n: Node, c: Setup, s: System, a: Action, s': System)
    requires Step(n, c, s, a, s') && s.gate.candidate.Some?
    ensures s'.gate.candidate == s.gate.candidate
         || (a.Turn? && s'.gate.candidate == None
             && exists forced :: Round(c.gate, s.gate, PoppedBy(s), a.clock).1 == Outcome.Saved(s.gate.candidate.value, forced))
  {
    if a.Turn? {
      PendingCandidateStays(c.gate, s.gate, PoppedBy(s), a.clock);
    }
  }
}
