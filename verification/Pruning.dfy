/** Transaction pruning: database/src/query/delete.rs, prune_transactions and prune_transactions_chunk. */
module Pruning {
  import opened Database

  // ---- One chunk ----

  function ExpiredIn(transactions: map<TxId, Option<int>>, cutoff: int): set<TxId> {
    set t | t in transactions && transactions[t].Some? && transactions[t].value < cutoff
  }

  function WithoutInputsOf(inputs: map<InputId, Input>, txs: set<TxId>): map<InputId, Input> {
    map i | i in inputs && i.tx !in txs :: inputs[i]
  }

  function WithoutOutputsOf(outputs: map<Outpoint, Output>, txs: set<TxId>): map<Outpoint, Output> {
    map o | o in outputs && o.tx !in txs :: outputs[o]
  }

  function WithoutOutputs(outputs: map<Outpoint, Output>, spent: set<Outpoint>): map<Outpoint, Output> {
    map o | o in outputs && o !in spent :: outputs[o]
  }

  function Elements(s: seq<Outpoint>): set<Outpoint> {
    set o | o in s
  }

  /** The outpoints that the inputs of txs spend. */
  function Spends(inputs: map<InputId, Input>, txs: set<TxId>): set<Outpoint> {
    set i | i in inputs && i.tx in txs :: inputs[i].previous
  }

  /** The transactions with an outpoint in spent that have no output left. */
  function FullySpent(outputs: map<Outpoint, Output>, spent: set<Outpoint>): set<TxId> {
    (set o | o in spent :: o.tx) - (set o | o in outputs :: o.tx)
  }

  /** What is left once txs are deleted and the outpoints in seen are treated as spent. */
  function Residue(s: Store, txs: set<TxId>, seen: set<Outpoint>): Store {
    var outputs := WithoutOutputs(WithoutOutputsOf(s.outputs, txs - s.acceptances.Keys), seen);
    Store(s.transactions - txs,
          WithoutInputsOf(s.inputs, txs),
          outputs,
          s.acceptances - FullySpent(outputs, seen))
  }

  /** One chunk: the expired transactions go, and what the accepted ones among them spend goes with them. */
  function PruneChunk(s: Store, expired: set<TxId>): Store {
    Residue(s, expired, Spends(s.inputs, expired * s.acceptances.Keys))
  }

  /** The state after the chunks ran in turn. */
  function PruneChunks(s: Store, chunks: seq<set<TxId>>): Store {
    if chunks == [] then s else PruneChunk(PruneChunks(s, chunks[..|chunks| - 1]), chunks[|chunks| - 1])
  }

  function Union(chunks: seq<set<TxId>>): set<TxId> {
    if chunks == [] then {} else Union(chunks[..|chunks| - 1]) + chunks[|chunks| - 1]
  }

  predicate Disjoint(chunks: seq<set<TxId>>) {
    forall i, j :: 0 <= i < j < |chunks| ==> chunks[i] !! chunks[j]
  }

  function RowCount(s: Store): nat {
    |s.transactions| + |s.inputs| + |s.outputs| + |s.acceptances|
  }

  /** A chunk deletes the expired transactions with their inputs. */
  lemma ChunkInputs(s: Store, expired: set<TxId>, s': Store, i: InputId)
    requires s' == PruneChunk(s, expired)
    ensures s'.transactions == s.transactions - expired
    ensures i in s'.inputs <==> i in s.inputs && i.tx !in expired
    ensures i in s'.inputs ==> s'.inputs[i] == s.inputs[i]
  {
  }

  /** An output goes if its transaction is expired and was not accepted, or if an expired, accepted transaction spends it. */
  lemma ChunkOutputs(s: Store, expired: set<TxId>, s': Store, o: Outpoint)
    requires s' == PruneChunk(s, expired)
    ensures o in s'.outputs <==>
      && o in s.outputs && (o.tx in expired ==> o.tx in s.acceptances)
      && forall i :: i in s.inputs && i.tx in expired && i.tx in s.acceptances ==> s.inputs[i].previous != o
    ensures o in s'.outputs ==> s'.outputs[o] == s.outputs[o]
  {
  }

  /** An acceptance goes if an expired, accepted transaction spends an output of its transaction and none of them is left. */
  lemma ChunkAcceptances(s: Store, expired: set<TxId>, s': Store, t: TxId)
    requires s' == PruneChunk(s, expired)
    ensures t in s'.acceptances <==>
      && t in s.acceptances
      && ((exists o :: o in s'.outputs && o.tx == t) ||
          forall i :: i in s.inputs && i.tx in expired && i.tx in s.acceptances ==> s.inputs[i].previous.tx != t)
    ensures t in s'.acceptances ==> s'.acceptances[t] == s.acceptances[t]
  {
    var spent := Spends(s.inputs, expired * s.acceptances.Keys);
    assert t in FullySpent(s'.outputs, spent) <==>
      (exists o :: o in spent && o.tx == t) && !exists o :: o in s'.outputs && o.tx == t;
    assert (exists o :: o in spent && o.tx == t) <==>
      exists i :: i in s.inputs && i.tx in expired && i.tx in s.acceptances && s.inputs[i].previous.tx == t by {
      if i :| i in s.inputs && i.tx in expired && i.tx in s.acceptances && s.inputs[i].previous.tx == t {
        assert s.inputs[i].previous in spent;
      }
    }
  }

  // ---- The statements ----

  /** LIMIT without ORDER BY: any rows, as many as the limit and the table allow. */
  ghost predicate LimitedPick(expired: set<TxId>, all: set<TxId>, limit: nat) {
    expired <= all && |expired| <= limit && (|expired| == limit || expired == all)
  }

  method DeleteExpired(db: Db, cutoff: int, limit: nat) returns (expired: set<TxId>)
    modifies db`transactions
    ensures LimitedPick(expired, ExpiredIn(old(db.transactions), cutoff), limit)
    ensures |expired| <= limit
    ensures forall t :: t in expired ==>
      t in old(db.transactions) && old(db.transactions)[t].Some? && old(db.transactions)[t].value < cutoff
    ensures |expired| < limit ==> forall t :: t in db.transactions && db.transactions[t].Some? ==> cutoff <= db.transactions[t].value
    ensures db.transactions == old(db.transactions) - expired
    ensures |expired| == |old(db.transactions)| - |db.transactions|
  {
    var candidates := ExpiredIn(db.transactions, cutoff);
    ghost var all := candidates;
    expired := {};
    while candidates != {} && |expired| < limit
      invariant candidates !! expired && candidates + expired == all
      invariant |expired| <= limit
      decreases candidates
    {
      var t :| t in candidates;
      expired, candidates := expired + {t}, candidates - {t};
    }
    SizeAfterDelete(db.transactions, expired);
    db.transactions := db.transactions - expired;
  }

  lemma SizeAfterDelete<K, V>(m: map<K, V>, ks: set<K>)
    requires ks <= m.Keys
    ensures |m - ks| == |m| - |ks|
  {
  }

  method DeleteInputs(db: Db, txs: set<TxId>) returns (rows: nat)
    modifies db`inputs
    ensures db.inputs == WithoutInputsOf(old(db.inputs), txs)
    ensures rows == |old(db.inputs)| - |db.inputs|
  {
    var kept := WithoutInputsOf(db.inputs, txs);
    SubmapSize(kept, db.inputs);
    rows := |db.inputs| - |kept|;
    db.inputs := kept;
  }

  /** DELETE ... RETURNING the previous outpoints: one entry per deleted row. */
  method DeleteInputsReturning(db: Db, txs: set<TxId>) returns (spent: seq<Outpoint>)
    modifies db`inputs
    ensures db.inputs == WithoutInputsOf(old(db.inputs), txs)
    ensures Elements(spent) == Spends(old(db.inputs), txs)
    ensures |spent| == |old(db.inputs)| - |db.inputs|
  {
    var matching := set i | i in db.inputs && i.tx in txs;
    spent := PreviousOutpoints(db.inputs, matching);
    SizeAfterDelete(db.inputs, matching);
    assert db.inputs - matching == WithoutInputsOf(db.inputs, txs);
    assert Spends(db.inputs, txs) == set i | i in matching :: db.inputs[i].previous;
    db.inputs := db.inputs - matching;
  }

  method PreviousOutpoints(inputs: map<InputId, Input>, matching: set<InputId>) returns (spent: seq<Outpoint>)
    requires matching <= inputs.Keys
    ensures Elements(spent) == set i | i in matching :: inputs[i].previous
    ensures |spent| == |matching|
  {
    spent := [];
    var left := matching;
    while left != {}
      invariant left <= matching
      invariant forall i :: i in matching && i !in left ==> inputs[i].previous in spent
      invariant forall o :: o in spent ==> exists i :: i in matching && inputs[i].previous == o
      invariant |spent| == |matching| - |left|
      decreases left
    {
      var i :| i in left;
      left, spent := left - {i}, spent + [inputs[i].previous];
    }
  }

  method DeleteOutputs(db: Db, txs: set<TxId>) returns (rows: nat)
    modifies db`outputs
    ensures db.outputs == WithoutOutputsOf(old(db.outputs), txs)
    ensures rows == |old(db.outputs)| - |db.outputs|
  {
    var kept := WithoutOutputsOf(db.outputs, txs);
    SubmapSize(kept, db.outputs);
    rows := |db.outputs| - |kept|;
    db.outputs := kept;
  }

  method DeleteSpentOutputs(db: Db, spent: seq<Outpoint>) returns (rows: nat)
    modifies db`outputs
    ensures db.outputs == WithoutOutputs(old(db.outputs), Elements(spent))
    ensures rows == |old(db.outputs)| - |db.outputs|
  {
    var kept := WithoutOutputs(db.outputs, Elements(spent));
    SubmapSize(kept, db.outputs);
    rows := |db.outputs| - |kept|;
    db.outputs := kept;
  }

  method FindFullySpent(db: Db, spent: seq<Outpoint>) returns (fullySpent: set<TxId>)
    ensures fullySpent == FullySpent(db.outputs, Elements(spent))
  {
    var possiblySpent := set o | o in spent :: o.tx;
    var unspent := set o | o in db.outputs && o.tx in possiblySpent :: o.tx;
    fullySpent := possiblySpent - unspent;
    assert possiblySpent == set o | o in Elements(spent) :: o.tx;
  }

  method DeleteAcceptances(db: Db, txs: set<TxId>) returns (rows: nat)
    modifies db`acceptances
    ensures db.acceptances == old(db.acceptances) - txs
    ensures rows == |old(db.acceptances)| - |db.acceptances|
  {
    SubmapSize(db.acceptances - txs, db.acceptances);
    rows := |db.acceptances| - |db.acceptances - txs|;
    db.acceptances := db.acceptances - txs;
  }

  // ---- prune_transactions_chunk ----

  method DeleteRejected(db: Db, rejected: set<TxId>) returns (rows: nat)
    modifies db`inputs, db`outputs
    ensures db.inputs == WithoutInputsOf(old(db.inputs), rejected)
    ensures db.outputs == WithoutOutputsOf(old(db.outputs), rejected)
    ensures rows == |old(db.inputs)| - |db.inputs| + |old(db.outputs)| - |db.outputs|
  {
    var inputs := DeleteInputs(db, rejected);
    var outputs := DeleteOutputs(db, rejected);
    rows := inputs + outputs;
  }

  method DeleteSpent(db: Db, accepted: set<TxId>) returns (rows: nat)
    modifies db`inputs, db`outputs, db`acceptances
    ensures db.inputs == WithoutInputsOf(old(db.inputs), accepted)
    ensures db.outputs == WithoutOutputs(old(db.outputs), Spends(old(db.inputs), accepted))
    ensures db.acceptances == old(db.acceptances) - FullySpent(db.outputs, Spends(old(db.inputs), accepted))
    ensures rows == |old(db.inputs)| - |db.inputs| + |old(db.outputs)| - |db.outputs|
                    + |old(db.acceptances)| - |db.acceptances|
  {
    var spentTxOutputs := DeleteInputsReturning(db, accepted);
    var outputs := DeleteSpentOutputs(db, spentTxOutputs);
    var fullySpentTxids := FindFullySpent(db, spentTxOutputs);
    var acceptances := DeleteAcceptances(db, fullySpentTxids);
    rows := |spentTxOutputs| + outputs + acceptances;
  }

  method PruneTransactionsChunk(db: Db, cutoff: int, batchSize: nat) returns (totalRowsAffected: nat, ghost expired: set<TxId>)
    modifies db`transactions, db`inputs, db`outputs, db`acceptances
    ensures LimitedPick(expired, ExpiredIn(old(db.transactions), cutoff), batchSize)
    ensures |expired| <= batchSize
    ensures db.Tables() == PruneChunk(old(db.Tables()), expired)
    ensures totalRowsAffected == RowCount(old(db.Tables())) - RowCount(db.Tables())
    ensures |db.transactions| == |old(db.transactions)| - |expired| && |expired| <= totalRowsAffected
    ensures expired == {} ==> totalRowsAffected == 0
  {
    ghost var s := db.Tables();
    var expiredTxids := DeleteExpired(db, cutoff, batchSize);
    expired := expiredTxids;
    var acceptedTxids := expiredTxids * db.acceptances.Keys;
    var rejectedTxids := expiredTxids - acceptedTxids;
    var rejectedRows := DeleteRejected(db, rejectedTxids);
    ghost var s1 := db.Tables();
    var spentRows := DeleteSpent(db, acceptedTxids);
    totalRowsAffected := |expiredTxids| + rejectedRows + spentRows;
    StagesMakeChunk(s, expired, acceptedTxids, rejectedTxids, s1, Spends(s1.inputs, acceptedTxids), db.Tables());
  }

  lemma StagesMakeChunk(s: Store, expired: set<TxId>, accepted: set<TxId>, rejected: set<TxId>,
                        s1: Store, spent: set<Outpoint>, s': Store)
    requires accepted == expired * s.acceptances.Keys && rejected == expired - accepted
    requires s1 == Store(s.transactions - expired, WithoutInputsOf(s.inputs, rejected), WithoutOutputsOf(s.outputs, rejected),
                         s.acceptances)
    requires spent == Spends(s1.inputs, accepted)
    requires s'.transactions == s1.transactions
    requires s'.inputs == WithoutInputsOf(s1.inputs, accepted)
    requires s'.outputs == WithoutOutputs(s1.outputs, spent)
    requires s'.acceptances == s.acceptances - FullySpent(s'.outputs, spent)
    ensures s' == PruneChunk(s, expired)
    ensures expired == {} ==> s' == s
  {
    assert expired - accepted == expired - s.acceptances.Keys;
    StagedInputs(s.inputs, expired, accepted);
    if expired == {} {
      NothingExpired(s);
    }
  }

  lemma StagedInputs(inputs: map<InputId, Input>, expired: set<TxId>, accepted: set<TxId>)
    requires accepted <= expired
    ensures WithoutInputsOf(WithoutInputsOf(inputs, expired - accepted), accepted) == WithoutInputsOf(inputs, expired)
    ensures Spends(WithoutInputsOf(inputs, expired - accepted), accepted) == Spends(inputs, accepted)
  {
  }

  lemma NothingExpired(s: Store)
    ensures PruneChunk(s, {}) == s
  {
  }

  // ---- prune_transactions ----

  /** s is reached from s0 by the chunks, which are disjoint picks of what was expired and is not any more. */
  ghost predicate Pruned(s0: Store, cutoff: int, batchSize: nat, chunks: seq<set<TxId>>, s: Store) {
    && s == PruneChunks(s0, chunks)
    && Disjoint(chunks)
    && (forall c :: c in chunks ==> 0 < |c| <= batchSize)
    && Union(chunks) + ExpiredIn(s.transactions, cutoff) == ExpiredIn(s0.transactions, cutoff)
    && Union(chunks) !! ExpiredIn(s.transactions, cutoff)
  }

  /**
   * Prunes chunk by chunk until no row is affected or a chunk fails, which leaves the chunks before it committed;
   * chunks records which transactions each LIMIT picked.
   */
  method PruneTransactions(db: Db, cutoff: int, batchSize: nat, failure: Option<nat>)
    returns (ok: bool, totalRowsAffected: nat, ghost chunks: seq<set<TxId>>)
    modifies db`transactions, db`inputs, db`outputs, db`acceptances
    ensures Pruned(old(db.Tables()), cutoff, batchSize, chunks, db.Tables())
    ensures forall t :: t in db.transactions ==> t in old(db.transactions) && db.transactions[t] == old(db.transactions)[t]
    ensures forall t :: t in old(db.transactions) && (old(db.transactions)[t].Some? ==> cutoff <= old(db.transactions)[t].value) ==>
      t in db.transactions
    ensures ok && 0 < batchSize ==>
      forall t :: t in db.transactions && db.transactions[t].Some? ==> cutoff <= db.transactions[t].value
    ensures ok ==> (ExpiredIn(db.transactions, cutoff) == {} <==> 0 < batchSize || ExpiredIn(old(db.transactions), cutoff) == {})
    ensures !ok ==> failure == Some(|chunks|)
    ensures totalRowsAffected == RowCount(old(db.Tables())) - RowCount(db.Tables())
  {
    ok, totalRowsAffected, chunks := true, 0, [];
    var calls := 0;
    ghost var s0, s := db.Tables(), db.Tables();
    NothingPruned(s0, cutoff, batchSize);
    while true
      invariant s == db.Tables() && Pruned(s0, cutoff, batchSize, chunks, s)
      invariant calls == |chunks|
      invariant totalRowsAffected == RowCount(s0) - RowCount(s)
      decreases |db.transactions|
    {
      if failure == Some(calls) {
        PrunedRows(s0, cutoff, batchSize, chunks, s);
        return false, totalRowsAffected, chunks;
      }
      var rowsAffected, expired := PruneTransactionsChunk(db, cutoff, batchSize);
      if rowsAffected == 0 {
        NoneLeft(s0, cutoff, batchSize, chunks, s, expired);
        break;
      }
      ScheduleGrows(s0, cutoff, batchSize, chunks, s, expired);
      totalRowsAffected, chunks, s := totalRowsAffected + rowsAffected, chunks + [expired], PruneChunk(s, expired);
      calls := calls + 1;
    }
    PrunedRows(s0, cutoff, batchSize, chunks, s);
  }

  /** The loop deletes no transaction but those whose time is known and before the cut-off. */
  lemma PrunedRows(s0: Store, cutoff: int, batchSize: nat, chunks: seq<set<TxId>>, s: Store)
    requires Pruned(s0, cutoff, batchSize, chunks, s)
    ensures forall t :: t in s.transactions ==> t in s0.transactions && s.transactions[t] == s0.transactions[t]
    ensures forall t :: t in s0.transactions && t !in s.transactions ==>
      s0.transactions[t].Some? && s0.transactions[t].value < cutoff
  {
    PrunedTransactions(s0, chunks);
  }

  lemma {:induction false} PrunedTransactions(s: Store, chunks: seq<set<TxId>>)
    ensures PruneChunks(s, chunks).transactions == s.transactions - Union(chunks)
  {
    if chunks != [] {
      PrunedTransactions(s, chunks[..|chunks| - 1]);
    }
  }

  /** The same, from named tables to named tables. */
  method PruneFrom(db: Db, cutoff: int, batchSize: nat, failure: Option<nat>, ghost s: Store)
    returns (ok: bool, rows: nat, ghost s': Store, ghost chunks: seq<set<TxId>>)
    requires db.Tables() == s
    modifies db`transactions, db`inputs, db`outputs, db`acceptances
    ensures db.Tables() == s' && Pruned(s, cutoff, batchSize, chunks, s')
    ensures ok && 0 < batchSize ==> ExpiredIn(s'.transactions, cutoff) == {}
    ensures ok && 0 < batchSize ==>
      forall t :: t in s'.transactions && s'.transactions[t].Some? ==> cutoff <= s'.transactions[t].value
    ensures !ok ==> failure == Some(|chunks|)
  {
    ok, rows, chunks := PruneTransactions(db, cutoff, batchSize, failure);
    s' := db.Tables();
  }

  lemma NothingPruned(s0: Store, cutoff: int, batchSize: nat)
    ensures Pruned(s0, cutoff, batchSize, [], s0)
  {
  }

  lemma OneChunkMore(s: Store, chunks: seq<set<TxId>>, next: set<TxId>)
    ensures PruneChunks(s, chunks + [next]) == PruneChunk(PruneChunks(s, chunks), next)
    ensures Union(chunks + [next]) == Union(chunks) + next
  {
    var longer := chunks + [next];
    assert longer[..|longer| - 1] == chunks;
  }

  lemma ChunkSizesGrow(chunks: seq<set<TxId>>, next: set<TxId>, batchSize: nat)
    requires (forall c :: c in chunks ==> 0 < |c| <= batchSize) && 0 < |next| <= batchSize
    ensures forall c :: c in chunks + [next] ==> 0 < |c| <= batchSize
  {
    assert forall c :: c in chunks + [next] ==> c in chunks || c == next;
  }

  lemma PickedMoves(done: set<TxId>, left: set<TxId>, all: set<TxId>, next: set<TxId>)
    requires done + left == all && done !! left && next <= left
    ensures (done + next) + (left - next) == all && (done + next) !! (left - next) && done !! next
  {
  }

  lemma ScheduleGrows(s0: Store, cutoff: int, batchSize: nat, chunks: seq<set<TxId>>, s: Store, expired: set<TxId>)
    requires Pruned(s0, cutoff, batchSize, chunks, s)
    requires expired != {} && expired <= ExpiredIn(s.transactions, cutoff) && |expired| <= batchSize
    ensures Pruned(s0, cutoff, batchSize, chunks + [expired], PruneChunk(s, expired))
  {
    PickedMoves(Union(chunks), ExpiredIn(s.transactions, cutoff), ExpiredIn(s0.transactions, cutoff), expired);
    OneChunkMore(s0, chunks, expired);
    ChunkSizesGrow(chunks, expired, batchSize);
    DisjointGrows(chunks, expired);
    ExpiredAfter(s.transactions, cutoff, expired);
    assert PruneChunk(s, expired).transactions == s.transactions - expired;
  }

  lemma DisjointGrows(chunks: seq<set<TxId>>, next: set<TxId>)
    requires Disjoint(chunks) && Union(chunks) !! next
    ensures Disjoint(chunks + [next])
  {
    forall i | 0 <= i < |chunks| ensures chunks[i] !! next {
      UnionCovers(chunks);
      assert chunks[i] <= Union(chunks);
    }
  }

  lemma ExpiredAfter(transactions: map<TxId, Option<int>>, cutoff: int, expired: set<TxId>)
    ensures ExpiredIn(transactions - expired, cutoff) == ExpiredIn(transactions, cutoff) - expired
  {
  }

  /** The round that affects no row leaves the tables alone, and something expired remains only without room in a chunk. */
  lemma NoneLeft(s0: Store, cutoff: int, batchSize: nat, chunks: seq<set<TxId>>, s: Store, expired: set<TxId>)
    requires Pruned(s0, cutoff, batchSize, chunks, s)
    requires LimitedPick(expired, ExpiredIn(s.transactions, cutoff), batchSize) && expired == {}
    ensures PruneChunk(s, expired) == s
    ensures ExpiredIn(s.transactions, cutoff) == {} <==> 0 < batchSize || ExpiredIn(s0.transactions, cutoff) == {}
  {
    NothingExpired(s);
    if chunks == [] {
      assert s == s0;
    } else {
      assert chunks[0] in chunks;
    }
  }

  lemma {:induction false} UnionCovers(chunks: seq<set<TxId>>)
    ensures forall t :: t in Union(chunks) <==> exists i :: 0 <= i < |chunks| && t in chunks[i]
  {
    if chunks != [] {
      var last := |chunks| - 1;
      UnionCovers(chunks[..last]);
      assert forall i :: 0 <= i < last ==> chunks[..last][i] == chunks[i];
      assert Union(chunks) == Union(chunks[..last]) + chunks[last];
    }
  }
}
