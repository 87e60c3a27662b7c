/** The transaction processor: collects the transactions of popped blocks, skipping cached ones, and commits them in batches. */
module TransactionProcessor {
  import opened Database
  import opened Inserts
  import opened Chain
  import opened InputResolution
  import opened Contents

  datatype Tx = Tx(id: TxId, body: Body)

  datatype TransactionData = TransactionData(block: Hash, time: int, txs: seq<Tx>)

  /** What is collected for the next commit. */
  datatype Pending = Pending(transactions: seq<(TxId, Option<int>)>, inputs: seq<InputRow>, outputs: seq<OutputRow>,
                             addresses: set<(Address, TxId)>, blockTx: seq<(Hash, TxId)>)

  const NOTHING: Pending := Pending([], [], [], {}, [])

  // ---- Collecting ----

  function InputRows(tx: Tx): seq<InputRow> {
    seq(|tx.body.inputs|, k requires 0 <= k < |tx.body.inputs| => (InputId(tx.id, k), Input(tx.body.inputs[k], None, None)))
  }

  function OutputRows(tx: Tx): seq<OutputRow> {
    seq(|tx.body.outputs|, k requires 0 <= k < |tx.body.outputs| => (Outpoint(tx.id, k), tx.body.outputs[k]))
  }

  function AddressRows(tx: Tx): set<(Address, TxId)> {
    set k | 0 <= k < |tx.body.outputs| && tx.body.outputs[k].address.Some? :: (tx.body.outputs[k].address.value, tx.id)
  }

  function Collected(p: Pending, time: int, tx: Tx): Pending {
    p.(transactions := p.transactions + [(tx.id, Some(time))], inputs := p.inputs + InputRows(tx),
       outputs := p.outputs + OutputRows(tx), addresses := p.addresses + AddressRows(tx))
  }

  function RowSet(rows: seq<(Hash, TxId)>): set<(Hash, TxId)> {
    set row | row in rows
  }

  function UnresolvedInput(body: TxId -> Body, i: InputId): Input
    requires IsInput(body, i)
  {
    Input(body(i.tx).inputs[i.index], None, None)
  }

  ghost predicate CollectsInputs(body: TxId -> Body, novel: set<TxId>, rows: seq<InputRow>) {
    && (forall row :: row in rows ==> row.0.tx in novel && IsInput(body, row.0) && row.1 == UnresolvedInput(body, row.0))
    && (forall i: InputId :: i.tx in novel && IsInput(body, i) ==> (i, UnresolvedInput(body, i)) in rows)
  }

  ghost predicate CollectsOutputs(body: TxId -> Body, novel: set<TxId>, rows: seq<OutputRow>) {
    && (forall row :: row in rows ==> row.0.tx in novel && IsOutput(body, row.0) && row.1 == body(row.0.tx).outputs[row.0.index])
    && (forall o: Outpoint :: o.tx in novel && IsOutput(body, o) ==> (o, body(o.tx).outputs[o.index]) in rows)
  }

  /** The collected rows are those of the new transactions, all of which occur in the collected blocks. */
  ghost predicate Collects(body: TxId -> Body, novel: set<TxId>, p: Pending) {
    && (forall row :: row in p.transactions ==> row.0 in novel)
    && (forall t :: t in novel ==> exists row :: row in p.transactions && row.0 == t)
    && CollectsInputs(body, novel, p.inputs)
    && CollectsOutputs(body, novel, p.outputs)
    && (forall a: Address, t: TxId :: (a, t) in p.addresses <==> t in novel && PaysTo(body, t, a))
    && novel <= TxsOf(RowSet(p.blockTx))
  }

  /** Each collected transaction carries the time of a collected block that holds it. */
  ghost predicate Timed(contents: Hash -> set<TxId>, time: Hash -> int, rows: seq<(TxId, Option<int>)>, blocks: seq<Hash>) {
    forall row :: row in rows ==> exists b :: b in blocks && row.0 in contents(b) && row.1 == Some(time(b))
  }

  lemma TimedMore(contents: Hash -> set<TxId>, time: Hash -> int, before: seq<(TxId, Option<int>)>, rows: seq<(TxId, Option<int>)>,
                  blocks: seq<Hash>, b: Hash)
    requires Timed(contents, time, before, blocks)
    requires forall row :: row in rows ==> row in before || (row.0 in contents(b) && row.1 == Some(time(b)))
    ensures Timed(contents, time, rows, blocks + [b])
  {
    forall row | row in rows ensures exists x :: x in blocks + [b] && row.0 in contents(x) && row.1 == Some(time(x)) {
      if row in before {
        var x :| x in blocks && row.0 in contents(x) && row.1 == Some(time(x));
        assert x in blocks + [b];
      } else {
        assert b in blocks + [b];
      }
    }
  }

  lemma CollectsMoreInputs(body: TxId -> Body, novel: set<TxId>, rows: seq<InputRow>, tx: Tx)
    requires CollectsInputs(body, novel, rows) && tx.body == body(tx.id)
    ensures CollectsInputs(body, novel + {tx.id}, rows + InputRows(tx))
  {
    forall i: InputId | i.tx == tx.id && IsInput(body, i) ensures (i, UnresolvedInput(body, i)) in InputRows(tx) {
      assert InputRows(tx)[i.index] == (i, UnresolvedInput(body, i));
    }
  }

  lemma CollectsMoreOutputs(body: TxId -> Body, novel: set<TxId>, rows: seq<OutputRow>, tx: Tx)
    requires CollectsOutputs(body, novel, rows) && tx.body == body(tx.id)
    ensures CollectsOutputs(body, novel + {tx.id}, rows + OutputRows(tx))
  {
    forall o: Outpoint | o.tx == tx.id && IsOutput(body, o) ensures (o, body(o.tx).outputs[o.index]) in OutputRows(tx) {
      assert OutputRows(tx)[o.index] == (o, body(o.tx).outputs[o.index]);
    }
  }

  lemma IdsMore(rows: seq<(Hash, TxId)>, row: (Hash, TxId))
    ensures RowSet(rows + [row]) == RowSet(rows) + {row}
    ensures TxsOf(RowSet(rows + [row])) == TxsOf(RowSet(rows)) + {row.1}
  {
  }

  lemma CollectsMore(body: TxId -> Body, novel: set<TxId>, p: Pending, time: int, tx: Tx, block: Hash)
    requires Collects(body, novel, p) && tx.body == body(tx.id)
    ensures Collects(body, novel + {tx.id}, Collected(p, time, tx).(blockTx := p.blockTx + [(block, tx.id)]))
    ensures Collects(body, novel, p.(blockTx := p.blockTx + [(block, tx.id)]))
  {
    var p' := Collected(p, time, tx).(blockTx := p.blockTx + [(block, tx.id)]);
    CollectsMoreInputs(body, novel, p.inputs, tx);
    CollectsMoreOutputs(body, novel, p.outputs, tx);
    IdsMore(p.blockTx, (block, tx.id));
    forall t | t in novel + {tx.id} ensures exists row :: row in p'.transactions && row.0 == t {
      if t == tx.id {
        assert (tx.id, Some(time)) in p'.transactions;
      } else {
        var row :| row in p.transactions && row.0 == t;
        assert row in p'.transactions;
      }
    }
    forall a: Address ensures (a, tx.id) in AddressRows(tx) <==> PaysTo(body, tx.id, a) {
      if PaysTo(body, tx.id, a) {
        var k :| 0 <= k < |body(tx.id).outputs| && body(tx.id).outputs[k].address == Some(a);
        assert tx.body.outputs[k].address.Some?;
      }
    }
  }

  // ---- What a commit does to the tables ----

  lemma OutputsAreConsistent(body: TxId -> Body, outputs: map<Outpoint, Output>, novel: set<TxId>, rows: seq<OutputRow>)
    requires forall o :: o in outputs ==> IsOutput(body, o) && outputs[o] == body(o.tx).outputs[o.index]
    requires CollectsOutputs(body, novel, rows)
    ensures Consistent(outputs, rows)
  {
  }

  /** The transactions in stored are new, and so inserted, or were complete before. */
  ghost predicate Covers(body: TxId -> Body, c: Content, novel: set<TxId>, stored: set<TxId>) {
    && Genuine(body, c) && novel <= stored
    && forall t :: t in stored && t !in novel ==> Complete(body, c, t)
  }

  lemma OutputsStored(body: TxId -> Body, c: Content, novel: set<TxId>, stored: set<TxId>, rows: seq<OutputRow>,
                      outputs: map<Outpoint, Output>)
    requires Covers(body, c, novel, stored) && CollectsOutputs(body, novel, rows) && Inserted(c.outputs, rows, outputs)
    ensures HasOutputs(body, c.outputs, stored, outputs)
  {
  }

  /** The rows as they are inserted. */
  function InsertedInputs(resolve: bool, rows: seq<InputRow>, known: map<Outpoint, Output>): seq<InputRow> {
    if resolve then LookupAll(rows, known) else rows
  }

  lemma InputsStored(body: TxId -> Body, resolve: bool, c: Content, novel: set<TxId>, stored: set<TxId>, rows: seq<InputRow>,
                     known: map<Outpoint, Output>, inputs: map<InputId, Input>)
    requires Covers(body, c, novel, stored) && CollectsInputs(body, novel, rows)
    requires Inserted(c.inputs, InsertedInputs(resolve, rows, known), inputs)
    ensures HasInputs(body, resolve, c.inputs, stored, known, inputs)
  {
  }

  lemma RowsMakeBatch(body: TxId -> Body, resolve: bool, c: Content, novel: set<TxId>, stored: set<TxId>, p: Pending, c': Content)
    requires Collects(body, novel, p) && Covers(body, c, novel, stored)
    requires c'.txs == c.txs + novel && c'.blockTxs == c.blockTxs + RowSet(p.blockTx)
    requires Inserted(c.outputs, p.outputs, c'.outputs)
    requires Inserted(c.inputs, InsertedInputs(resolve, p.inputs, c'.outputs), c'.inputs)
    ensures BatchStored(body, resolve, c, stored, RowSet(p.blockTx), c')
  {
    OutputsStored(body, c, novel, stored, p.outputs, c'.outputs);
    InputsStored(body, resolve, c, novel, stored, p.inputs, c'.outputs, c'.inputs);
    assert c.txs + novel == c.txs + stored;
  }

  // ---- The statements ----

  predicate TxOrder(a: (TxId, Option<int>), b: (TxId, Option<int>)) {
    a.0 <= b.0
  }

  method InsertTransactions(db: Db, rows: seq<(TxId, Option<int>)>, batchSize: nat, ghost novel: set<TxId>)
    requires 0 < batchSize
    requires forall row :: row in rows ==> row.0 in novel
    requires forall t :: t in novel ==> exists row :: row in rows && row.0 == t
    modifies db`transactions
    ensures Inserted(old(db.transactions), rows, db.transactions)
    ensures db.transactions.Keys == old(db.transactions).Keys + novel
  {
    var sorted := SortBy(rows, TxOrder);
    PermutationKeepsRows(rows, sorted);
    var after, rowsAffected := InsertUnordered(db.transactions, sorted, batchSize);
    forall t | t in after && t !in db.transactions ensures t in novel {
      assert (t, after[t]) in rows;
    }
    db.transactions := after;
  }

  /** Without resolving, the rows go in as they are. */
  method InsertPlain(db: Db, txInputs: seq<InputRow>, txOutputs: seq<OutputRow>, batchSize: nat)
    requires 0 < batchSize
    modifies db`inputs, db`outputs
    ensures Inserted(old(db.outputs), txOutputs, db.outputs)
    ensures Inserted(old(db.inputs), txInputs, db.inputs)
  {
    var inputs := SortBy(txInputs, InputOrder);
    var outputs := SortBy(txOutputs, OutputOrder);
    PermutationKeepsRows(txInputs, inputs);
    PermutationKeepsRows(txOutputs, outputs);
    var rowsAffected;
    db.inputs, rowsAffected := InsertUnordered(db.inputs, inputs, batchSize);
    db.outputs, rowsAffected := InsertUnordered(db.outputs, outputs, batchSize);
  }

  function IdSet(ids: seq<TxId>): set<TxId> {
    set t | t in ids
  }

  /** The rows that the join of inputs with the outputs they spend selects. */
  function SpentFrom(inputs: map<InputId, Input>, outputs: map<Outpoint, Output>, ids: set<TxId>): set<(Address, TxId)> {
    set i | i in inputs && i.tx in ids && inputs[i].previous in outputs && outputs[inputs[i].previous].address.Some? ::
      (outputs[inputs[i].previous].address.value, i.tx)
  }

  /** The join selects an output without address; the key column does not take it. */
  predicate SelectsNull(inputs: map<InputId, Input>, outputs: map<Outpoint, Output>, ids: set<TxId>) {
    exists i :: i in inputs && i.tx in ids && inputs[i].previous in outputs && outputs[inputs[i].previous].address == None
  }

  lemma SpentFromMore(inputs: map<InputId, Input>, outputs: map<Outpoint, Output>, a: set<TxId>, b: set<TxId>)
    ensures SpentFrom(inputs, outputs, a + b) == SpentFrom(inputs, outputs, a) + SpentFrom(inputs, outputs, b)
    ensures SelectsNull(inputs, outputs, a + b) <==> SelectsNull(inputs, outputs, a) || SelectsNull(inputs, outputs, b)
  {
  }

  /** Chunk by chunk. A NULL address fails its statement, which ends the process. */
  method InsertAddressesFromInputs(db: Db, ids: seq<TxId>, batchSize: nat) returns (ok: bool)
    requires 0 < batchSize
    modifies db`addressesTransactions
    ensures ok <==> !SelectsNull(db.inputs, db.outputs, IdSet(ids))
    ensures ok <==> forall i :: i in db.inputs && i.tx in ids && db.inputs[i].previous in db.outputs ==>
      db.outputs[db.inputs[i].previous].address.Some?
    ensures ok ==> db.addressesTransactions == old(db.addressesTransactions) + SpentFrom(db.inputs, db.outputs, IdSet(ids))
  {
    var done := 0;
    assert SpentFrom(db.inputs, db.outputs, {}) == {};
    while done < |ids|
      invariant done <= |ids| && !SelectsNull(db.inputs, db.outputs, IdSet(ids[..done]))
      invariant db.addressesTransactions == old(db.addressesTransactions) + SpentFrom(db.inputs, db.outputs, IdSet(ids[..done]))
    {
      var m := if done + batchSize <= |ids| then done + batchSize else |ids|;
      assert IdSet(ids[..m]) == IdSet(ids[..done]) + IdSet(ids[done..m]) by {
        assert ids[..m] == ids[..done] + ids[done..m];
      }
      SpentFromMore(db.inputs, db.outputs, IdSet(ids[..done]), IdSet(ids[done..m]));
      if SelectsNull(db.inputs, db.outputs, IdSet(ids[done..m])) {
        return false;
      }
      db.addressesTransactions := db.addressesTransactions + SpentFrom(db.inputs, db.outputs, IdSet(ids[done..m]));
      done := m;
    }
    assert ids[..done] == ids;
    ok := true;
  }

  lemma IndexHasGrown(body: TxId -> Body, c: Content, novel: set<TxId>, addresses: set<(Address, TxId)>,
                      index: set<(Address, TxId)>, index': set<(Address, TxId)>)
    requires forall a: Address, t: TxId :: (a, t) in addresses <==> t in novel && PaysTo(body, t, a)
    requires index' == index + addresses + SpentFrom(c.inputs, c.outputs, novel)
    ensures IndexGrows(body, c, novel, index, index')
  {
  }

  function IdsOf(rows: seq<(TxId, Option<int>)>): seq<TxId> {
    seq(|rows|, k requires 0 <= k < |rows| => rows[k].0)
  }

  lemma IdsAreNovel(rows: seq<(TxId, Option<int>)>, novel: set<TxId>)
    requires forall row :: row in rows ==> row.0 in novel
    requires forall t :: t in novel ==> exists row :: row in rows && row.0 == t
    ensures IdSet(IdsOf(rows)) == novel
  {
    forall t | t in novel ensures t in IdsOf(rows) {
      var row :| row in rows && row.0 == t;
      var k :| 0 <= k < |rows| && rows[k] == row;
      assert IdsOf(rows)[k] == t;
    }
  }

  ghost function ContentOf(db: Db): Content
    reads db
  {
    Content(db.transactions.Keys, db.inputs, db.outputs, db.blocksTransactions)
  }

  /** The inputs and outputs of a batch. */
  method InsertInputsAndOutputs(db: Db, resolve: bool, size: nat, p: Pending, ghost body: TxId -> Body, ghost novel: set<TxId>)
    requires 0 < size && Collects(body, novel, p) && Genuine(body, ContentOf(db))
    modifies db`inputs, db`outputs
    ensures Inserted(old(db.outputs), p.outputs, db.outputs)
    ensures Inserted(old(db.inputs), InsertedInputs(resolve, p.inputs, db.outputs), db.inputs)
  {
    OutputsAreConsistent(body, db.outputs, novel, p.outputs);
    if resolve {
      InsertResolved(db, p.inputs, p.outputs, size);
    } else {
      InsertPlain(db, p.inputs, p.outputs, size);
    }
  }

  /** The concurrent insertions and, behind them, the addresses that inputs spend from. */
  method WriteRows(db: Db, resolve: bool, size: nat, p: Pending,
                   ghost body: TxId -> Body, ghost novel: set<TxId>, ghost stored: set<TxId>, ghost c: Content)
    returns (ok: bool)
    requires 0 < size && c == ContentOf(db) && Collects(body, novel, p) && Covers(body, c, novel, stored)
    modifies db`transactions, db`inputs, db`outputs, db`addressesTransactions, db`blocksTransactions
    ensures ok <==> !SelectsNull(db.inputs, db.outputs, novel)
    ensures BatchStored(body, resolve, c, stored, RowSet(p.blockTx), ContentOf(db))
    ensures Inserted(old(db.transactions), p.transactions, db.transactions)
    ensures ok ==> IndexGrows(body, ContentOf(db), novel, old(db.addressesTransactions), db.addressesTransactions)
  {
    var transactionIds := IdsOf(p.transactions);
    IdsAreNovel(p.transactions, novel);
    InsertTransactions(db, p.transactions, size, novel);
    db.addressesTransactions := db.addressesTransactions + p.addresses;
    InsertInputsAndOutputs(db, resolve, size, p, body, novel);
    db.blocksTransactions := db.blocksTransactions + RowSet(p.blockTx);
    ghost var c' := ContentOf(db);
    RowsMakeBatch(body, resolve, c, novel, stored, p, c');
    ok := InsertAddressesFromInputs(db, transactionIds, size);
    assert ContentOf(db) == c';
    if ok {
      IndexHasGrown(body, c', novel, p.addresses, old(db.addressesTransactions), db.addressesTransactions);
    }
  }

  lemma TimedAreStored(contents: Hash -> set<TxId>, time: Hash -> int, before: map<TxId, Option<int>>, rows: seq<(TxId, Option<int>)>,
                       blocks: seq<Hash>, after: map<TxId, Option<int>>)
    requires Timed(contents, time, rows, blocks) && Inserted(before, rows, after)
    ensures forall t :: t in before ==> t in after && after[t] == before[t]
    ensures forall t :: t in after && t !in before ==> exists b :: b in blocks && t in contents(b) && after[t] == Some(time(b))
  {
    forall t | t in after && t !in before ensures exists b :: b in blocks && t in contents(b) && after[t] == Some(time(b)) {
      assert (t, after[t]) in rows;
    }
  }

  // ---- The processor ----

  /** Cached transactions are collected or committed; the blocks collected so far are covered by what is collected. */
  ghost predicate Sound(body: TxId -> Body, contents: Hash -> set<TxId>, cache: set<TxId>, processed: set<TxId>, novel: set<TxId>,
                        p: Pending, blocks: seq<Hash>) {
    && cache <= processed + novel
    && Collects(body, novel, p)
    && TxsOf(RowSet(p.blockTx)) <= processed + novel
    && forall b :: b in blocks ==> Related(contents, b, p.blockTx)
  }

  ghost predicate Related(contents: Hash -> set<TxId>, b: Hash, blockTx: seq<(Hash, TxId)>) {
    forall t :: t in contents(b) ==> (b, t) in blockTx
  }

  lemma KnownKeepsSound(body: TxId -> Body, contents: Hash -> set<TxId>, cache: set<TxId>, processed: set<TxId>, novel: set<TxId>,
                        p: Pending, blocks: seq<Hash>, time: int, tx: Tx, block: Hash)
    requires Sound(body, contents, cache, processed, novel, p, blocks) && tx.body == body(tx.id) && tx.id in cache
    ensures Sound(body, contents, cache, processed, novel, p.(blockTx := p.blockTx + [(block, tx.id)]), blocks)
  {
  }

  lemma NewKeepsSound(body: TxId -> Body, contents: Hash -> set<TxId>, cache: set<TxId>, processed: set<TxId>, novel: set<TxId>,
                      p: Pending, blocks: seq<Hash>, time: int, tx: Tx, block: Hash)
    requires Sound(body, contents, cache, processed, novel, p, blocks) && tx.body == body(tx.id)
    ensures Sound(body, contents, cache + {tx.id}, processed, novel + {tx.id},
                  Collected(p, time, tx).(blockTx := p.blockTx + [(block, tx.id)]), blocks)
  {
    CollectsMore(body, novel, p, time, tx, block);
    IdsMore(p.blockTx, (block, tx.id));
  }

  /**
   * All rows of every processed transaction are stored, and all rows of every block that was queued, except for the
   * transactions that pruning has touched.
   */
  ghost predicate AllStored(body: TxId -> Body, contents: Hash -> set<TxId>, c: Content, processed: set<TxId>, queue: seq<Hash>, pruned: set<TxId>) {
    && Genuine(body, c)
    && (forall t :: t in processed && t !in pruned ==> Complete(body, c, t))
    && forall b :: b in queue ==> forall t :: t in contents(b) ==> t in processed && (t in pruned || (b, t) in c.blockTxs)
  }

  /** The transactions whose rows are all stored after a commit: a cached one that pruning has touched is not stored again. */
  function StoredBy(p: Pending, novel: set<TxId>, pruned: set<TxId>): set<TxId> {
    novel + (TxsOf(RowSet(p.blockTx)) - pruned)
  }

  lemma CommitStoresAll(body: TxId -> Body, contents: Hash -> set<TxId>, resolve: bool, c: Content, processed: set<TxId>, queue: seq<Hash>,
                        pruned: set<TxId>, cache: set<TxId>, novel: set<TxId>, p: Pending, blocks: seq<Hash>, c': Content)
    requires AllStored(body, contents, c, processed, queue, pruned) && Sound(body, contents, cache, processed, novel, p, blocks)
    requires BatchStored(body, resolve, c, StoredBy(p, novel, pruned), RowSet(p.blockTx), c')
    ensures AllStored(body, contents, c', processed + novel, queue + blocks, pruned)
  {
    BatchKeepsGenuine(body, resolve, c, StoredBy(p, novel, pruned), RowSet(p.blockTx), c');
    forall t | t in processed + novel && t !in pruned ensures Complete(body, c', t) {
      BatchCompletes(body, resolve, c, StoredBy(p, novel, pruned), RowSet(p.blockTx), c', t);
    }
    forall b | b in blocks ensures forall t :: t in contents(b) ==> t in processed + novel && (b, t) in c'.blockTxs {
      forall t | t in contents(b) ensures t in processed + novel && (b, t) in c'.blockTxs {
        assert Related(contents, b, p.blockTx) && (b, t) in p.blockTx;
        assert (b, t) in RowSet(p.blockTx) && t in TxsOf(RowSet(p.blockTx));
      }
    }
  }

  lemma PruningKeepsStored(body: TxId -> Body, contents: Hash -> set<TxId>, c: Content, processed: set<TxId>, queue: seq<Hash>,
                           pruned: set<TxId>, losses: Losses, gone: set<TxId>)
    requires AllStored(body, contents, c, processed, queue, pruned) && Touches(losses, gone)
    ensures AllStored(body, contents, Without(c, losses), processed, queue, pruned + gone)
  {
    PruneKeepsGenuine(body, c, losses);
    forall t | t in processed && t !in pruned + gone ensures Complete(body, Without(c, losses), t) {
      UntouchedStaysComplete(body, c, losses, gone, t);
    }
  }

  lemma StartsSound(body: TxId -> Body, contents: Hash -> set<TxId>, cache: set<TxId>, processed: set<TxId>)
    requires cache <= processed
    ensures Sound(body, contents, cache, processed, {}, NOTHING, [])
  {
  }

  lemma SoundCovers(body: TxId -> Body, contents: Hash -> set<TxId>, c: Content, processed: set<TxId>, queue: seq<Hash>, pruned: set<TxId>,
                    cache: set<TxId>, novel: set<TxId>, p: Pending, blocks: seq<Hash>)
    requires AllStored(body, contents, c, processed, queue, pruned) && Sound(body, contents, cache, processed, novel, p, blocks)
    ensures Covers(body, c, novel, StoredBy(p, novel, pruned))
    ensures novel <= StoredBy(p, novel, pruned) <= TxsOf(RowSet(p.blockTx)) <= processed + novel
  {
  }

  /** The block relations of a block's transactions, in order. */
  function Relations(block: Hash, txs: seq<Tx>): seq<(Hash, TxId)> {
    if txs == [] then [] else Relations(block, txs[..|txs| - 1]) + [(block, txs[|txs| - 1].id)]
  }

  lemma {:induction false} RelationsAre(block: Hash, txs: seq<Tx>)
    ensures forall row :: row in Relations(block, txs) <==> row.0 == block && exists tx :: tx in txs && tx.id == row.1
  {
    if txs != [] {
      var last := |txs| - 1;
      RelationsAre(block, txs[..last]);
      assert forall tx :: tx in txs <==> tx in txs[..last] || tx == txs[last];
    }
  }

  lemma RelationsMore(block: Hash, txs: seq<Tx>, n: nat, before: seq<(Hash, TxId)>)
    requires n < |txs|
    ensures before + Relations(block, txs[..n + 1]) == before + Relations(block, txs[..n]) + [(block, txs[n].id)]
  {
    assert txs[..n + 1][..n] == txs[..n];
  }

  lemma {:induction false} RelationsSize(block: Hash, txs: seq<Tx>)
    ensures |Relations(block, txs)| == |txs|
  {
    if txs != [] {
      RelationsSize(block, txs[..|txs| - 1]);
    }
  }

  /** The node delivers a block with its own transactions. */
  ghost predicate Delivers(body: TxId -> Body, contents: Hash -> set<TxId>, data: TransactionData) {
    && (forall tx :: tx in data.txs ==> tx.body == body(tx.id) && tx.id in contents(data.block))
    && (forall t :: t in contents(data.block) ==> exists tx :: tx in data.txs && tx.id == t)
  }

  lemma BlockKeepsSound(body: TxId -> Body, contents: Hash -> set<TxId>, cache: set<TxId>, processed: set<TxId>, novel: set<TxId>,
                        p: Pending, blocks: seq<Hash>, data: TransactionData, before: seq<(Hash, TxId)>)
    requires Sound(body, contents, cache, processed, novel, p, blocks) && Delivers(body, contents, data)
    requires p.blockTx == before + Relations(data.block, data.txs)
    ensures Sound(body, contents, cache, processed, novel, p, blocks + [data.block])
    ensures RowSet(p.blockTx) == RowSet(before) + BlockRows(data.block, contents(data.block))
  {
    RelationsAre(data.block, data.txs);
    forall t | t in contents(data.block) ensures (data.block, t) in p.blockTx {
      assert (data.block, t) in Relations(data.block, data.txs);
    }
    assert Related(contents, data.block, p.blockTx);
  }

  lemma CommitIsStep(body: TxId -> Body, resolve: bool, m: Moment, stored: set<TxId>, batch: set<(Hash, TxId)>, inserted: set<TxId>, m': Moment)
    requires BatchStored(body, resolve, m.content, stored, batch, m'.content) && inserted <= stored <= TxsOf(batch) <= m.processed + inserted
    requires m'.known == m.known + m'.content.outputs.Keys && m'.processed == m.processed + inserted
    requires IndexGrows(body, m'.content, inserted, m.index, m'.index)
    ensures Step(body, resolve, m, Contents.Commit(stored, batch, inserted), m')
  {
  }

  /** What is collected after a block, over the blocks with it. */
  lemma BlockCollected(body: TxId -> Body, contents: Hash -> set<TxId>, time: Hash -> int, cache: set<TxId>, processed: set<TxId>,
                       novel: set<TxId>, before: Pending, p: Pending, blocks: seq<Hash>, data: TransactionData)
    requires Sound(body, contents, cache, processed, novel, p, blocks) && Delivers(body, contents, data) && data.time == time(data.block)
    requires p.blockTx == before.blockTx + Relations(data.block, data.txs)
    requires RowSet(before.blockTx) == BlockRelations(contents, blocks) && Timed(contents, time, before.transactions, blocks)
    requires forall row :: row in p.transactions ==>
      row in before.transactions || (row.0 in contents(data.block) && row.1 == Some(data.time))
    ensures Sound(body, contents, cache, processed, novel, p, blocks + [data.block])
    ensures RowSet(p.blockTx) == BlockRelations(contents, blocks + [data.block])
    ensures Timed(contents, time, p.transactions, blocks + [data.block])
    ensures |p.blockTx| == |before.blockTx| + |data.txs|
  {
    BlockKeepsSound(body, contents, cache, processed, novel, p, blocks, data, before.blockTx);
    TimedMore(contents, time, before.transactions, p.transactions, blocks, data.block);
    RelationsSize(data.block, data.txs);
    assert (blocks + [data.block])[..|blocks|] == blocks;
  }

  class Processor {
    const db: Db
    const resolve: bool
    const batchSize: nat
    const insertBatchSize: nat
    ghost const body: TxId -> Body        // what the node fixes: the content of a transaction,
    ghost const contents: Hash -> set<TxId>  // the transactions of a block
    ghost const time: Hash -> int            // and its time
    var cache: set<TxId>
    var pending: Pending
    var checkpointBlocks: seq<Hash>
    var queue: seq<Hash>                  // the checkpoint queue
    ghost var novel: set<TxId>            // the transactions collected since the last commit
    ghost var processed: set<TxId>        // the transactions committed so far
    ghost var pruned: set<TxId>           // those that lost rows to pruning
    ghost var known: set<Outpoint>        // the outputs that are or were stored

    constructor (db: Db, resolve: bool, batchSize: nat, insertBatchSize: nat,
                 ghost body: TxId -> Body, ghost contents: Hash -> set<TxId>, ghost time: Hash -> int)
      requires 0 < insertBatchSize
      requires Genuine(body, ContentOf(db))
      ensures Valid() && this.db == db && this.body == body && this.contents == contents && this.time == time
      ensures queue == [] && checkpointBlocks == [] && pending == NOTHING
      ensures processed == {} && novel == {} && pruned == {} && known == db.outputs.Keys
    {
      this.db, this.resolve, this.batchSize, this.insertBatchSize := db, resolve, batchSize, insertBatchSize;
      this.body, this.contents, this.time := body, contents, time;
      cache, pending, checkpointBlocks, queue := {}, NOTHING, [], [];
      novel, processed, pruned, known := {}, {}, {}, db.outputs.Keys;
    }

    ghost function Stored(): Content
      reads this, db
    {
      ContentOf(db)
    }

    ghost function Now(): Moment
      reads this, db
    {
      Moment(Stored(), known, processed, db.addressesTransactions)
    }

    ghost predicate Collecting()
      reads this
    {
      0 < insertBatchSize && Sound(body, contents, cache, processed, novel, pending, checkpointBlocks)
    }

    /** What the tables promise of the transactions committed so far. */
    ghost predicate Kept()
      reads this`processed, this`queue, this`pruned, this`known, db
    {
      AllStored(body, contents, ContentOf(db), processed, queue, pruned) && db.outputs.Keys <= known
    }

    /** What is collected comes from the blocks of the batch. */
    ghost predicate Matched()
      reads this`pending, this`checkpointBlocks
    {
      && RowSet(pending.blockTx) == BlockRelations(contents, checkpointBlocks)
      && Timed(contents, time, pending.transactions, checkpointBlocks)
    }

    ghost predicate Valid()
      reads this, db
    {
      Collecting() && Kept() && Matched()
    }

    /** Another task pruned rows since the tables were c: its transactions are no longer promised to be complete. */
    ghost method NotePruning(c: Content, losses: Losses, gone: set<TxId>)
      requires Collecting() && Matched() && AllStored(body, contents, c, processed, queue, pruned) && c.outputs.Keys <= known
      requires Stored() == Without(c, losses) && Touches(losses, gone)
      modifies this`pruned
      ensures Valid() && pruned == old(pruned) + gone
    {
      PruningKeepsStored(body, contents, c, processed, queue, pruned, losses, gone);
      pruned := pruned + gone;
    }

    /** Entries expire or make room for others at any time. */
    method Evict()
      modifies this`cache
      ensures cache <= old(cache)
    {
      var expired: set<TxId> :| true;
      cache := cache - expired;
    }

    /** One transaction of a popped block: a cached one only adds its block relation. */
    method Collect(block: Hash, time: int, tx: Tx)
      requires Collecting() && tx.body == body(tx.id)
      modifies this`cache, this`pending, this`novel
      ensures Collecting()
      ensures pending.blockTx == old(pending).blockTx + [(block, tx.id)]
      ensures old(novel) <= novel <= old(novel) + {tx.id}
      ensures forall row :: row in pending.transactions ==> row in old(pending).transactions || row == (tx.id, Some(time))
    {
      Evict();
      if tx.id in cache {
        KnownKeepsSound(body, contents, cache, processed, novel, pending, checkpointBlocks, time, tx, block);
        pending := pending.(blockTx := pending.blockTx + [(block, tx.id)]);
      } else {
        NewKeepsSound(body, contents, cache, processed, novel, pending, checkpointBlocks, time, tx, block);
        pending, novel := Collected(pending, time, tx).(blockTx := pending.blockTx + [(block, tx.id)]), novel + {tx.id};
        cache := cache + {tx.id};
      }
    }

    method CollectAll(data: TransactionData)
      requires Collecting() && Delivers(body, contents, data)
      modifies this`cache, this`pending, this`novel
      ensures Collecting()
      ensures pending.blockTx == old(pending).blockTx + Relations(data.block, data.txs)
      ensures forall row :: row in pending.transactions ==>
        row in old(pending).transactions || (row.0 in contents(data.block) && row.1 == Some(data.time))
    {
      ghost var before := pending.blockTx;
      assert before + Relations(data.block, data.txs[..0]) == before;
      for n := 0 to |data.txs|
        invariant Collecting()
        invariant pending.blockTx == before + Relations(data.block, data.txs[..n])
        invariant forall row :: row in pending.transactions ==>
          row in old(pending).transactions || (row.0 in contents(data.block) && row.1 == Some(data.time))
      {
        assert data.txs[n] in data.txs;
        Collect(data.block, data.time, data.txs[n]);
        RelationsMore(data.block, data.txs, n, before);
      }
      assert data.txs[..|data.txs|] == data.txs;
    }

    /** All transactions of a popped block. */
    method CollectBlock(data: TransactionData)
      requires Collecting() && Matched() && Delivers(body, contents, data) && data.time == time(data.block)
      modifies this`cache, this`pending, this`novel, this`checkpointBlocks
      ensures Collecting() && Matched() && Now() == old(Now()) && checkpointBlocks == old(checkpointBlocks) + [data.block]
      ensures |pending.blockTx| == |old(pending).blockTx| + |data.txs|
    {
      ghost var before := pending;
      CollectAll(data);
      BlockCollected(body, contents, time, cache, processed, novel, before, pending, checkpointBlocks, data);
      checkpointBlocks := checkpointBlocks + [data.block];
    }

    /** Stored rows keep their time, and new ones have the time of a block of the batch that holds them. */
    ghost predicate TimesKept(before: map<TxId, Option<int>>, blocks: seq<Hash>, after: map<TxId, Option<int>>) {
      && (forall t :: t in before ==> t in after && after[t] == before[t])
      && (forall t :: t in after && t !in before ==> exists b :: b in blocks && t in contents(b) && after[t] == Some(time(b)))
    }

    /** Stores what is collected. */
    method Write() returns (ok: bool)
      requires Valid()
      modifies db`transactions, db`inputs, db`outputs, db`addressesTransactions, db`blocksTransactions
      ensures BatchStored(body, resolve, old(Stored()), StoredBy(pending, novel, pruned), RowSet(pending.blockTx), Stored())
      ensures ok <==> !SelectsNull(db.inputs, db.outputs, novel)
      ensures AllStored(body, contents, Stored(), processed + novel, queue + checkpointBlocks, pruned)
      ensures TimesKept(old(db.transactions), checkpointBlocks, db.transactions)
      ensures ok ==> IndexGrows(body, Stored(), novel, old(db.addressesTransactions), db.addressesTransactions)
    {
      ghost var c, stored := Stored(), StoredBy(pending, novel, pruned);
      SoundCovers(body, contents, c, processed, queue, pruned, cache, novel, pending, checkpointBlocks);
      ghost var before := db.transactions;
      ok := WriteRows(db, resolve, insertBatchSize, pending, body, novel, stored, c);
      TimedAreStored(contents, time, before, pending.transactions, checkpointBlocks, db.transactions);
      CommitStoresAll(body, contents, resolve, c, processed, queue, pruned, cache, novel, pending, checkpointBlocks, Stored());
    }

    /** Queues the blocks for the checkpoint task and starts over. */
    method StartOver()
      requires Collecting() && AllStored(body, contents, Stored(), processed + novel, queue + checkpointBlocks, pruned)
      modifies this`pending, this`checkpointBlocks, this`queue, this`novel, this`processed, this`known
      ensures Valid() && pending == NOTHING && checkpointBlocks == [] && novel == {}
      ensures queue == old(queue) + old(checkpointBlocks) && processed == old(processed) + old(novel)
      ensures known == old(known) + db.outputs.Keys
    {
      queue, processed, known := queue + checkpointBlocks, processed + novel, known + db.outputs.Keys;
      pending, checkpointBlocks, novel := NOTHING, [], {};
      StartsSound(body, contents, cache, processed);
    }

    /**
     * Commits what is collected: a step of the tables and the index. Of the transactions of the blocks it may only leave out
     * some that pruning has touched.
     */
    method Commit() returns (ok: bool, ghost action: Action)
      requires Valid()
      modifies this`pending, this`checkpointBlocks, this`queue, this`novel, this`processed, this`known
      modifies db`transactions, db`inputs, db`outputs, db`addressesTransactions, db`blocksTransactions
      ensures action.Commit? && action.batch == BlockRelations(contents, old(checkpointBlocks)) && action.inserted == old(novel)
      ensures TxsOf(action.batch) - action.stored <= pruned
      ensures ok <==> forall i :: i in db.inputs && i.tx in old(novel) && db.inputs[i].previous in db.outputs ==>
        db.outputs[db.inputs[i].previous].address.Some?
      ensures ok ==> Valid() && pending == NOTHING && checkpointBlocks == [] && novel == {}
      ensures ok ==> queue == old(queue) + old(checkpointBlocks)
      ensures ok ==> Step(body, resolve, old(Now()), action, Now())
      ensures TimesKept(old(db.transactions), old(checkpointBlocks), db.transactions)
    {
      ghost var m := Now();
      action := Contents.Commit(StoredBy(pending, novel, pruned), RowSet(pending.blockTx), novel);
      SoundCovers(body, contents, Stored(), processed, queue, pruned, cache, novel, pending, checkpointBlocks);
      ok := Write();
      if ok {
        StartOver();
        CommitIsStep(body, resolve, m, action.stored, action.batch, action.inserted, Now());
      }
    }

    /** Handles one popped block; late: more than two seconds passed since the last commit. */
    method Handle(data: TransactionData, late: bool) returns (ok: bool, committed: bool, ghost action: Action)
      requires Valid() && Delivers(body, contents, data) && data.time == time(data.block)
      modifies this`cache, this`pending, this`checkpointBlocks, this`queue, this`novel, this`processed, this`known
      modifies db`transactions, db`inputs, db`outputs, db`addressesTransactions, db`blocksTransactions
      ensures ok ==> Valid()
      ensures committed <==> |old(pending).blockTx| + |data.txs| >= batchSize || (|old(pending).blockTx| + |data.txs| > 0 && late)
      ensures !committed ==> ok && Now() == old(Now()) && queue == old(queue)
      ensures !committed ==> checkpointBlocks == old(checkpointBlocks) + [data.block]
      ensures ok && committed ==> queue == old(queue) + (old(checkpointBlocks) + [data.block]) && checkpointBlocks == []
      ensures ok && committed ==> Step(body, resolve, old(Now()), action, Now())
      ensures ok && committed ==> action.Commit? && action.batch == BlockRelations(contents, old(checkpointBlocks) + [data.block])
      ensures ok && committed ==> TxsOf(action.batch) - action.stored <= pruned
      ensures !committed ==> db.transactions == old(db.transactions)
      ensures forall t :: t in old(db.transactions) ==> t in db.transactions && db.transactions[t] == old(db.transactions)[t]
      ensures forall t :: t in db.transactions && t !in old(db.transactions) ==>
        exists b :: b in old(checkpointBlocks) + [data.block] && t in contents(b) && db.transactions[t] == Some(time(b))
    {
      CollectBlock(data);
      committed := |pending.blockTx| >= batchSize || (pending.blockTx != [] && late);
      if !committed {
        return true, false, Pruning(Losses({}, {}, {}, {}));
      }
      ok, action := Commit();
    }
  }
}
