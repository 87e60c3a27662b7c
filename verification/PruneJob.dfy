/** The pruning job: which steps run, in what order and with which cut-offs. */
module PruneJob {
  import opened Database
  import opened Pruning
  import opened Acceptances

  /** Retentions in milliseconds. blocksByTime: the blocks table is kept, with timestamps. */
  datatype Config = Config(blockParent: Option<nat>, blocksTransactions: Option<nat>, blocks: Option<nat>, transactions: Option<nat>,
                           addresses: Option<nat>, blocksByTime: bool, acceptance: bool, batchSize: nat)

  /** Which step fails, and at which round of its loop. */
  datatype Failures = Failures(blockParent: Option<nat>, blocksTransactions: Option<nat>, blocks: Option<nat>, acceptances: Option<nat>,
                               transactions: Option<nat>, addresses: Option<nat>)

  /** The steps in their order; each of them first looks for a shutdown. */
  datatype Step = BlockParent | BlocksTransactions | Blocks | Acceptances | Transactions | Addresses
  {
    function Number(): nat {
      match this
      case BlockParent => 0
      case BlocksTransactions => 1
      case Blocks => 2
      case Acceptances => 3
      case Transactions => 4
      case Addresses => 5
    }
  }

  /** No shutdown has come before the step; shutdown is the number of the first step that would see it. */
  predicate Runs(shutdown: Option<nat>, step: Step) {
    shutdown.Some? ==> step.Number() < shutdown.value
  }

  /** The retention of a step that is begun. */
  function Begun(shutdown: Option<nat>, step: Step, retention: Option<nat>): Option<nat> {
    if Runs(shutdown, step) then retention else None
  }

  /** A relation goes no later than the blocks that it belongs to. */
  function Shorter(retention: nat, other: Option<nat>): nat {
    if other.Some? && other.value < retention then other.value else retention
  }

  // ---- DELETE ... LIMIT in a loop ----

  lemma BatchSize<T>(left: set<T>, chunk: set<T>)
    requires chunk <= left
    ensures |left - chunk| == |left| - |chunk|
  {
  }

  lemma AllGone<T>(rows: set<T>, expired: set<T>, left: set<T>)
    requires rows - expired <= left <= rows && left * expired == {}
    ensures left == rows - expired
  {
    assert forall x :: x in left && x in expired ==> x in left * expired;
  }

  /** Deletes what has expired, an arbitrary batch at a time, until a statement deletes nothing or fails. */
  method DeleteInBatches<T(==, !new)>(rows: set<T>, expired: set<T>, batchSize: nat, failure: Option<nat>)
    returns (left: set<T>, ok: bool, rowsAffected: nat)
    requires expired <= rows
    ensures rows - expired <= left <= rows
    ensures ok && 0 < batchSize ==> left == rows - expired
    ensures batchSize == 0 ==> left == rows
    ensures ok ==> rowsAffected == |rows| - |left|
    ensures failure == None ==> ok
  {
    left, rowsAffected := rows, 0;
    var statements := 0;
    while true
      invariant rows - expired <= left <= rows
      invariant rowsAffected == |rows| - |left|
      invariant batchSize == 0 ==> left == rows
      decreases |left|
    {
      if failure == Some(statements) {
        return left, false, rowsAffected;
      }
      var found := left * expired;
      var chunk := Pick(found, batchSize);
      if chunk == {} {
        if 0 < batchSize {
          AllGone(rows, expired, left);
        }
        break;
      }
      assert chunk <= left && chunk <= expired;
      BatchSize(left, chunk);
      left, rowsAffected, statements := left - chunk, rowsAffected + |chunk|, statements + 1;
    }
    ok := true;
  }

  /** The rows with the keys that are left. */
  function Keep<K, V>(rows: map<K, V>, left: set<K>): map<K, V> {
    map k | k in rows && k in left :: rows[k]
  }

  lemma KeepIs<K, V>(rows: map<K, V>, left: set<K>)
    ensures left == rows.Keys ==> Keep(rows, left) == rows
    ensures forall gone: set<K> :: left == rows.Keys - gone ==> Keep(rows, left) == rows - gone
  {
  }

  /** LIMIT without ORDER BY. */
  method Pick<T(==, !new)>(found: set<T>, batchSize: nat) returns (chunk: set<T>)
    ensures chunk <= found && |chunk| <= batchSize
    ensures |chunk| == batchSize || chunk == found
  {
    chunk := {};
    while |chunk| < batchSize && chunk != found
      invariant chunk <= found && |chunk| <= batchSize
      decreases |found - chunk|
    {
      var x :| x in found - chunk;
      assert found - chunk == (found - (chunk + {x})) + {x};
      chunk := chunk + {x};
    }
  }

  // ---- The steps ----

  /** The rows of a relation whose block is stored and older than the cut-off. */
  function ExpiredRows(rows: set<(Hash, Hash)>, blocks: map<Hash, Block>, cutoff: int): set<(Hash, Hash)> {
    set row | row in rows && row.0 in blocks && blocks[row.0].timestamp < cutoff
  }

  function ExpiredBlocks(blocks: map<Hash, Block>, cutoff: int): set<Hash> {
    set b | b in blocks && blocks[b].timestamp < cutoff
  }

  method PruneBlockParent(db: Db, cutoff: int, batchSize: nat, failure: Option<nat>) returns (ok: bool)
    modifies db`blockParents
    ensures db.blockParents <= old(db.blockParents)
    ensures forall row :: row in old(db.blockParents) && row !in db.blockParents ==>
      row.0 in db.blocks && db.blocks[row.0].timestamp < cutoff
    ensures ok && 0 < batchSize ==>
      forall row :: row in db.blockParents && row.0 in db.blocks ==> cutoff <= db.blocks[row.0].timestamp
    ensures ok && 0 < batchSize ==> db.blockParents == old(db.blockParents) - ExpiredRows(old(db.blockParents), db.blocks, cutoff)
    ensures batchSize == 0 ==> db.blockParents == old(db.blockParents)
    ensures failure == None ==> ok
  {
    var left, rowsAffected;
    left, ok, rowsAffected := DeleteInBatches(db.blockParents, ExpiredRows(db.blockParents, db.blocks, cutoff), batchSize, failure);
    db.blockParents := left;
  }

  method PruneBlocksTransactions(db: Db, cutoff: int, batchSize: nat, failure: Option<nat>) returns (ok: bool)
    modifies db`blocksTransactions
    ensures db.blocksTransactions <= old(db.blocksTransactions)
    ensures forall row :: row in old(db.blocksTransactions) && row !in db.blocksTransactions ==>
      row.0 in db.blocks && db.blocks[row.0].timestamp < cutoff
    ensures ok && 0 < batchSize ==>
      forall row :: row in db.blocksTransactions && row.0 in db.blocks ==> cutoff <= db.blocks[row.0].timestamp
    ensures ok && 0 < batchSize ==>
      db.blocksTransactions == old(db.blocksTransactions) - ExpiredRows(old(db.blocksTransactions), db.blocks, cutoff)
    ensures batchSize == 0 ==> db.blocksTransactions == old(db.blocksTransactions)
    ensures failure == None ==> ok
  {
    var left, rowsAffected;
    var expired := ExpiredRows(db.blocksTransactions, db.blocks, cutoff);
    left, ok, rowsAffected := DeleteInBatches(db.blocksTransactions, expired, batchSize, failure);
    db.blocksTransactions := left;
  }

  /** The relation without blocks to go by: rows whose transaction is stored and older than the cut-off. */
  method PruneBlocksTransactionsByTime(db: Db, cutoff: int, batchSize: nat, failure: Option<nat>) returns (ok: bool)
    modifies db`blocksTransactions
    ensures db.blocksTransactions <= old(db.blocksTransactions)
    ensures forall row :: row in old(db.blocksTransactions) && row !in db.blocksTransactions ==>
      row.1 in db.transactions && db.transactions[row.1].Some? && db.transactions[row.1].value < cutoff
    ensures ok && 0 < batchSize ==>
      forall row :: row in db.blocksTransactions && row.1 in db.transactions && db.transactions[row.1].Some? ==>
        cutoff <= db.transactions[row.1].value
    ensures ok && 0 < batchSize ==>
      db.blocksTransactions == old(db.blocksTransactions) - ExpiredRelations(old(db.blocksTransactions), db.transactions, cutoff)
    ensures batchSize == 0 ==> db.blocksTransactions == old(db.blocksTransactions)
    ensures failure == None ==> ok
  {
    var left, rowsAffected;
    var expired := ExpiredRelations(db.blocksTransactions, db.transactions, cutoff);
    left, ok, rowsAffected := DeleteInBatches(db.blocksTransactions, expired, batchSize, failure);
    db.blocksTransactions := left;
  }

  function ExpiredRelations(rows: set<(Hash, TxId)>, transactions: map<TxId, Option<int>>, cutoff: int): set<(Hash, TxId)> {
    set row | row in rows && row.1 in ExpiredIn(transactions, cutoff)
  }

  method PruneBlocks(db: Db, cutoff: int, batchSize: nat, failure: Option<nat>) returns (ok: bool)
    modifies db`blocks
    ensures forall b :: b in db.blocks ==> b in old(db.blocks) && db.blocks[b] == old(db.blocks)[b]
    ensures forall b :: b in old(db.blocks) && b !in db.blocks ==> old(db.blocks)[b].timestamp < cutoff
    ensures ok && 0 < batchSize ==> forall b :: b in db.blocks ==> cutoff <= db.blocks[b].timestamp
    ensures ok && 0 < batchSize ==> db.blocks == old(db.blocks) - ExpiredBlocks(old(db.blocks), cutoff)
    ensures batchSize == 0 ==> db.blocks == old(db.blocks)
    ensures failure == None ==> ok
  {
    var left, rowsAffected;
    left, ok, rowsAffected := DeleteInBatches(db.blocks.Keys, ExpiredBlocks(db.blocks, cutoff), batchSize, failure);
    KeepIs(db.blocks, left);
    db.blocks := Keep(db.blocks, left);
  }

  // ---- No dangling relations ----

  /** Every row of the relation belongs to a stored block. */
  ghost predicate NoneDangles(rows: set<(Hash, Hash)>, blocks: map<Hash, Block>) {
    forall row :: row in rows ==> row.0 in blocks
  }

  /** The tables after a relation step with the retention, or none, and after the blocks step, both without errors. */
  function RowsAfter(rows: set<(Hash, Hash)>, blocks: map<Hash, Block>, retention: Option<nat>, c: Config, now: int): set<(Hash, Hash)> {
    if retention.Some? && 0 < c.batchSize then rows - ExpiredRows(rows, blocks, now - Shorter(retention.value, c.blocks)) else rows
  }

  function RelationsAfter(rows: set<(Hash, TxId)>, transactions: map<TxId, Option<int>>, retention: Option<nat>, c: Config, now: int): set<(Hash, TxId)> {
    if retention.Some? && 0 < c.batchSize
    then rows - ExpiredRelations(rows, transactions, now - Shorter(retention.value, c.transactions)) else rows
  }

  function BlocksAfter(blocks: map<Hash, Block>, retention: Option<nat>, c: Config, now: int): map<Hash, Block> {
    if retention.Some? && 0 < c.batchSize then blocks - ExpiredBlocks(blocks, now - retention.value) else blocks
  }

  function AddressesAfter(rows: set<(Address, TxId)>, time: (Address, TxId) -> Option<int>, retention: Option<nat>, c: Config, now: int): set<(Address, TxId)> {
    if retention.Some? && 0 < c.batchSize then rows - ExpiredAddresses(rows, time, now - retention.value) else rows
  }

  /** Which block relations a run without errors leaves, by ages: a relation is kept no longer than the blocks. */
  lemma RowsLeft(rows: set<(Hash, Hash)>, blocks: map<Hash, Block>, retention: nat, c: Config, now: int, row: (Hash, Hash))
    ensures 0 < c.batchSize ==> (row in RowsAfter(rows, blocks, Some(retention), c, now) <==>
      && row in rows
      && (row.0 in blocks ==>
            && now - blocks[row.0].timestamp <= retention
            && (c.blocks.Some? ==> now - blocks[row.0].timestamp <= c.blocks.value)))
    ensures c.batchSize == 0 ==> RowsAfter(rows, blocks, Some(retention), c, now) == rows
    ensures RowsAfter(rows, blocks, None, c, now) == rows
  {
  }

  /** The same by the time of the transaction, and no longer than the transactions. */
  lemma RelationsLeft(rows: set<(Hash, TxId)>, transactions: map<TxId, Option<int>>, retention: nat, c: Config, now: int, row: (Hash, TxId))
    ensures 0 < c.batchSize ==> (row in RelationsAfter(rows, transactions, Some(retention), c, now) <==>
      && row in rows
      && (row.1 in transactions && transactions[row.1].Some? ==>
            && now - transactions[row.1].value <= retention
            && (c.transactions.Some? ==> now - transactions[row.1].value <= c.transactions.value)))
    ensures c.batchSize == 0 ==> RelationsAfter(rows, transactions, Some(retention), c, now) == rows
    ensures RelationsAfter(rows, transactions, None, c, now) == rows
  {
  }

  lemma BlocksLeft(blocks: map<Hash, Block>, retention: nat, c: Config, now: int, b: Hash)
    ensures 0 < c.batchSize ==>
      (b in BlocksAfter(blocks, Some(retention), c, now) <==> b in blocks && now - blocks[b].timestamp <= retention)
    ensures b in BlocksAfter(blocks, Some(retention), c, now) ==> BlocksAfter(blocks, Some(retention), c, now)[b] == blocks[b]
    ensures c.batchSize == 0 ==> BlocksAfter(blocks, Some(retention), c, now) == blocks
    ensures BlocksAfter(blocks, None, c, now) == blocks
  {
  }

  lemma AddressesLeft(rows: set<(Address, TxId)>, time: (Address, TxId) -> Option<int>, retention: nat, c: Config, now: int, row: (Address, TxId))
    ensures 0 < c.batchSize ==> (row in AddressesAfter(rows, time, Some(retention), c, now) <==>
      row in rows && (time(row.0, row.1).Some? ==> now - time(row.0, row.1).value <= retention))
    ensures c.batchSize == 0 ==> AddressesAfter(rows, time, Some(retention), c, now) == rows
    ensures AddressesAfter(rows, time, None, c, now) == rows
  {
  }

  /** A shutdown keeps back the steps from its number on, in the order of the job. */
  lemma BegunIff(shutdown: Option<nat>, retention: Option<nat>)
    ensures Begun(shutdown, BlockParent, retention) == if shutdown == Some(0) then None else retention
    ensures Begun(shutdown, BlocksTransactions, retention) == if shutdown.Some? && shutdown.value <= 1 then None else retention
    ensures Begun(shutdown, Blocks, retention) == if shutdown.Some? && shutdown.value <= 2 then None else retention
    ensures Begun(shutdown, Addresses, retention) == if shutdown.Some? && shutdown.value <= 5 then None else retention
  {
  }

  /**
   * Without errors no relation row loses its block if and only if the relation has a retention, blocks are kept for ever or
   * a shutdown comes before them, nothing is deleted at all, or no block with relation rows has expired.
   */
  lemma NoneDanglesIff(rows: set<(Hash, Hash)>, blocks: map<Hash, Block>, retention: Option<nat>, c: Config, shutdown: Option<nat>, now: int)
    requires NoneDangles(rows, blocks)
    ensures var rows' := RowsAfter(rows, blocks, Begun(shutdown, BlockParent, retention), c, now);
      NoneDangles(rows', BlocksAfter(blocks, Begun(shutdown, Blocks, c.blocks), c, now)) <==>
      (retention.Some? || c.blocks == None || !Runs(shutdown, Blocks) || c.batchSize == 0
       || ExpiredRows(rows, blocks, now - c.blocks.value) == {})
  {
    if retention == None && c.blocks.Some? && 0 < c.batchSize && Runs(shutdown, Blocks) {
      var expired := ExpiredRows(rows, blocks, now - c.blocks.value);
      var blocks' := BlocksAfter(blocks, c.blocks, c, now);
      if expired != {} {
        var row :| row in expired;
        assert row in rows && row.0 !in blocks';
      } else {
        forall row | row in rows ensures row.0 in blocks' {
          assert row !in expired;
        }
      }
    }
  }

  // ---- The job ----

  method RelationSteps(db: Db, c: Config, now: int, f: Failures, shutdown: Option<nat>) returns (stepErrors: nat)
    modifies db`blockParents, db`blocksTransactions
    ensures db.blockParents <= old(db.blockParents) && db.blocksTransactions <= old(db.blocksTransactions)
    ensures stepErrors == 0 ==>
      db.blockParents == RowsAfter(old(db.blockParents), db.blocks, Begun(shutdown, BlockParent, c.blockParent), c, now)
    ensures var retention := Begun(shutdown, BlocksTransactions, c.blocksTransactions);
      stepErrors == 0 ==>
        db.blocksTransactions == if c.blocksByTime then RowsAfter(old(db.blocksTransactions), db.blocks, retention, c, now)
                                 else RelationsAfter(old(db.blocksTransactions), db.transactions, retention, c, now)
    ensures f.blockParent == None && f.blocksTransactions == None ==> stepErrors == 0
  {
    stepErrors := 0;
    if c.blockParent.Some? && Runs(shutdown, BlockParent) {
      var ok := PruneBlockParent(db, now - Shorter(c.blockParent.value, c.blocks), c.batchSize, f.blockParent);
      stepErrors := stepErrors + if ok then 0 else 1;
    }
    if c.blocksTransactions.Some? && Runs(shutdown, BlocksTransactions) {
      var ok;
      if c.blocksByTime {
        ok := PruneBlocksTransactions(db, now - Shorter(c.blocksTransactions.value, c.blocks), c.batchSize, f.blocksTransactions);
      } else {
        ok := PruneBlocksTransactionsByTime(db, now - Shorter(c.blocksTransactions.value, c.transactions), c.batchSize, f.blocksTransactions);
      }
      stepErrors := stepErrors + if ok then 0 else 1;
    }
  }

  /** A row of the acceptances table; those without a transaction are told apart by a number. */
  datatype AcceptanceRow = WithTx(tx: TxId) | Bare(block: Hash, n: nat)

  function RowsOf(acceptances: map<TxId, Option<Hash>>, chainBlocks: multiset<Hash>): set<AcceptanceRow> {
    (set t | t in acceptances :: WithTx(t)) + (set b: Hash, n: nat | b in chainBlocks && 0 <= n < chainBlocks[b] :: Bare(b, n))
  }

  /** The rows that name an expired block. */
  function ExpiredAcceptances(acceptances: map<TxId, Option<Hash>>, chainBlocks: multiset<Hash>, expired: set<Hash>): set<AcceptanceRow> {
    set row | row in RowsOf(acceptances, chainBlocks)
              && match row {
                case WithTx(t) => t in acceptances && acceptances[t].Some? && acceptances[t].value in expired
                case Bare(b, _) => b in expired
              }
  }

  /** How many rows without a transaction are left of the first count ones. */
  function BareLeft(left: set<AcceptanceRow>, b: Hash, count: nat): (n: nat)
    ensures n <= count
    ensures (forall i: nat :: i < count ==> Bare(b, i) !in left) ==> n == 0
  {
    if count == 0 then 0 else BareLeft(left, b, count - 1) + if Bare(b, count - 1) in left then 1 else 0
  }

  /** The rows without a transaction that are left. */
  method KeepBare(db: Db, left: set<AcceptanceRow>, expired: set<Hash>)
    modifies db`chainBlocks
    ensures forall b ::
      db.chainBlocks[b] == if b in expired then BareLeft(left, b, old(db.chainBlocks)[b]) else old(db.chainBlocks)[b]
  {
    var todo: set<Hash> := expired;
    while todo != {}
      invariant todo <= expired
      invariant forall b ::
        db.chainBlocks[b] == if b in expired - todo then BareLeft(left, b, old(db.chainBlocks)[b]) else old(db.chainBlocks)[b]
      decreases |todo|
    {
      var b: Hash :| b in todo;
      db.chainBlocks, todo := db.chainBlocks[b := BareLeft(left, b, db.chainBlocks[b])], todo - {b};
    }
  }

  lemma {:induction false} AllBareLeft(left: set<AcceptanceRow>, b: Hash, count: nat)
    requires forall n: nat :: n < count ==> Bare(b, n) in left
    ensures BareLeft(left, b, count) == count
  {
    if count > 0 {
      AllBareLeft(left, b, count - 1);
    }
  }

  /** Rows that name no expired block are kept, and if the run completes no others are. */
  ghost predicate Cleared(acceptances: map<TxId, Option<Hash>>, chainBlocks: multiset<Hash>, expired: set<Hash>, completed: bool,
                          acceptances': map<TxId, Option<Hash>>, chainBlocks': multiset<Hash>) {
    && Submap(WithoutBlocks(acceptances, expired), acceptances') && Submap(acceptances', acceptances)
    && (completed ==> acceptances' == WithoutBlocks(acceptances, expired))
    && forall b :: if b in expired then chainBlocks'[b] <= (if completed then 0 else chainBlocks[b])
                   else chainBlocks'[b] == chainBlocks[b]
  }

  lemma LeftWithTx(acceptances: map<TxId, Option<Hash>>, chainBlocks: multiset<Hash>, expired: set<Hash>, left: set<AcceptanceRow>, txs: set<TxId>)
    requires RowsOf(acceptances, chainBlocks) - ExpiredAcceptances(acceptances, chainBlocks, expired) <= left
    requires txs == set t | t in acceptances && WithTx(t) in left
    ensures Submap(WithoutBlocks(acceptances, expired), Keep(acceptances, txs)) && Submap(Keep(acceptances, txs), acceptances)
    ensures left == RowsOf(acceptances, chainBlocks) - ExpiredAcceptances(acceptances, chainBlocks, expired) ==>
      Keep(acceptances, txs) == WithoutBlocks(acceptances, expired)
  {
    forall t | t in WithoutBlocks(acceptances, expired) ensures WithTx(t) in left {
      assert WithTx(t) in RowsOf(acceptances, chainBlocks);
    }
    forall t | t in acceptances && t !in WithoutBlocks(acceptances, expired)
      ensures WithTx(t) in ExpiredAcceptances(acceptances, chainBlocks, expired)
    {
      assert WithTx(t) in RowsOf(acceptances, chainBlocks);
    }
  }

  lemma LeftIsCleared(acceptances: map<TxId, Option<Hash>>, chainBlocks: multiset<Hash>, expired: set<Hash>, left: set<AcceptanceRow>,
                      txs: set<TxId>, completed: bool, chainBlocks': multiset<Hash>)
    requires RowsOf(acceptances, chainBlocks) - ExpiredAcceptances(acceptances, chainBlocks, expired) <= left
    requires completed ==> left == RowsOf(acceptances, chainBlocks) - ExpiredAcceptances(acceptances, chainBlocks, expired)
    requires txs == set t | t in acceptances && WithTx(t) in left
    requires forall b :: chainBlocks'[b] == if b in expired then BareLeft(left, b, chainBlocks[b]) else chainBlocks[b]
    ensures Cleared(acceptances, chainBlocks, expired, completed, Keep(acceptances, txs), chainBlocks')
  {
    LeftWithTx(acceptances, chainBlocks, expired, left, txs);
    assert forall b, n: nat :: b in expired && Bare(b, n) in RowsOf(acceptances, chainBlocks) ==>
      Bare(b, n) in ExpiredAcceptances(acceptances, chainBlocks, expired);
    if completed {
      forall b | b in expired ensures BareLeft(left, b, chainBlocks[b]) == 0 {
        assert forall i: nat :: i < chainBlocks[b] ==> Bare(b, i) !in left;
      }
    }
  }

  lemma AllLeft(acceptances: map<TxId, Option<Hash>>, chainBlocks: multiset<Hash>, expired: set<Hash>, txs: set<TxId>, chainBlocks': multiset<Hash>)
    requires txs == set t | t in acceptances && WithTx(t) in RowsOf(acceptances, chainBlocks)
    requires forall b :: chainBlocks'[b] == if b in expired then BareLeft(RowsOf(acceptances, chainBlocks), b, chainBlocks[b]) else chainBlocks[b]
    ensures Keep(acceptances, txs) == acceptances && chainBlocks' == chainBlocks
  {
    assert forall t :: t in acceptances ==> WithTx(t) in RowsOf(acceptances, chainBlocks);
    forall b ensures chainBlocks'[b] == chainBlocks[b] {
      AllBareLeft(RowsOf(acceptances, chainBlocks), b, chainBlocks[b]);
    }
  }

  /** Deletes the rows that name a stored block older than the cut-off, and no others. */
  method PruneAcceptancesUsingBlocks(db: Db, cutoff: int, batchSize: nat, failure: Option<nat>) returns (ok: bool)
    modifies db`acceptances, db`chainBlocks
    ensures Cleared(old(db.acceptances), old(db.chainBlocks), ExpiredBlocks(db.blocks, cutoff), ok && 0 < batchSize,
                    db.acceptances, db.chainBlocks)
    ensures forall t :: t in db.acceptances ==> t in old(db.acceptances) && db.acceptances[t] == old(db.acceptances)[t]
    ensures forall t :: t in old(db.acceptances) && t !in db.acceptances ==>
      var b := old(db.acceptances)[t]; b.Some? && b.value in db.blocks && db.blocks[b.value].timestamp < cutoff
    ensures ok && 0 < batchSize ==> forall t :: t in db.acceptances && db.acceptances[t].Some? ==>
      db.acceptances[t].value in db.blocks ==> cutoff <= db.blocks[db.acceptances[t].value].timestamp
    ensures forall b :: db.chainBlocks[b] <= old(db.chainBlocks)[b]
    ensures forall b :: db.chainBlocks[b] < old(db.chainBlocks)[b] ==> b in db.blocks && db.blocks[b].timestamp < cutoff
    ensures ok && 0 < batchSize ==> forall b :: b in db.chainBlocks && b in db.blocks ==> cutoff <= db.blocks[b].timestamp
    ensures batchSize == 0 ==> db.acceptances == old(db.acceptances) && db.chainBlocks == old(db.chainBlocks)
    ensures failure == None ==> ok
  {
    var expired := ExpiredBlocks(db.blocks, cutoff);
    var rows, gone := RowsOf(db.acceptances, db.chainBlocks), ExpiredAcceptances(db.acceptances, db.chainBlocks, expired);
    ghost var acceptances, chainBlocks := db.acceptances, db.chainBlocks;
    var left, rowsAffected;
    left, ok, rowsAffected := DeleteInBatches(rows, gone, batchSize, failure);
    var txs := set t | t in db.acceptances && WithTx(t) in left;
    db.acceptances := Keep(db.acceptances, txs);
    KeepBare(db, left, expired);
    LeftIsCleared(acceptances, chainBlocks, expired, left, txs, ok && 0 < batchSize, db.chainBlocks);
    if batchSize == 0 {
      AllLeft(acceptances, chainBlocks, expired, txs, db.chainBlocks);
    }
  }

  method BlockSteps(db: Db, c: Config, now: int, f: Failures, shutdown: Option<nat>) returns (stepErrors: nat)
    modifies db`blocks, db`acceptances, db`chainBlocks
    ensures forall b :: b in db.blocks ==> b in old(db.blocks) && db.blocks[b] == old(db.blocks)[b]
    ensures stepErrors == 0 ==> db.blocks == BlocksAfter(old(db.blocks), Begun(shutdown, Blocks, c.blocks), c, now)
    ensures stepErrors == 0 || c.acceptance || !c.blocksByTime || c.batchSize == 0 ==>
      db.acceptances == old(db.acceptances) && db.chainBlocks == old(db.chainBlocks)
    ensures Submap(db.acceptances, old(db.acceptances)) && forall b :: db.chainBlocks[b] <= old(db.chainBlocks)[b]
    ensures f.blocks == None && f.acceptances == None ==> stepErrors == 0
  {
    stepErrors := 0;
    if c.blocks.Some? && Runs(shutdown, Blocks) {
      var cutoff := now - c.blocks.value;
      var ok := PruneBlocks(db, cutoff, c.batchSize, f.blocks);
      stepErrors := stepErrors + if ok then 0 else 1;
      if !c.acceptance && c.blocksByTime && Runs(shutdown, Acceptances) {
        assert ok && 0 < c.batchSize ==> ExpiredBlocks(db.blocks, cutoff) == {};
        ok := PruneAcceptancesUsingBlocks(db, cutoff, c.batchSize, f.acceptances);
        stepErrors := stepErrors + if ok then 0 else 1;
      }
    }
  }

  /** Transactions are pruned only if the last checkpoint is newer than the cut-off. */
  predicate GateOpen(c: Config, now: int, checkpointTime: Option<int>) {
    c.transactions.Some? && checkpointTime.Some? && checkpointTime.value > now - c.transactions.value
  }

  /** A chunk that fails rolls back, and the chunks before it stay. */
  method TransactionStep(db: Db, c: Config, now: int, checkpointTime: Option<int>, failure: Option<nat>, ghost s: Store)
    returns (stepErrors: nat, ghost s': Store, ghost chunks: seq<set<TxId>>)
    requires db.Tables() == s
    modifies db`transactions, db`inputs, db`outputs, db`acceptances
    ensures db.Tables() == s'
    ensures GateOpen(c, now, checkpointTime) ==> Pruned(s, now - c.transactions.value, c.batchSize, chunks, s')
    ensures GateOpen(c, now, checkpointTime) && stepErrors == 0 && 0 < c.batchSize ==>
      ExpiredIn(s'.transactions, now - c.transactions.value) == {}
    ensures !GateOpen(c, now, checkpointTime) ==> s' == s && stepErrors == 0
    ensures c.transactions == None || checkpointTime == None || now - checkpointTime.value >= c.transactions.value ==> s' == s
    ensures c.transactions.Some? && checkpointTime.Some? && now - checkpointTime.value < c.transactions.value && stepErrors == 0
            && 0 < c.batchSize ==>
      forall t :: t in s'.transactions && s'.transactions[t].Some? ==> now - s'.transactions[t].value <= c.transactions.value
    ensures stepErrors > 0 ==> stepErrors == 1 && failure == Some(|chunks|)
  {
    stepErrors, s', chunks := 0, s, [];
    if c.transactions.Some? {
      var cutoff := now - c.transactions.value;
      if checkpointTime.Some? && checkpointTime.value > cutoff {
        var ok, rows;
        ok, rows, s', chunks := PruneFrom(db, cutoff, c.batchSize, failure, s);
        stepErrors := if ok then 0 else 1;
      }
    }
  }

  /** Rows whose time is known and before the cut-off. */
  function ExpiredAddresses(rows: set<(Address, TxId)>, time: (Address, TxId) -> Option<int>, cutoff: int): set<(Address, TxId)> {
    set row | row in rows && time(row.0, row.1).Some? && time(row.0, row.1).value < cutoff
  }

  method PruneAddresses(db: Db, time: (Address, TxId) -> Option<int>, cutoff: int, batchSize: nat, failure: Option<nat>) returns (ok: bool)
    modifies db`addressesTransactions
    ensures db.addressesTransactions <= old(db.addressesTransactions)
    ensures forall row :: row in old(db.addressesTransactions) && row !in db.addressesTransactions ==>
      time(row.0, row.1).Some? && time(row.0, row.1).value < cutoff
    ensures ok && 0 < batchSize ==>
      forall row :: row in db.addressesTransactions && time(row.0, row.1).Some? ==> cutoff <= time(row.0, row.1).value
    ensures ok && 0 < batchSize ==>
      db.addressesTransactions == old(db.addressesTransactions) - ExpiredAddresses(old(db.addressesTransactions), time, cutoff)
    ensures batchSize == 0 ==> db.addressesTransactions == old(db.addressesTransactions)
    ensures failure == None ==> ok
  {
    var left, rowsAffected;
    var expired := ExpiredAddresses(db.addressesTransactions, time, cutoff);
    left, ok, rowsAffected := DeleteInBatches(db.addressesTransactions, expired, batchSize, failure);
    db.addressesTransactions := left;
  }

  method AddressStep(db: Db, c: Config, now: int, time: (Address, TxId) -> Option<int>, f: Failures, shutdown: Option<nat>)
    returns (stepErrors: nat)
    modifies db`addressesTransactions
    ensures db.addressesTransactions <= old(db.addressesTransactions)
    ensures stepErrors == 0 ==>
      db.addressesTransactions == AddressesAfter(old(db.addressesTransactions), time, Begun(shutdown, Addresses, c.addresses), c, now)
    ensures f.addresses == None ==> stepErrors == 0
  {
    stepErrors := 0;
    if c.addresses.Some? && Runs(shutdown, Addresses) {
      var ok := PruneAddresses(db, time, now - c.addresses.value, c.batchSize, f.addresses);
      stepErrors := if ok then 0 else 1;
    }
  }

  /**
   * One run of the job: relations, then blocks, then transactions, then addresses. A step that fails does not stop the next
   * ones, and a shutdown keeps the job from beginning another one. s are the tables that the transaction step starts from.
   */
  method Prune(db: Db, c: Config, now: int, checkpointTime: Option<int>, time: (Address, TxId) -> Option<int>, f: Failures, shutdown: Option<nat>)
    returns (stepErrors: nat, ghost s: Store, ghost s': Store, ghost chunks: seq<set<TxId>>)
    modifies db`blockParents, db`blocksTransactions, db`blocks, db`acceptances, db`chainBlocks, db`transactions, db`inputs, db`outputs
    modifies db`addressesTransactions
    ensures stepErrors == 0 ==> db.blocks == BlocksAfter(old(db.blocks), Begun(shutdown, Blocks, c.blocks), c, now)
    ensures stepErrors == 0 ==>
      db.blockParents == RowsAfter(old(db.blockParents), old(db.blocks), Begun(shutdown, BlockParent, c.blockParent), c, now)
    ensures var retention := Begun(shutdown, BlocksTransactions, c.blocksTransactions);
      stepErrors == 0 ==>
        db.blocksTransactions == if c.blocksByTime then RowsAfter(old(db.blocksTransactions), old(db.blocks), retention, c, now)
                                 else RelationsAfter(old(db.blocksTransactions), old(db.transactions), retention, c, now)
    ensures stepErrors == 0 ==>
      db.addressesTransactions == AddressesAfter(old(db.addressesTransactions), time, Begun(shutdown, Addresses, c.addresses), c, now)
    ensures s == old(db.Tables()).(acceptances := s.acceptances)
    ensures forall t :: t in s.acceptances ==> t in old(db.acceptances) && s.acceptances[t] == old(db.acceptances)[t]
    ensures stepErrors == 0 || c.acceptance || !c.blocksByTime || c.batchSize == 0 ==> s == old(db.Tables())
    ensures s' == db.Tables()
    ensures var prunes := GateOpen(c, now, checkpointTime) && Runs(shutdown, Transactions);
      && (prunes ==> Pruned(s, now - c.transactions.value, c.batchSize, chunks, s'))
      && (prunes && stepErrors == 0 && 0 < c.batchSize ==> ExpiredIn(s'.transactions, now - c.transactions.value) == {})
      && (!prunes ==> s' == s)
    ensures var checked := c.transactions.Some? && checkpointTime.Some? && now - checkpointTime.value < c.transactions.value;
      && (!checked || (shutdown.Some? && shutdown.value <= 4) ==> s' == s)
      && (checked && (shutdown.Some? ==> 4 < shutdown.value) && stepErrors == 0 && 0 < c.batchSize ==>
            forall t :: t in s'.transactions && s'.transactions[t].Some? ==> now - s'.transactions[t].value <= c.transactions.value)
    ensures f == Failures(None, None, None, None, None, None) ==> stepErrors == 0
    ensures stepErrors == 0 && c.blockParent.Some? && NoneDangles(old(db.blockParents), old(db.blocks)) ==>
      NoneDangles(db.blockParents, db.blocks)
  {
    ghost var blocks0, parents0 := db.blocks, db.blockParents;
    stepErrors := RelationSteps(db, c, now, f, shutdown);
    var more := BlockSteps(db, c, now, f, shutdown);
    stepErrors := stepErrors + more;
    s := db.Tables();
    s', chunks := s, [];
    if Runs(shutdown, Transactions) {
      more, s', chunks := TransactionStep(db, c, now, checkpointTime, f.transactions, s);
      stepErrors := stepErrors + more;
    }
    more := AddressStep(db, c, now, time, f, shutdown);
    stepErrors := stepErrors + more;
    if NoneDangles(parents0, blocks0) {
      NoneDanglesIff(parents0, blocks0, c.blockParent, c, shutdown, now);
    }
  }
}
