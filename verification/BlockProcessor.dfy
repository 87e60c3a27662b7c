/** The block processor: stores blocks, clears stale acceptances at start-up and decides when the chain processor may start. */
module BlockProcessor {
  import opened Database
  import opened Inserts
  import opened Acceptances

  const NOOP_DELETES_BEFORE_VCP: nat := 10

  datatype BlockData = BlockData(hash: Hash, block: Block, parents: seq<Hash>, synced: bool)

  /** Which tables are written, whether the chain is processed, and whether its start may skip the wait for sync. */
  datatype Options = Options(blocks: bool, relations: bool, chain: bool, skipSyncWait: bool)

  /** The part of the state that the start of the chain processor depends on. */
  datatype Startup = Startup(acceptances: map<TxId, Option<Hash>>, chainBlocks: multiset<Hash>, committed: seq<Hash>,
                             noops: nat, started: bool)

  /** The first block of all is the checkpoint, whose rows the chain processor would not write again. */
  function ToClear(s: Startup, batch: seq<Hash>): seq<Hash> {
    if s.committed == [] && batch != [] then batch[1..] else batch
  }

  /** A batch committed while the chain processor waits. */
  ghost predicate Commits(o: Options, s: Startup, batch: seq<Hash>, synced: bool, s': Startup) {
    && !s.started && batch != []
    && s'.committed == s.committed + batch
    && Cleared(s.acceptances, s.chainBlocks, HashSet(ToClear(s, batch)), s'.acceptances, s'.chainBlocks)
    && s'.noops == (if Quiet(o, s, synced, s') then s.noops + 1 else 0)
    && s'.started == (s'.noops >= NOOP_DELETES_BEFORE_VCP)
  }

  /** The batch came in sync, or sync does not matter, and had nothing to clear. */
  predicate Quiet(o: Options, s: Startup, synced: bool, s': Startup) {
    (o.skipSyncWait || synced) && s'.acceptances == s.acceptances && s'.chainBlocks == s.chainBlocks
  }

  function RowSet(rows: seq<(Hash, Hash)>): set<(Hash, Hash)> {
    set row | row in rows
  }

  function ParentRows(data: BlockData): seq<(Hash, Hash)> {
    seq(|data.parents|, i requires 0 <= i < |data.parents| => (data.hash, data.parents[i]))
  }

  lemma ParentRowsAre(data: BlockData)
    ensures forall row :: row in ParentRows(data) <==> row.0 == data.hash && row.1 in data.parents
  {
    forall p | p in data.parents ensures (data.hash, p) in ParentRows(data) {
      var i :| 0 <= i < |data.parents| && data.parents[i] == p;
      assert ParentRows(data)[i] == (data.hash, p);
    }
  }

  class Processor {
    const db: Db
    const options: Options
    const batchSize: nat
    const insertBatchSize: nat
    const clearBatchSize: nat
    var blocks: seq<(Hash, Block)>
    var blocksParents: seq<(Hash, Hash)>
    var checkpointBlocks: seq<Hash>
    var firstBlock: bool
    var noopDeleteCount: nat
    var vcpStarted: bool
    var queue: seq<Hash>                  // the checkpoint queue

    constructor (db: Db, options: Options, batchSize: nat, insertBatchSize: nat, clearBatchSize: nat)
      requires 0 < insertBatchSize && 0 < clearBatchSize
      ensures this.db == db && this.options == options && Valid() && checkpointBlocks == [] && queue == []
      ensures Now() == Startup(db.acceptances, db.chainBlocks, [], 0, false)
    {
      this.db, this.options, this.batchSize, this.insertBatchSize, this.clearBatchSize :=
        db, options, batchSize, insertBatchSize, clearBatchSize;
      blocks, blocksParents, checkpointBlocks, queue := [], [], [], [];
      firstBlock, noopDeleteCount, vcpStarted := true, 0, false;
    }

    function Now(): Startup
      reads this, db
    {
      Startup(db.acceptances, db.chainBlocks, queue, noopDeleteCount, vcpStarted)
    }

    ghost predicate Valid()
      reads this
    {
      && 0 < insertBatchSize && 0 < clearBatchSize
      && (options.chain ==> (firstBlock <==> queue == []))
      && (vcpStarted ==> options.chain && !firstBlock)
    }

    /** Inserts the batch chunk by chunk; a stored block keeps its row. */
    method InsertBlocks()
      requires 0 < insertBatchSize
      modifies db`blocks
      ensures Inserted(old(db.blocks), blocks, db.blocks)
    {
      db.blocks := InsertInOrder(db.blocks, blocks, insertBatchSize);
      InsertAllInserts(old(db.blocks), blocks);
    }

    method InsertBlockParents()
      modifies db`blockParents
      ensures db.blockParents == old(db.blockParents) + RowSet(blocksParents)
    {
      db.blockParents := db.blockParents + RowSet(blocksParents);
    }

    /** The clean-up of a batch, and the count of batches in a row that had nothing to clean. */
    method CleanUp(synced: bool)
      requires 0 < clearBatchSize && options.chain && !vcpStarted && checkpointBlocks != []
      requires firstBlock <==> queue == []
      modifies this`firstBlock, this`noopDeleteCount, this`vcpStarted, db`acceptances, db`chainBlocks
      ensures !firstBlock
      ensures Commits(options, old(Now()), checkpointBlocks, synced, Now().(committed := queue + checkpointBlocks))
    {
      ghost var s := Now();
      var hashes := checkpointBlocks[if firstBlock then 1 else 0..];
      assert hashes == ToClear(s, checkpointBlocks);
      var tasDeleted := DeleteByBlocks(db, hashes, clearBatchSize);
      HitCounts(s.acceptances, s.chainBlocks, HashSet(hashes), db.acceptances, db.chainBlocks);
      firstBlock := false;
      if (options.skipSyncWait || synced) && tasDeleted == 0 {
        noopDeleteCount := noopDeleteCount + 1;
      } else {
        noopDeleteCount := 0;
      }
      if noopDeleteCount >= NOOP_DELETES_BEFORE_VCP {
        vcpStarted := true;
      }
    }

    /** Commits the batch and queues its blocks for the checkpoint task. */
    method Commit(synced: bool)
      requires Valid() && checkpointBlocks != []
      modifies this`blocks, this`blocksParents, this`checkpointBlocks, this`firstBlock, this`noopDeleteCount, this`vcpStarted, this`queue
      modifies db`blocks, db`blockParents, db`acceptances, db`chainBlocks
      ensures Valid() && checkpointBlocks == [] && queue == old(queue) + old(checkpointBlocks)
      ensures options.chain && !old(vcpStarted) ==> Commits(options, old(Now()), old(checkpointBlocks), synced, Now())
      ensures old(vcpStarted) || !options.chain ==>
        vcpStarted == old(vcpStarted) && db.acceptances == old(db.acceptances) && db.chainBlocks == old(db.chainBlocks)
      ensures options.blocks ==> Inserted(old(db.blocks), old(blocks), db.blocks)
      ensures options.relations ==> db.blockParents == old(db.blockParents) + RowSet(old(blocksParents))
    {
      if options.blocks {
        InsertBlocks();
      }
      if options.relations {
        InsertBlockParents();
      }
      if !vcpStarted && options.chain {
        CleanUp(synced);
      }
      queue := queue + checkpointBlocks;
      blocks, checkpointBlocks, blocksParents := [], [], [];
    }

    /** Handles one popped block; late: more than two seconds passed since the last commit. */
    method Handle(data: BlockData, late: bool) returns (committed: bool)
      requires Valid()
      modifies this`blocks, this`blocksParents, this`checkpointBlocks, this`firstBlock, this`noopDeleteCount, this`vcpStarted, this`queue
      modifies db`blocks, db`blockParents, db`acceptances, db`chainBlocks
      ensures Valid()
      ensures committed <==> |old(checkpointBlocks)| + 1 >= batchSize || late
      ensures !committed ==> Now() == old(Now()) && checkpointBlocks == old(checkpointBlocks) + [data.hash]
      ensures !committed && options.blocks ==> blocks == old(blocks) + [(data.hash, data.block)]
      ensures !committed && options.relations ==> blocksParents == old(blocksParents) + ParentRows(data)
      ensures committed ==> queue == old(queue) + (old(checkpointBlocks) + [data.hash]) && checkpointBlocks == []
      ensures committed && options.chain && !old(vcpStarted) ==>
        Commits(options, old(Now()), old(checkpointBlocks) + [data.hash], data.synced, Now())
      ensures old(vcpStarted) || !options.chain ==>
        vcpStarted == old(vcpStarted) && db.acceptances == old(db.acceptances) && db.chainBlocks == old(db.chainBlocks)
      ensures committed && options.blocks ==> Inserted(old(db.blocks), old(blocks) + [(data.hash, data.block)], db.blocks)
      ensures committed && options.relations ==> forall row :: row in db.blockParents <==>
        row in old(db.blockParents) || row in old(blocksParents) || (row.0 == data.hash && row.1 in data.parents)
    {
      ParentRowsAre(data);
      if options.blocks {
        blocks := blocks + [(data.hash, data.block)];
      }
      if options.relations {
        blocksParents := blocksParents + ParentRows(data);
      }
      checkpointBlocks := checkpointBlocks + [data.hash];
      committed := |checkpointBlocks| >= batchSize || late;
      if committed {
        Commit(data.synced);
      }
    }
  }
}
