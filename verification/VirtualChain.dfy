/** The virtual chain processor: the acceptance rows follow the node's chain through reorgs. */
module VirtualChain {
  import opened Database
  import opened Acceptances
  import opened TipDistance

  /** The node's answer to a request from a start hash. */
  datatype Reply = Reply(removed: seq<Hash>, added: seq<Hash>, accepted: seq<AcceptedIds>)

  /** A start-up without dynamic tip distance holds no block back. With acceptance off, rows name blocks only. */
  datatype Config = Config(acceptance: bool, dynamic: bool, window: nat)

  /** The processor and the tables it writes. */
  datatype View = View(startHash: Hash, synced: bool, tip: Tip, acceptances: map<TxId, Option<Hash>>, chainBlocks: multiset<Hash>)

  const SYNC_THRESHOLD: nat := 200

  /** The rows after the removed blocks are cleared and the first taken added ones are written. */
  ghost predicate Rewritten(c: Config, v: View, reply: Reply, taken: nat, acceptances: map<TxId, Option<Hash>>, chainBlocks: multiset<Hash>)
    requires taken <= |reply.added| && (c.acceptance ==> |reply.accepted| == |reply.added|)
  {
    var removed := HashSet(reply.removed);
    if c.acceptance then
      && InsertedFor(WithoutBlocks(v.acceptances, removed), reply.accepted[..taken], acceptances)
      && forall b :: chainBlocks[b] == if b in removed then 0 else v.chainBlocks[b]
    else
      && acceptances == WithoutBlocks(v.acceptances, removed)
      && forall b :: chainBlocks[b] == (if b in removed then 0 else v.chainBlocks[b]) + multiset(reply.added[..taken])[b]
  }

  /** The tip distance after a poll that was processed: a poll that deleted rows counts as a reorg. */
  ghost function NextTip(c: Config, v: View, reply: Reply): Tip {
    if c.dynamic then Adjusted(v.tip, c.window, Hit(v.acceptances, v.chainBlocks, HashSet(reply.removed)), v.synced) else v.tip
  }

  /** One poll. It is skipped as a whole unless more blocks were added than are held back. */
  ghost predicate Polled(c: Config, v: View, reply: Reply, v': View)
    requires c.acceptance ==> |reply.accepted| == |reply.added|
  {
    && v'.synced == (v.synced || |reply.added| < SYNC_THRESHOLD)
    && if |reply.added| <= v.tip.distance then
         v' == v.(synced := v'.synced)
       else
         var taken := |reply.added| - v.tip.distance;
         && v'.startHash == reply.added[taken - 1]
         && Rewritten(c, v, reply, taken, v'.acceptances, v'.chainBlocks)
         && v'.tip == NextTip(c, v, reply)
  }

  class Processor {
    const db: Db
    const controller: Controller
    const acceptance: bool
    const dynamic: bool
    const batchSize: nat
    const acceptBatchSize: nat
    var startHash: Hash
    var synced: bool

    constructor (db: Db, controller: Controller, acceptance: bool, dynamic: bool, batchSize: nat, acceptBatchSize: nat, checkpoint: Hash)
      requires 0 < batchSize && 0 < acceptBatchSize && 0 < controller.window
      ensures this.db == db && this.controller == controller && Now() == View(checkpoint, false, controller.State(), db.acceptances, db.chainBlocks)
      ensures Setup() == Config(acceptance, dynamic, controller.window) && Valid()
    {
      this.db, this.controller, this.acceptance, this.dynamic := db, controller, acceptance, dynamic;
      this.batchSize, this.acceptBatchSize := batchSize, acceptBatchSize;
      startHash, synced := checkpoint, false;
    }

    predicate Valid() {
      0 < batchSize && 0 < acceptBatchSize && 0 < controller.window
    }

    function Setup(): Config {
      Config(acceptance, dynamic, controller.window)
    }

    function Now(): View
      reads this, db, controller
    {
      View(startHash, synced, controller.State(), db.acceptances, db.chainBlocks)
    }

    /** Removes and writes rows for a reply that is not skipped. */
    method Write(reply: Reply, taken: nat) returns (rowsRemoved: nat)
      requires Valid() && 0 < taken <= |reply.added| && (acceptance ==> |reply.accepted| == |reply.added|)
      modifies db`acceptances, db`chainBlocks
      ensures Rewritten(Setup(), old(Now()), reply, taken, db.acceptances, db.chainBlocks)
      ensures rowsRemoved > 0 <==> Hit(old(db.acceptances), old(db.chainBlocks), HashSet(reply.removed))
    {
      ghost var v := Now();
      rowsRemoved := DeleteByBlocks(db, reply.removed, batchSize);
      HitCounts(v.acceptances, v.chainBlocks, HashSet(reply.removed), db.acceptances, db.chainBlocks);
      if acceptance {
        var rowsAdded := AcceptTransactions(db, reply.accepted[..taken], acceptBatchSize);
      } else {
        var rowsAdded := AddChainBlocks(db, reply.added[..taken], batchSize);
      }
    }

    method Process(reply: Reply, taken: nat)
      requires Valid() && 0 < taken <= |reply.added| && (acceptance ==> |reply.accepted| == |reply.added|)
      modifies this`startHash, db`acceptances, db`chainBlocks, controller`distance, controller`history
      ensures Rewritten(Setup(), old(Now()), reply, taken, db.acceptances, db.chainBlocks)
      ensures startHash == reply.added[taken - 1]
      ensures controller.State() == NextTip(Setup(), old(Now()), reply)
    {
      var rowsRemoved := Write(reply, taken);
      if dynamic {
        controller.Adjust(rowsRemoved, synced);
      }
      startHash := reply.added[taken - 1];
    }

    method Poll(reply: Reply) returns (checkpoint: Option<Hash>)
      requires Valid() && (acceptance ==> |reply.accepted| == |reply.added|)
      modifies this`startHash, this`synced, db`acceptances, db`chainBlocks, controller`distance, controller`history
      ensures Polled(Setup(), old(Now()), reply, Now())
      ensures checkpoint == if |reply.added| > old(controller.distance) then Some(startHash) else None
    {
      checkpoint := None;
      if |reply.added| > controller.distance {
        Process(reply, |reply.added| - controller.distance);
        checkpoint := Some(startHash);
      }
      if !synced && |reply.added| < SYNC_THRESHOLD {
        synced := true;
      }
    }
  }
}
