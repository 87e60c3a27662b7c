/** The checkpoint task: records of committed blocks come in, and a gate decides which block becomes the restart point. */
module Checkpoint {
  import opened Database
  import opened Balances
  import opened BalanceUpdater
  import opened Windows

  const CHECKPOINT_SAVE_INTERVAL: int := 30
  const CHECKPOINT_WARN_INTERVAL: int := 30
  const MAX_TIME_WITHOUT_SAVE: int := 120

  datatype Origin = Blocks | Transactions | Vcp | Initial

  datatype CheckpointBlock = CheckpointBlock(origin: Origin, hash: Hash)

  datatype Config = Config(disableChain: bool, disableTransactions: bool)

  /** Times are in milliseconds. */
  datatype Gate = Gate(candidate: Option<CheckpointBlock>, blocks: set<Hash>, txs: set<Hash>, okBlocks: bool, okTxs: bool,
                       lastSaved: int, lastWarned: int)

  /** Elapsed whole seconds. */
  function Seconds(from: int, now: int): int {
    if now < from then 0 else (now - from) / 1000
  }

  /** Saved: the candidate was taken, by force or because its rows are known to be committed. */
  datatype Outcome = Idle | Waiting | Saved(block: CheckpointBlock, forced: bool)

  // ---- One round ----

  /** A candidate is only taken up when there is none. */
  function Nominated(g: Gate, r: CheckpointBlock, now: int): Gate {
    if g.candidate == None && Seconds(g.lastSaved, now) > CHECKPOINT_SAVE_INTERVAL
    then g.(candidate := Some(r), okBlocks := true, okTxs := false)
    else g
  }

  function Popped(c: Config, g: Gate, r: Option<CheckpointBlock>, now: int): Gate {
    match r
    case None => g
    case Some(b) => match b.origin
      case Blocks => if c.disableChain then Nominated(g, b, now) else g.(blocks := g.blocks + {b.hash})
      case Transactions => g.(txs := g.txs + {b.hash})
      case Vcp => Nominated(g, b, now)
      case Initial => g
  }

  /** The flags of the candidate; the sets are forgotten. */
  function Checked(c: Config, g: Gate, hash: Hash): Gate {
    g.(okBlocks := g.okBlocks || hash in g.blocks, okTxs := g.okTxs || c.disableTransactions || hash in g.txs,
       blocks := {}, txs := {})
  }

  /** When a round reads the clock: at the pop, at the check, and at its end. */
  datatype Clock = Clock(popped: int, checked: int, done: int)

  predicate Overdue(g: Gate, clock: Clock) {
    Seconds(g.lastSaved, clock.checked) > MAX_TIME_WITHOUT_SAVE
  }

  function Decided(c: Config, g: Gate, clock: Clock): (Gate, Outcome) {
    if g.candidate == None then (g, Idle) else
      var checked := Checked(c, g, g.candidate.value.hash);
      if (checked.okBlocks && checked.okTxs) || Overdue(g, clock) then
        (checked.(candidate := None, okBlocks := true, okTxs := true, lastSaved := clock.done),
         Saved(g.candidate.value, Overdue(g, clock)))
      else if Seconds(g.lastWarned, clock.checked) > CHECKPOINT_WARN_INTERVAL then
        (checked.(lastWarned := clock.done), Waiting)
      else (checked, Waiting)
  }

  function Round(c: Config, g: Gate, r: Option<CheckpointBlock>, clock: Clock): (Gate, Outcome) {
    Decided(c, Popped(c, g, r, clock.popped), clock)
  }

  /** A pending candidate stays until it is saved, whatever is popped meanwhile. */
  lemma PendingCandidateStays(c: Config, g: Gate, r: Option<CheckpointBlock>, clock: Clock)
    requires g.candidate.Some?
    ensures match Round(c, g, r, clock).1
      case Saved(block, _) => block == g.candidate.value && Round(c, g, r, clock).0.candidate == None
      case _ => Round(c, g, r, clock).0.candidate == g.candidate
  {
  }

  // ---- Exactly when a candidate is saved without force ----

  /** A candidate whose transactions are not known to be committed, and whose record was not kept. */
  predicate WaitsFor(c: Config, g: Gate, k: CheckpointBlock) {
    g.candidate == Some(k) && g.okBlocks && !g.okTxs && g.txs == {} && !c.disableTransactions
  }

  /** While a candidate waits, all records are forgotten: one that came for a later block is lost to it. */
  lemma WaitingForgets(c: Config, g: Gate, r: Option<CheckpointBlock>, clock: Clock, k: CheckpointBlock)
    requires WaitsFor(c, g, k) && !Overdue(g, clock)
    ensures Round(c, g, r, clock).1 == if r == Some(CheckpointBlock(Transactions, k.hash)) then Saved(k, false) else Waiting
    ensures Round(c, g, r, clock).1 == Waiting ==> WaitsFor(c, Round(c, g, r, clock).0, k)
    ensures Round(c, g, r, clock).0.txs == {}
  {
  }

  /** Over any number of turns: a waiting candidate is saved without force in the turn that pops its record, and in no other. */
  lemma {:induction false} SavedByItsRecord(c: Config, gs: seq<Gate>, rs: seq<Option<CheckpointBlock>>, clocks: seq<Clock>, k: CheckpointBlock, n: nat)
    requires |gs| == |rs| + 1 == |clocks| + 1 && n < |rs|
    requires forall i :: 0 <= i < |rs| ==> gs[i + 1] == Round(c, gs[i], rs[i], clocks[i]).0
    requires forall i :: 0 <= i <= n ==> !Overdue(gs[i], clocks[i])
    requires WaitsFor(c, gs[0], k)
    requires forall i :: 0 <= i < n ==> rs[i] != Some(CheckpointBlock(Transactions, k.hash))
    ensures WaitsFor(c, gs[n], k)
    ensures Round(c, gs[n], rs[n], clocks[n]).1 == Saved(k, false) <==> rs[n] == Some(CheckpointBlock(Transactions, k.hash))
  {
    if n > 0 {
      SavedByItsRecord(c, gs, rs, clocks, k, n - 1);
      WaitingForgets(c, gs[n - 1], rs[n - 1], clocks[n - 1], k);
    }
    WaitingForgets(c, gs[n], rs[n], clocks[n], k);
  }

  // ---- Runs of the gate ----

  /** The turns of the loop from its start. */
  predicate Turns(c: Config, start: int, gs: seq<Gate>, rs: seq<Option<CheckpointBlock>>, clocks: seq<Clock>) {
    && |gs| == |rs| + 1 == |clocks| + 1
    && gs[0] == Gate(None, {}, {}, false, false, start, start)
    && forall i :: 0 <= i < |rs| ==> gs[i + 1] == Round(c, gs[i], rs[i], clocks[i]).0
  }

  function OutcomeOf(c: Config, gs: seq<Gate>, rs: seq<Option<CheckpointBlock>>, clocks: seq<Clock>, n: nat): Outcome
    requires |gs| == |rs| + 1 == |clocks| + 1 && n < |rs|
  {
    Round(c, gs[n], rs[n], clocks[n]).1
  }

  /** The block's transaction record was popped in one of the turns before n, and none since has looked at a candidate. */
  predicate RecordKept(c: Config, gs: seq<Gate>, rs: seq<Option<CheckpointBlock>>, clocks: seq<Clock>, n: nat, h: Hash)
    requires |gs| == |rs| + 1 == |clocks| + 1 && n <= |rs|
  {
    exists i :: 0 <= i < n && rs[i] == Some(CheckpointBlock(Transactions, h)) && forall j :: i <= j < n ==> OutcomeOf(c, gs, rs, clocks, j) == Idle
  }

  /** What a turn takes over from the one before. */
  predicate Settled(c: Config, g: Gate) {
    g.candidate.Some? ==> g.okBlocks && !g.okTxs && g.txs == {} && !c.disableTransactions
  }

  lemma RoundKeeps(c: Config, g: Gate, r: Option<CheckpointBlock>, clock: Clock)
    requires Settled(c, g)
    ensures Settled(c, Round(c, g, r, clock).0)
    ensures Round(c, g, r, clock).0.txs ==
      if Round(c, g, r, clock).1 != Idle then {}
      else g.txs + if r.Some? && r.value.origin == Transactions then {r.value.hash} else {}
  {
  }

  lemma KeptIff(c: Config, start: int, gs: seq<Gate>, rs: seq<Option<CheckpointBlock>>, clocks: seq<Clock>, n: nat, h: Hash)
    requires Turns(c, start, gs, rs, clocks) && n < |rs|
    ensures RecordKept(c, gs, rs, clocks, n + 1, h) <==>
      OutcomeOf(c, gs, rs, clocks, n) == Idle
      && (rs[n] == Some(CheckpointBlock(Transactions, h)) || RecordKept(c, gs, rs, clocks, n, h))
  {
    if OutcomeOf(c, gs, rs, clocks, n) == Idle && RecordKept(c, gs, rs, clocks, n, h) {
      var i :| 0 <= i < n && rs[i] == Some(CheckpointBlock(Transactions, h)) && forall j :: i <= j < n ==> OutcomeOf(c, gs, rs, clocks, j) == Idle;
      assert forall j :: i <= j < n + 1 ==> OutcomeOf(c, gs, rs, clocks, j) == Idle;
    }
  }

  lemma {:induction false} TurnsKeep(c: Config, start: int, gs: seq<Gate>, rs: seq<Option<CheckpointBlock>>, clocks: seq<Clock>, n: nat)
    requires Turns(c, start, gs, rs, clocks) && n <= |rs|
    ensures Settled(c, gs[n])
    ensures forall h :: h in gs[n].txs <==> RecordKept(c, gs, rs, clocks, n, h)
    decreases n
  {
    if n > 0 {
      TurnsKeep(c, start, gs, rs, clocks, n - 1);
      RoundKeeps(c, gs[n - 1], rs[n - 1], clocks[n - 1]);
      forall h ensures h in gs[n].txs <==> RecordKept(c, gs, rs, clocks, n, h) {
        KeptIff(c, start, gs, rs, clocks, n - 1, h);
      }
    }
  }

  /** A record is taken up if there is no candidate, it is of the right kind, and the last save is long enough ago. */
  lemma TakenUpIff(c: Config, g: Gate, r: Option<CheckpointBlock>, clock: Clock)
    requires g.candidate == None
    ensures Round(c, g, r, clock).1 != Idle <==>
      r.Some? && (r.value.origin == Vcp || (r.value.origin == Blocks && c.disableChain)) && clock.popped - g.lastSaved >= 31_000
    ensures match Round(c, g, r, clock).1
      case Idle => Round(c, g, r, clock).0.candidate == None
      case Waiting => Round(c, g, r, clock).0.candidate == r
      case Saved(block, _) => r == Some(block) && Round(c, g, r, clock).0.candidate == None
  {
  }

  /** A block at the gate, pending or just taken up, is saved if it is overdue or its transactions are known to be committed. */
  lemma SavedIff(c: Config, g: Gate, r: Option<CheckpointBlock>, clock: Clock, k: CheckpointBlock)
    requires Settled(c, g) && Round(c, g, r, clock).1 != Idle && Some(k) == if g.candidate.Some? then g.candidate else r
    ensures Round(c, g, r, clock).1.Saved? <==>
      || clock.checked - g.lastSaved >= 121_000
      || c.disableTransactions || k.hash in g.txs || r == Some(CheckpointBlock(Transactions, k.hash))
    ensures Round(c, g, r, clock).1.Saved? ==>
      Round(c, g, r, clock).1 == Saved(k, clock.checked - g.lastSaved >= 121_000)
    ensures Round(c, g, r, clock).0.lastSaved == if Round(c, g, r, clock).1.Saved? then clock.done else g.lastSaved
  {
  }

  /**
   * What each turn of a run does. Without a candidate, a record of the chain processor (of the block processor, if the chain
   * is disabled) is taken up if and only if the last save is 31 seconds or more ago. A block that is pending or taken up is
   * saved in a turn if and only if the last save is 121 seconds or more ago, or transactions are disabled, or its transaction
   * record is popped in this turn or was since a candidate was last looked at; else it waits. The next intervals count from a
   * save.
   */
  lemma TurnLaw(c: Config, start: int, gs: seq<Gate>, rs: seq<Option<CheckpointBlock>>, clocks: seq<Clock>, n: nat)
    requires Turns(c, start, gs, rs, clocks) && n < |rs|
    ensures var at, r, out := gs[n].candidate, rs[n], OutcomeOf(c, gs, rs, clocks, n);
      && (out == Idle <==> at == None && !(r.Some? && (r.value.origin == Vcp || (r.value.origin == Blocks && c.disableChain))
                                           && clocks[n].popped - gs[n].lastSaved >= 31_000))
      && gs[n + 1].candidate == (if out == Waiting then if at.Some? then at else r else None)
      && gs[n + 1].lastSaved == (if out.Saved? then clocks[n].done else gs[n].lastSaved)
      && (out != Idle ==> var k := if at.Some? then at.value else r.value;
            && (out.Saved? ==> out == Saved(k, clocks[n].checked - gs[n].lastSaved >= 121_000))
            && (out.Saved? <==>
                  || clocks[n].checked - gs[n].lastSaved >= 121_000
                  || c.disableTransactions
                  || r == Some(CheckpointBlock(Transactions, k.hash))
                  || RecordKept(c, gs, rs, clocks, n, k.hash)))
  {
    TurnsKeep(c, start, gs, rs, clocks, n);
    if gs[n].candidate == None {
      TakenUpIff(c, gs[n], rs[n], clocks[n]);
    } else {
      PendingCandidateStays(c, gs[n], rs[n], clocks[n]);
    }
    if OutcomeOf(c, gs, rs, clocks, n) != Idle {
      SavedIff(c, gs[n], rs[n], clocks[n], if gs[n].candidate.Some? then gs[n].candidate.value else rs[n].value);
    }
  }

  /** A block that is taken up is pending until a turn saves it. */
  lemma {:induction false} PendingUntilSaved(c: Config, start: int, gs: seq<Gate>, rs: seq<Option<CheckpointBlock>>, clocks: seq<Clock>,
                                             m: nat, n: nat, k: CheckpointBlock)
    requires Turns(c, start, gs, rs, clocks) && m < n < |rs| && gs[m].candidate == None && rs[m] == Some(k)
    requires OutcomeOf(c, gs, rs, clocks, m) != Idle
    requires forall j :: m <= j < n ==> !OutcomeOf(c, gs, rs, clocks, j).Saved?
    ensures gs[n].candidate == Some(k)
    decreases n
  {
    TurnLaw(c, start, gs, rs, clocks, n - 1);
    if m + 1 < n {
      PendingUntilSaved(c, start, gs, rs, clocks, m, n - 1, k);
    }
  }

  /** From the start: a block of the chain that comes 31 seconds after the last save is saved by the turn of its record at the latest. */
  lemma TakenUpIsSaved(c: Config, start: int, gs: seq<Gate>, rs: seq<Option<CheckpointBlock>>, clocks: seq<Clock>, m: nat, n: nat, k: CheckpointBlock)
    requires Turns(c, start, gs, rs, clocks) && m < n < |rs| && gs[m].candidate == None && rs[m] == Some(k)
    requires k.origin == Vcp || (k.origin == Blocks && c.disableChain)
    requires clocks[m].popped - gs[m].lastSaved >= 31_000
    requires rs[n] == Some(CheckpointBlock(Transactions, k.hash)) || clocks[n].checked - gs[n].lastSaved >= 121_000
    ensures exists j :: m <= j <= n && OutcomeOf(c, gs, rs, clocks, j) == Saved(k, clocks[j].checked - gs[j].lastSaved >= 121_000)
  {
    TurnLaw(c, start, gs, rs, clocks, m);
    if j :| m <= j < n && OutcomeOf(c, gs, rs, clocks, j).Saved? && forall i :: m <= i < j ==> !OutcomeOf(c, gs, rs, clocks, i).Saved? {
      TurnLaw(c, start, gs, rs, clocks, j);
      if m < j {
        PendingUntilSaved(c, start, gs, rs, clocks, m, j, k);
      }
    } else {
      FirstSave(c, gs, rs, clocks, m, n);
      PendingUntilSaved(c, start, gs, rs, clocks, m, n, k);
      TurnLaw(c, start, gs, rs, clocks, n);
    }
  }

  /** If no turn is the first to save, none saves. */
  lemma {:induction false} FirstSave(c: Config, gs: seq<Gate>, rs: seq<Option<CheckpointBlock>>, clocks: seq<Clock>, m: nat, n: nat)
    requires |gs| == |rs| + 1 == |clocks| + 1 && m <= n <= |rs|
    requires !exists j :: m <= j < n && OutcomeOf(c, gs, rs, clocks, j).Saved? && forall i :: m <= i < j ==> !OutcomeOf(c, gs, rs, clocks, i).Saved?
    ensures forall j :: m <= j < n ==> !OutcomeOf(c, gs, rs, clocks, j).Saved?
    decreases n
  {
    if m < n {
      FirstSave(c, gs, rs, clocks, m, n - 1);
    }
  }

  /** Every balance moved by what the window between two stored blocks created and spent; other windows move nothing. */
  ghost predicate Moved(s: Store, blocks: map<Hash, Block>, from: Hash, to: Hash, before: map<Address, int>, after: map<Address, int>) {
    if ScoresKnown(blocks, from, to) then
      forall a :: BalanceOf(after, a) == BalanceOf(before, a) + Net(s, blocks, blocks[from].blueScore, blocks[to].blueScore, a)
    else
      after == before
  }

  class Task {
    const db: Db
    const config: Config
    var candidate: Option<CheckpointBlock>
    var blocksProcessed: set<Hash>
    var txsProcessed: set<Hash>
    var okBlocks: bool
    var okTxs: bool
    var lastSaved: int
    var lastWarned: int
    var previousCheckpoint: Option<Hash>
    var checkpoint: Option<Hash>          // the stored variable that the next start-up reads

    constructor (db: Db, config: Config, now: int, previous: Option<Hash>)
      ensures this.db == db && this.config == config && State() == Gate(None, {}, {}, false, false, now, now)
      ensures previousCheckpoint == previous && checkpoint == previous
    {
      this.db, this.config := db, config;
      candidate, blocksProcessed, txsProcessed, okBlocks, okTxs := None, {}, {}, false, false;
      lastSaved, lastWarned, previousCheckpoint, checkpoint := now, now, previous, previous;
    }

    function State(): Gate
      reads this
    {
      Gate(candidate, blocksProcessed, txsProcessed, okBlocks, okTxs, lastSaved, lastWarned)
    }

    method Nominate(b: CheckpointBlock, now: int)
      modifies this`candidate, this`okBlocks, this`okTxs
      ensures State() == Nominated(old(State()), b, now)
    {
      if candidate == None && Seconds(lastSaved, now) > CHECKPOINT_SAVE_INTERVAL {
        candidate, okBlocks, okTxs := Some(b), true, false;
      }
    }

    method Receive(b: CheckpointBlock, now: int)
      modifies this`candidate, this`okBlocks, this`okTxs, this`blocksProcessed, this`txsProcessed
      ensures State() == Popped(config, old(State()), Some(b), now)
    {
      match b.origin {
        case Blocks =>
          if config.disableChain {
            Nominate(b, now);
          } else {
            blocksProcessed := blocksProcessed + {b.hash};
          }
        case Transactions =>
          txsProcessed := txsProcessed + {b.hash};
        case Vcp =>
          Nominate(b, now);
        case Initial =>
      }
    }

    /**
     * Updates the balances from the previous checkpoint to the new one, and stores the new one. A failed update does not
     * stop the store; only a successful store makes the checkpoint the start of the next update.
     */
    method Save(hash: Hash, storeOk: bool) returns (result: UpdateResult)
      modifies this`previousCheckpoint, this`checkpoint, db`balances
      ensures old(previousCheckpoint) == None ==> result == Updated(0) && db.balances == old(db.balances)
      ensures !result.Aborted? ==> checkpoint == if storeOk then Some(hash) else old(checkpoint)
      ensures !result.Aborted? ==> previousCheckpoint == if storeOk then Some(hash) else old(previousCheckpoint)
      ensures result.Updated? && old(previousCheckpoint).Some? ==>
        Moved(db.Tables(), db.blocks, old(previousCheckpoint).value, hash, old(db.balances), db.balances)
    {
      result := Updated(0);
      if previousCheckpoint.Some? {
        result := UpdateBalancesFromUtxoChanges(db, previousCheckpoint.value, hash);
        if result.Aborted? {
          return;
        }
      }
      if storeOk {
        checkpoint, previousCheckpoint := Some(hash), Some(hash);
      }
    }

    method Check(hash: Hash)
      modifies this`okBlocks, this`okTxs, this`blocksProcessed, this`txsProcessed
      ensures State() == Checked(config, old(State()), hash)
    {
      if !okBlocks && hash in blocksProcessed {
        okBlocks := true;
      }
      blocksProcessed := {};
      if !okTxs && (config.disableTransactions || hash in txsProcessed) {
        okTxs := true;
      }
      txsProcessed := {};
    }

    /** Saves or keeps the candidate. */
    method Decide(clock: Clock, storeOk: bool) returns (outcome: Outcome, result: UpdateResult)
      modifies this`candidate, this`blocksProcessed, this`txsProcessed, this`okBlocks, this`okTxs, this`lastSaved, this`lastWarned
      modifies this`previousCheckpoint, this`checkpoint, db`balances
      ensures !result.Aborted? ==> (State(), outcome) == Decided(config, old(State()), clock)
      ensures !result.Aborted? ==> checkpoint == if outcome.Saved? && storeOk then Some(outcome.block.hash) else old(checkpoint)
      ensures !result.Aborted? ==> previousCheckpoint == if outcome.Saved? && storeOk then Some(outcome.block.hash) else old(previousCheckpoint)
      ensures !outcome.Saved? && !result.Aborted? ==> db.balances == old(db.balances)
      ensures outcome.Saved? && result.Updated? && old(previousCheckpoint).Some? ==>
        Moved(db.Tables(), db.blocks, old(previousCheckpoint).value, outcome.block.hash, old(db.balances), db.balances)
    {
      outcome, result := Idle, Updated(0);
      if candidate == None {
        return;
      }
      var block := candidate.value;
      Check(block.hash);
      var forceSave := Seconds(lastSaved, clock.checked) > MAX_TIME_WITHOUT_SAVE;
      if (okBlocks && okTxs) || forceSave {
        okBlocks, okTxs := true, true;
        result := Save(block.hash, storeOk);
        lastSaved, candidate := clock.done, None;
        outcome := Saved(block, forceSave);
      } else {
        if Seconds(lastWarned, clock.checked) > CHECKPOINT_WARN_INTERVAL {
          lastWarned := clock.done;
        }
        outcome := Waiting;
      }
    }

    /** One turn of the loop: a record is popped or the queue is empty. */
    method Turn(popped: Option<CheckpointBlock>, clock: Clock, storeOk: bool) returns (outcome: Outcome, result: UpdateResult)
      modifies this, db`balances
      ensures !result.Aborted? ==> (State(), outcome) == Round(config, old(State()), popped, clock)
      ensures !result.Aborted? ==> checkpoint == if outcome.Saved? && storeOk then Some(outcome.block.hash) else old(checkpoint)
      ensures !result.Aborted? ==> previousCheckpoint == if outcome.Saved? && storeOk then Some(outcome.block.hash) else old(previousCheckpoint)
      ensures !outcome.Saved? && !result.Aborted? ==> db.balances == old(db.balances)
      ensures outcome.Saved? && result.Updated? && old(previousCheckpoint).Some? ==>
        Moved(db.Tables(), db.blocks, old(previousCheckpoint).value, outcome.block.hash, old(db.balances), db.balances)
    {
      if popped.Some? {
        Receive(popped.value, clock.popped);
      }
      outcome, result := Decide(clock, storeOk);
    }
  }
}
