/** Which prunings the balance updates do not see: exactly those of settled transactions, which the job's gate does not ensure. */
module SettledPruning {
  import opened Database
  import opened Sums
  import opened Pruning
  import opened PruningTheorems
  import opened Windows
  import PruneJob

  /** The rows of txs in the acceptances table are those of acc. */
  predicate AcceptedAs(s: Store, txs: set<TxId>, acc: map<TxId, Option<Hash>>) {
    forall t :: t in txs ==> (t in s.acceptances <==> t in acc) && (t in acc ==> s.acceptances[t] == acc[t])
  }

  /** Tables with these acceptances and nothing else. */
  function OnlyAccepted(acc: map<TxId, Option<Hash>>): Store {
    Store(map[], map[], map[], acc)
  }

  /** Tables as the indexer leaves them, with the given transactions of which txs are accepted as in acc. */
  predicate Consistent(s: Store, transactions: map<TxId, Option<int>>, blocks: map<Hash, Block>, txs: set<TxId>, acc: map<TxId, Option<Hash>>) {
    s.transactions == transactions && AcceptedAs(s, txs, acc) && AcceptedSpends(s) && CreatorsFirst(s, blocks)
  }

  /** Every later window sums up the same over both tables. */
  ghost predicate SameWindows(s: Store, s': Store, blocks: map<Hash, Block>, from: int) {
    forall to: int, a: Address ::
      Created(s', blocks, from, to, a) == Created(s, blocks, from, to, a) && Spent(s', blocks, from, to, a) == Spent(s, blocks, from, to, a)
  }

  // ---- A spend that is not settled ----

  lemma {:induction false} Unused(taken: set<TxId>) returns (free: TxId)
    ensures forall t: TxId :: t in taken ==> t < free
  {
    if taken == {} {
      free := 0;
    } else {
      var last: TxId :| last in taken;
      var above := Unused(taken - {last});
      free := if above <= last then last + 1 else above;
      assert forall t: TxId :: t in taken ==> t == last || t in taken - {last};
    }
  }

  /** Transaction t spends an imported output of 5. */
  function Spending(t: TxId, source: TxId, transactions: map<TxId, Option<int>>, acc: map<TxId, Option<Hash>>): Store {
    Store(transactions, map[InputId(t, 0) := Input(Outpoint(source, 0), None, None)],
          map[Outpoint(source, 0) := Output(Some(5), None, Some("a"))], acc[source := None])
  }

  lemma SpendingIsCounted(t: TxId, source: TxId, transactions: map<TxId, Option<int>>, acc: map<TxId, Option<Hash>>, blocks: map<Hash, Block>,
                          from: int, to: int)
    requires source != t && InWindow(OnlyAccepted(acc), blocks, t, from, to)
    ensures Spent(Spending(t, source, transactions, acc), blocks, from, to, "a") == 5
  {
    var s := Spending(t, source, transactions, acc);
    assert InWindow(s, blocks, t, from, to);
    assert SpentRows(s, blocks, from, to, "a") == map[InputId(t, 0) := 5];
    SumAdd(map[], InputId(t, 0), 5);
  }

  lemma SpendingIsConsistent(t: TxId, source: TxId, transactions: map<TxId, Option<int>>, acc: map<TxId, Option<Hash>>, blocks: map<Hash, Block>,
                             txs: set<TxId>)
    requires source !in txs
    ensures Consistent(Spending(t, source, transactions, acc), transactions, blocks, txs, acc)
  {
  }

  lemma PrunedSpendIsLost(s: Store, blocks: map<Hash, Block>, chunks: seq<set<TxId>>, t: TxId, from: int, to: int, a: Address)
    requires Disjoint(chunks) && t in Union(chunks) && forall i :: i in s.inputs ==> i.tx == t
    ensures Spent(PruneChunks(s, chunks), blocks, from, to, a) == 0
  {
    ClosedForm(s, chunks);
    var s' := PruneChunks(s, chunks);
    assert s'.inputs == map[];
    assert SpentRows(s', blocks, from, to, a) == map[];
  }

  lemma SpendingIsLost(t: TxId, source: TxId, transactions: map<TxId, Option<int>>, acc: map<TxId, Option<Hash>>, blocks: map<Hash, Block>,
                       chunks: seq<set<TxId>>, from: int, to: int)
    requires Disjoint(chunks) && t in Union(chunks) && source != t && InWindow(OnlyAccepted(acc), blocks, t, from, to)
    ensures var s := Spending(t, source, transactions, acc);
      Spent(PruneChunks(s, chunks), blocks, from, to, "a") != Spent(s, blocks, from, to, "a")
  {
    SpendingIsCounted(t, source, transactions, acc, blocks, from, to);
    PrunedSpendIsLost(Spending(t, source, transactions, acc), blocks, chunks, t, from, to, "a");
  }

  /** Whatever the chunks are: an unsettled accepted transaction among them may be a spend, and it is lost to its window. */
  lemma UnsettledSpendIsLost(transactions: map<TxId, Option<int>>, acc: map<TxId, Option<Hash>>, blocks: map<Hash, Block>,
                             chunks: seq<set<TxId>>, from: int)
    returns (s: Store)
    requires Disjoint(chunks) && !SettledAt(OnlyAccepted(acc), blocks, Union(chunks), from)
    ensures Consistent(s, transactions, blocks, Union(chunks), acc)
    ensures !SameWindows(s, PruneChunks(s, chunks), blocks, from)
  {
    var t :| t in Union(chunks) && ScoreOf(OnlyAccepted(acc), blocks, t).Some? && ScoreOf(OnlyAccepted(acc), blocks, t).value > from;
    var to := ScoreOf(OnlyAccepted(acc), blocks, t).value;
    var source := Unused(Union(chunks));
    s := Spending(t, source, transactions, acc);
    SpendingIsConsistent(t, source, transactions, acc, blocks, Union(chunks));
    SpendingIsLost(t, source, transactions, acc, blocks, chunks, from, to);
    NotTheSame(s, PruneChunks(s, chunks), blocks, from, to, "a");
  }

  lemma NotTheSame(s: Store, s': Store, blocks: map<Hash, Block>, from: int, to: int, a: Address)
    requires Spent(s', blocks, from, to, a) != Spent(s, blocks, from, to, a)
    ensures !SameWindows(s, s', blocks, from)
  {
  }

  // ---- The exact condition ----

  lemma SettledIsInvisible(s: Store, transactions: map<TxId, Option<int>>, acc: map<TxId, Option<Hash>>, blocks: map<Hash, Block>,
                           chunks: seq<set<TxId>>, from: int)
    requires Disjoint(chunks) && Consistent(s, transactions, blocks, Union(chunks), acc)
    requires SettledAt(OnlyAccepted(acc), blocks, Union(chunks), from)
    ensures SameWindows(s, PruneChunks(s, chunks), blocks, from)
  {
    assert forall t :: t in Union(chunks) ==> ScoreOf(s, blocks, t) == ScoreOf(OnlyAccepted(acc), blocks, t);
    forall to: int, a: Address
      ensures Created(PruneChunks(s, chunks), blocks, from, to, a) == Created(s, blocks, from, to, a)
           && Spent(PruneChunks(s, chunks), blocks, from, to, a) == Spent(s, blocks, from, to, a)
    {
      PruningIsInvisible(s, blocks, chunks, from, from, to, a);
    }
  }

  /** Over all consistent tables later windows do not see the chunks, if and only if the chunks' accepted transactions are settled. */
  lemma InvisibleIffSettled(transactions: map<TxId, Option<int>>, acc: map<TxId, Option<Hash>>, blocks: map<Hash, Block>,
                            chunks: seq<set<TxId>>, from: int)
    requires Disjoint(chunks)
    ensures (forall s: Store :: Consistent(s, transactions, blocks, Union(chunks), acc) ==> SameWindows(s, PruneChunks(s, chunks), blocks, from))
       <==> SettledAt(OnlyAccepted(acc), blocks, Union(chunks), from)
  {
    if SettledAt(OnlyAccepted(acc), blocks, Union(chunks), from) {
      forall s: Store | Consistent(s, transactions, blocks, Union(chunks), acc) ensures SameWindows(s, PruneChunks(s, chunks), blocks, from) {
        SettledIsInvisible(s, transactions, acc, blocks, chunks, from);
      }
    } else {
      var s := UnsettledSpendIsLost(transactions, acc, blocks, chunks, from);
    }
  }

  // ---- The job ----

  /** Chunks that a completed run over these transactions may pick. */
  ghost predicate Schedules(transactions: map<TxId, Option<int>>, cutoff: int, batchSize: nat, chunks: seq<set<TxId>>) {
    Disjoint(chunks) && (forall c :: c in chunks ==> 0 < |c| <= batchSize) && Union(chunks) == ExpiredIn(transactions, cutoff)
  }

  /** The schedule can always be carried on until nothing is expired. */
  lemma SomeSchedule(s0: Store, cutoff: int, batchSize: nat, chunks: seq<set<TxId>>, s: Store) returns (all: seq<set<TxId>>)
    requires Pruned(s0, cutoff, batchSize, chunks, s) && 0 < batchSize
    ensures Schedules(s0.transactions, cutoff, batchSize, all)
    decreases |ExpiredIn(s.transactions, cutoff)|
  {
    var left := ExpiredIn(s.transactions, cutoff);
    if left == {} {
      all := chunks;
    } else {
      var t :| t in left;
      ScheduleGrows(s0, cutoff, batchSize, chunks, s, {t});
      ExpiredAfter(s.transactions, cutoff, {t});
      assert |left - {t}| == |left| - 1;
      all := SomeSchedule(s0, cutoff, batchSize, chunks + [{t}], PruneChunk(s, {t}));
    }
  }

  lemma ScheduleFor(transactions: map<TxId, Option<int>>, cutoff: int, batchSize: nat) returns (chunks: seq<set<TxId>>)
    requires 0 < batchSize
    ensures Schedules(transactions, cutoff, batchSize, chunks)
  {
    var s := Store(transactions, map[], map[], map[]);
    NothingPruned(s, cutoff, batchSize);
    chunks := SomeSchedule(s, cutoff, batchSize, [], s);
  }

  lemma ScheduleIsRun(s: Store, cutoff: int, batchSize: nat, chunks: seq<set<TxId>>)
    requires Schedules(s.transactions, cutoff, batchSize, chunks)
    ensures Pruned(s, cutoff, batchSize, chunks, PruneChunks(s, chunks)) && ExpiredIn(PruneChunks(s, chunks).transactions, cutoff) == {}
  {
    ClosedForm(s, chunks);
    ExpiredAfter(s.transactions, cutoff, Union(chunks));
  }

  /** A run of the transaction step that completes, from s to s'. */
  ghost predicate Completes(c: PruneJob.Config, now: int, s: Store, chunks: seq<set<TxId>>, s': Store)
    requires c.transactions.Some?
  {
    Pruned(s, now - c.transactions.value, c.batchSize, chunks, s') && ExpiredIn(s'.transactions, now - c.transactions.value) == {}
  }

  /** Every completed run leaves every later window as it was. */
  ghost predicate JobIsInvisible(c: PruneJob.Config, now: int, transactions: map<TxId, Option<int>>, acc: map<TxId, Option<Hash>>,
                                 blocks: map<Hash, Block>, saved: int)
    requires c.transactions.Some?
  {
    forall s: Store, chunks: seq<set<TxId>>, s': Store ::
      Consistent(s, transactions, blocks, ExpiredIn(transactions, now - c.transactions.value), acc) && Completes(c, now, s, chunks, s') ==>
      SameWindows(s, s', blocks, saved)
  }

  /**
   * With the gate open the saves do not see the job, on all consistent tables and for all picks of its statements, if and
   * only if all expired accepted transactions are accepted at or below the saved score.
   */
  lemma JobIsInvisibleIff(c: PruneJob.Config, now: int, checkpointTime: Option<int>, transactions: map<TxId, Option<int>>,
                          acc: map<TxId, Option<Hash>>, blocks: map<Hash, Block>, saved: int)
    requires PruneJob.GateOpen(c, now, checkpointTime) && 0 < c.batchSize
    ensures JobIsInvisible(c, now, transactions, acc, blocks, saved)
       <==> SettledAt(OnlyAccepted(acc), blocks, ExpiredIn(transactions, now - c.transactions.value), saved)
  {
    var expired := ExpiredIn(transactions, now - c.transactions.value);
    if SettledAt(OnlyAccepted(acc), blocks, expired, saved) {
      forall s: Store, chunks: seq<set<TxId>>, s': Store | Consistent(s, transactions, blocks, expired, acc) && Completes(c, now, s, chunks, s')
        ensures SameWindows(s, s', blocks, saved)
      {
        SettledIsInvisible(s, transactions, acc, blocks, chunks, saved);
      }
    } else {
      UnsettledIsSeen(c, now, transactions, acc, blocks, saved);
    }
  }

  lemma LostRunIsSeen(c: PruneJob.Config, now: int, transactions: map<TxId, Option<int>>, acc: map<TxId, Option<Hash>>, blocks: map<Hash, Block>,
                      saved: int, s: Store, chunks: seq<set<TxId>>, s': Store)
    requires c.transactions.Some? && Consistent(s, transactions, blocks, ExpiredIn(transactions, now - c.transactions.value), acc)
    requires Completes(c, now, s, chunks, s') && !SameWindows(s, s', blocks, saved)
    ensures !JobIsInvisible(c, now, transactions, acc, blocks, saved)
  {
  }

  lemma ScheduleCompletes(c: PruneJob.Config, now: int, s: Store, chunks: seq<set<TxId>>)
    requires c.transactions.Some? && Schedules(s.transactions, now - c.transactions.value, c.batchSize, chunks)
    ensures Completes(c, now, s, chunks, PruneChunks(s, chunks))
  {
    ScheduleIsRun(s, now - c.transactions.value, c.batchSize, chunks);
  }

  lemma UnsettledIsSeen(c: PruneJob.Config, now: int, transactions: map<TxId, Option<int>>, acc: map<TxId, Option<Hash>>,
                        blocks: map<Hash, Block>, saved: int)
    requires c.transactions.Some? && 0 < c.batchSize
    requires !SettledAt(OnlyAccepted(acc), blocks, ExpiredIn(transactions, now - c.transactions.value), saved)
    ensures !JobIsInvisible(c, now, transactions, acc, blocks, saved)
  {
    var chunks := ScheduleFor(transactions, now - c.transactions.value, c.batchSize);
    var s := UnsettledSpendIsLost(transactions, acc, blocks, chunks, saved);
    ScheduleCompletes(c, now, s, chunks);
    LostRunIsSeen(c, now, transactions, acc, blocks, saved, s, chunks, PruneChunks(s, chunks));
  }

  /**
   * An open gate does not ensure it, whatever the configuration: a transaction whose time is before the cut-off, and which
   * is accepted above the saved score, is pruned while the checkpoint is newer than the cut-off.
   */
  lemma OpenGateIsNotEnough(c: PruneJob.Config, now: int, checkpointTime: Option<int>, t: TxId, time: int, block: Hash, score: int, saved: int)
    requires PruneJob.GateOpen(c, now, checkpointTime) && 0 < c.batchSize
    requires time < now - c.transactions.value && saved < score
    ensures !JobIsInvisible(c, now, map[t := Some(time)], map[t := Some(block)], map[block := Block(time, score)], saved)
  {
    var acc, blocks := map[t := Some(block)], map[block := Block(time, score)];
    assert t in ExpiredIn(map[t := Some(time)], now - c.transactions.value);
    assert ScoreOf(OnlyAccepted(acc), blocks, t) == Some(score);
    UnsettledIsSeen(c, now, map[t := Some(time)], acc, blocks, saved);
  }
}
