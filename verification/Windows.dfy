/** What was created and spent between two blue scores: indexer/src/utxo_import/balance_updater.rs. */
module Windows {
  import opened Database
  import opened Sums
  import opened Pruning
  import opened PruningTheorems

  function Amount(o: Output): int {
    if o.amount.Some? then o.amount.value else 0
  }

  predicate Pays(o: Output, a: Address) {
    o.address == Some(a)
  }

  /** The blue score of the stored block that accepts t. */
  function ScoreOf(s: Store, blocks: map<Hash, Block>, t: TxId): Option<int> {
    if t in s.acceptances && s.acceptances[t].Some? && s.acceptances[t].value in blocks
    then Some(blocks[s.acceptances[t].value].blueScore)
    else None
  }

  predicate InWindow(s: Store, blocks: map<Hash, Block>, t: TxId, from: int, to: int) {
    var score := ScoreOf(s, blocks, t);
    score.Some? && from < score.value <= to
  }

  /** The joined rows of the first SELECT for one address. */
  function CreatedRows(s: Store, blocks: map<Hash, Block>, from: int, to: int, a: Address): map<Outpoint, int> {
    map o | o in s.outputs && InWindow(s, blocks, o.tx, from, to) && Pays(s.outputs[o], a) :: Amount(s.outputs[o])
  }

  /** The joined rows of the second SELECT for one address. */
  function SpentRows(s: Store, blocks: map<Hash, Block>, from: int, to: int, a: Address): map<InputId, int> {
    map i | i in s.inputs && InWindow(s, blocks, i.tx, from, to)
            && s.inputs[i].previous in s.outputs && Pays(s.outputs[s.inputs[i].previous], a)
          :: Amount(s.outputs[s.inputs[i].previous])
  }

  ghost function Created(s: Store, blocks: map<Hash, Block>, from: int, to: int, a: Address): int {
    Sum(CreatedRows(s, blocks, from, to, a))
  }

  ghost function Spent(s: Store, blocks: map<Hash, Block>, from: int, to: int, a: Address): int {
    Sum(SpentRows(s, blocks, from, to, a))
  }

  ghost function Net(s: Store, blocks: map<Hash, Block>, from: int, to: int, a: Address): int {
    Created(s, blocks, from, to, a) - Spent(s, blocks, from, to, a)
  }

  // ---- Windows tile ----

  lemma CreatedTiles(s: Store, blocks: map<Hash, Block>, from: int, mid: int, to: int, a: Address)
    requires from <= mid <= to
    ensures Created(s, blocks, from, to, a) == Created(s, blocks, from, mid, a) + Created(s, blocks, mid, to, a)
  {
    SumSplit(CreatedRows(s, blocks, from, to, a), CreatedRows(s, blocks, from, mid, a), CreatedRows(s, blocks, mid, to, a));
  }

  lemma SpentTiles(s: Store, blocks: map<Hash, Block>, from: int, mid: int, to: int, a: Address)
    requires from <= mid <= to
    ensures Spent(s, blocks, from, to, a) == Spent(s, blocks, from, mid, a) + Spent(s, blocks, mid, to, a)
  {
    SumSplit(SpentRows(s, blocks, from, to, a), SpentRows(s, blocks, from, mid, a), SpentRows(s, blocks, mid, to, a));
  }

  lemma NetTiles(s: Store, blocks: map<Hash, Block>, from: int, mid: int, to: int, a: Address)
    requires from <= mid <= to
    ensures Net(s, blocks, from, to, a) == Net(s, blocks, from, mid, a) + Net(s, blocks, mid, to, a)
  {
    CreatedTiles(s, blocks, from, mid, to, a);
    SpentTiles(s, blocks, from, mid, to, a);
  }

  lemma EmptyWindow(s: Store, blocks: map<Hash, Block>, from: int, to: int, a: Address)
    requires to <= from
    ensures Created(s, blocks, from, to, a) == 0 && Spent(s, blocks, from, to, a) == 0
  {
  }

  /** What saves at the given scores apply to the balance of a: one window from each score to the next. */
  ghost function Applied(s: Store, blocks: map<Hash, Block>, scores: seq<int>, a: Address): int {
    if |scores| < 2 then 0 else
      var last := |scores| - 1;
      Applied(s, blocks, scores[..last], a) + Net(s, blocks, scores[last - 1], scores[last], a)
  }

  /** What lies between a save and a next save at a lower score. */
  ghost function Rewound(s: Store, blocks: map<Hash, Block>, scores: seq<int>, a: Address): int {
    if |scores| < 2 then 0 else
      var last := |scores| - 1;
      Rewound(s, blocks, scores[..last], a)
      + if scores[last] < scores[last - 1] then Net(s, blocks, scores[last], scores[last - 1], a) else 0
  }

  /** The net change from one score to another, in either direction. */
  ghost function Change(s: Store, blocks: map<Hash, Block>, from: int, to: int, a: Address): int {
    if from <= to then Net(s, blocks, from, to, a) else -Net(s, blocks, to, from, a)
  }

  lemma ChangesAdd(s: Store, blocks: map<Hash, Block>, x: int, y: int, z: int, a: Address)
    ensures Change(s, blocks, x, z, a) == Change(s, blocks, x, y, a) + Change(s, blocks, y, z, a)
  {
    if x <= y <= z { NetTiles(s, blocks, x, y, z, a); }
    if x <= z <= y { NetTiles(s, blocks, x, z, y, a); }
    if y <= x <= z { NetTiles(s, blocks, y, x, z, a); }
    if y <= z <= x { NetTiles(s, blocks, y, z, x, a); }
    if z <= x <= y { NetTiles(s, blocks, z, x, y, a); }
    if z <= y <= x { NetTiles(s, blocks, z, y, x, a); }
  }

  /** A window that goes back is empty: it applies nothing where the change is negative. */
  lemma NetAndChange(s: Store, blocks: map<Hash, Block>, from: int, to: int, a: Address)
    ensures Net(s, blocks, from, to, a)
         == Change(s, blocks, from, to, a) + if to < from then Net(s, blocks, to, from, a) else 0
  {
    if to < from {
      EmptyWindow(s, blocks, from, to, a);
    }
  }

  /** Saves apply the change from the first score to the last, plus every stretch that a later save went back over. */
  lemma {:induction false} SavesApply(s: Store, blocks: map<Hash, Block>, scores: seq<int>, a: Address)
    requires scores != []
    ensures Applied(s, blocks, scores, a) ==
      Change(s, blocks, scores[0], scores[|scores| - 1], a) + Rewound(s, blocks, scores, a)
  {
    var last := |scores| - 1;
    if last == 0 {
      EmptyWindow(s, blocks, scores[0], scores[0], a);
    } else {
      SavesApply(s, blocks, scores[..last], a);
      assert scores[..last][0] == scores[0] && scores[..last][last - 1] == scores[last - 1];
      ChangesAdd(s, blocks, scores[0], scores[last - 1], scores[last], a);
      NetAndChange(s, blocks, scores[last - 1], scores[last], a);
    }
  }

  predicate NonDecreasing(scores: seq<int>) {
    forall i :: 0 < i < |scores| ==> scores[i - 1] <= scores[i]
  }

  lemma {:induction false} NothingRewound(s: Store, blocks: map<Hash, Block>, scores: seq<int>, a: Address)
    requires NonDecreasing(scores)
    ensures Rewound(s, blocks, scores, a) == 0
  {
    if 2 <= |scores| {
      NothingRewound(s, blocks, scores[..|scores| - 1], a);
    }
  }

  lemma {:induction false} FirstIsLeast(scores: seq<int>)
    requires scores != [] && NonDecreasing(scores)
    ensures scores[0] <= scores[|scores| - 1]
  {
    if 1 < |scores| {
      FirstIsLeast(scores[..|scores| - 1]);
    }
  }

  lemma GoingBackAndForth(s: Store, blocks: map<Hash, Block>, first: int, high: int, low: int, a: Address)
    requires first <= high && low < high
    ensures Rewound(s, blocks, [first, high, low, high], a) == Net(s, blocks, low, high, a)
  {
    var one, two, three, four := [first], [first, high], [first, high, low], [first, high, low, high];
    assert two[..1] == one && three[..2] == two && four[..3] == three;
    assert Rewound(s, blocks, two, a) == 0;
    assert Rewound(s, blocks, three, a) == Net(s, blocks, low, high, a);
  }

  /** One output of 5, in a transaction accepted by block 2. */
  function OneOutput(): Store {
    Store(map[1 := Some(0)], map[], map[Outpoint(1, 0) := Output(Some(5), None, Some("a"))], map[1 := Some(2)])
  }

  /** Block 2 with the given score. */
  function BlockAt(score: int): map<Hash, Block> {
    map[2 := Block(0, score)]
  }

  lemma NetOfOneOutput(score: int, from: int, to: int)
    ensures Net(OneOutput(), BlockAt(score), from, to, "a") == if from < score <= to then 5 else 0
  {
    var rows := CreatedRows(OneOutput(), BlockAt(score), from, to, "a");
    if from < score <= to {
      assert rows == map[Outpoint(1, 0) := 5];
      SumAdd(map[], Outpoint(1, 0), 5);
    } else {
      assert rows == map[];
    }
    assert SpentRows(OneOutput(), BlockAt(score), from, to, "a") == map[];
  }

  /** A save below the output's score makes the next one count the output a second time. */
  lemma DecreasingScoreCountsTwice(score: int, first: int, high: int, low: int)
    requires first < score <= high && low < score
    ensures Applied(OneOutput(), BlockAt(score), [first, high, low, high], "a") == 10
    ensures Change(OneOutput(), BlockAt(score), first, high, "a") == 5
  {
    NetOfOneOutput(score, first, high);
    NetOfOneOutput(score, low, high);
    GoingBackAndForth(OneOutput(), BlockAt(score), first, high, low, "a");
    SavesApply(OneOutput(), BlockAt(score), [first, high, low, high], "a");
  }

  /** The address gains 5 in the windows around the score, and nothing in others. */
  ghost predicate GainsAt(s: Store, blocks: map<Hash, Block>, a: Address, score: int) {
    forall from: int, to: int :: Net(s, blocks, from, to, a) == if from < score <= to then 5 else 0
  }

  lemma {:induction false} RewoundIsNonNegative(s: Store, blocks: map<Hash, Block>, a: Address, score: int, scores: seq<int>)
    requires GainsAt(s, blocks, a, score)
    ensures Rewound(s, blocks, scores, a) >= 0
  {
    if 2 <= |scores| {
      RewoundIsNonNegative(s, blocks, a, score, scores[..|scores| - 1]);
    }
  }

  /** A decrease below the score goes back over the gain. */
  lemma {:induction false} DecreaseRewinds(s: Store, blocks: map<Hash, Block>, a: Address, score: int, scores: seq<int>, i: nat)
    requires GainsAt(s, blocks, a, score) && 0 < i < |scores| && scores[i] < score <= scores[i - 1]
    ensures Rewound(s, blocks, scores, a) >= 5
  {
    var last := |scores| - 1;
    if i < last {
      DecreaseRewinds(s, blocks, a, score, scores[..last], i);
    } else {
      RewoundIsNonNegative(s, blocks, a, score, scores[..last]);
    }
  }

  lemma OneOutputGains(score: int)
    ensures GainsAt(OneOutput(), BlockAt(score), "a", score)
  {
    forall from: int, to: int ensures Net(OneOutput(), BlockAt(score), from, to, "a") == if from < score <= to then 5 else 0 {
      NetOfOneOutput(score, from, to);
    }
  }

  /** Saves at these scores apply one window, from the first score to the last, to every balance over all tables. */
  ghost predicate Tile(scores: seq<int>)
    requires scores != []
  {
    forall s: Store, blocks: map<Hash, Block>, a: Address ::
      Applied(s, blocks, scores, a) == Change(s, blocks, scores[0], scores[|scores| - 1], a)
  }

  /** Saves tile into one window, whatever the tables hold, if and only if the scores do not decrease. */
  lemma SavesTileIff(scores: seq<int>)
    requires scores != []
    ensures Tile(scores) <==> NonDecreasing(scores)
    ensures NonDecreasing(scores) ==> scores[0] <= scores[|scores| - 1]
  {
    if NonDecreasing(scores) {
      FirstIsLeast(scores);
      forall s: Store, blocks: map<Hash, Block>, a: Address
        ensures Applied(s, blocks, scores, a) == Change(s, blocks, scores[0], scores[|scores| - 1], a)
      {
        SavesApply(s, blocks, scores, a);
        NothingRewound(s, blocks, scores, a);
      }
    } else {
      var i :| 0 < i < |scores| && scores[i] < scores[i - 1];
      OneOutputGains(scores[i - 1]);
      DecreaseRewinds(OneOutput(), BlockAt(scores[i - 1]), "a", scores[i - 1], scores, i);
      SavesApply(OneOutput(), BlockAt(scores[i - 1]), scores, "a");
    }
  }

  // ---- Pruning is invisible ----

  /** No two inputs of accepted transactions spend the same outpoint, and what they spend belongs to accepted transactions. */
  predicate AcceptedSpends(s: Store) {
    && (forall i, j :: i in s.inputs && j in s.inputs && i.tx in s.acceptances && j.tx in s.acceptances ==>
          s.inputs[i].previous == s.inputs[j].previous ==> i == j)
    && (forall i :: i in s.inputs && i.tx in s.acceptances && s.inputs[i].previous in s.outputs ==>
          s.inputs[i].previous.tx in s.acceptances)
  }

  /** A creator is accepted no later than its accepted spenders. */
  predicate CreatorsFirst(s: Store, blocks: map<Hash, Block>) {
    forall i :: i in s.inputs && i.tx in s.acceptances ==>
      var created := ScoreOf(s, blocks, s.inputs[i].previous.tx);
      created.Some? ==> var spent := ScoreOf(s, blocks, i.tx); spent.Some? && created.value <= spent.value
  }

  /** Every accepted transaction of txs is accepted at or below score, or by no stored block. */
  predicate SettledAt(s: Store, blocks: map<Hash, Block>, txs: set<TxId>, score: int) {
    forall t :: t in txs && ScoreOf(s, blocks, t).Some? ==> ScoreOf(s, blocks, t).value <= score
  }

  lemma SeenSpender(s: Store, chunks: seq<set<TxId>>, o: Outpoint) returns (i: InputId)
    requires o in Seen(s, chunks)
    ensures i in s.inputs && i.tx in Union(chunks) && i.tx in s.acceptances && s.inputs[i].previous == o
  {
    SeenIsSpent(s, chunks);
    i :| i in s.inputs && i.tx in Union(chunks) * s.acceptances.Keys && s.inputs[i].previous == o;
  }

  /** A transaction accepted above the score is not a source of anything that the pruning sees as spent. */
  lemma WindowNotSeen(s: Store, blocks: map<Hash, Block>, chunks: seq<set<TxId>>, score: int, o: Outpoint)
    requires CreatorsFirst(s, blocks) && SettledAt(s, blocks, Union(chunks), score)
    requires ScoreOf(s, blocks, o.tx).Some? && score < ScoreOf(s, blocks, o.tx).value
    ensures o !in Seen(s, chunks)
  {
  }

  lemma WindowIsKept(s: Store, blocks: map<Hash, Block>, chunks: seq<set<TxId>>, score: int, from: int, to: int, t: TxId)
    requires Disjoint(chunks) && CreatorsFirst(s, blocks) && SettledAt(s, blocks, Union(chunks), score) && score <= from
    ensures InWindow(PruneChunks(s, chunks), blocks, t, from, to) <==> InWindow(s, blocks, t, from, to)
    ensures InWindow(s, blocks, t, from, to) ==> t !in Union(chunks)
  {
    ClosedForm(s, chunks);
    KeptAcceptances(s, Union(chunks), Seen(s, chunks));
    if InWindow(s, blocks, t, from, to) && t !in StillAccepted(s, Seen(s, chunks)) {
      var o :| o in Seen(s, chunks) && o.tx == t;
      WindowNotSeen(s, blocks, chunks, score, o);
    }
  }

  lemma PruningOnlyDeletes(s: Store, chunks: seq<set<TxId>>)
    requires Disjoint(chunks)
    ensures var s' := PruneChunks(s, chunks);
      Submap(s'.inputs, s.inputs) && Submap(s'.outputs, s.outputs) && Submap(s'.acceptances, s.acceptances)
  {
  }

  /** The rows that a window above the score joins are kept. */
  lemma WindowRowsAreKept(s: Store, blocks: map<Hash, Block>, chunks: seq<set<TxId>>, score: int, from: int, to: int)
    requires Disjoint(chunks) && AcceptedSpends(s) && CreatorsFirst(s, blocks)
    requires SettledAt(s, blocks, Union(chunks), score) && score <= from
    ensures var s' := PruneChunks(s, chunks);
      && (forall o :: o in s.outputs && InWindow(s, blocks, o.tx, from, to) ==> o in s'.outputs)
      && (forall i :: i in s.inputs && InWindow(s, blocks, i.tx, from, to) ==>
            i in s'.inputs && (s.inputs[i].previous in s.outputs ==> s.inputs[i].previous in s'.outputs))
  {
    ClosedForm(s, chunks);
    forall o | o in s.outputs && InWindow(s, blocks, o.tx, from, to) ensures o in PruneChunks(s, chunks).outputs {
      WindowNotSeen(s, blocks, chunks, score, o);
    }
    forall i | i in s.inputs && InWindow(s, blocks, i.tx, from, to)
      ensures i.tx !in Union(chunks) && s.inputs[i].previous !in Seen(s, chunks)
    {
      WindowIsKept(s, blocks, chunks, score, from, to, i.tx);
      if s.inputs[i].previous in Seen(s, chunks) {
        var j := SeenSpender(s, chunks, s.inputs[i].previous);
      }
    }
  }

  lemma SameCreated(s: Store, s': Store, blocks: map<Hash, Block>, from: int, to: int, a: Address)
    requires Submap(s'.outputs, s.outputs)
    requires forall t :: InWindow(s', blocks, t, from, to) <==> InWindow(s, blocks, t, from, to)
    requires forall o :: o in s.outputs && InWindow(s, blocks, o.tx, from, to) ==> o in s'.outputs
    ensures CreatedRows(s', blocks, from, to, a) == CreatedRows(s, blocks, from, to, a)
  {
  }

  lemma SameSpent(s: Store, s': Store, blocks: map<Hash, Block>, from: int, to: int, a: Address)
    requires Submap(s'.inputs, s.inputs) && Submap(s'.outputs, s.outputs)
    requires forall t :: InWindow(s', blocks, t, from, to) <==> InWindow(s, blocks, t, from, to)
    requires forall i :: i in s.inputs && InWindow(s, blocks, i.tx, from, to) ==>
      i in s'.inputs && (s.inputs[i].previous in s.outputs ==> s.inputs[i].previous in s'.outputs)
    ensures SpentRows(s', blocks, from, to, a) == SpentRows(s, blocks, from, to, a)
  {
  }

  /** For every chunking, every window at or above the score sums up the same before and after the pruning. */
  lemma PruningIsInvisible(s: Store, blocks: map<Hash, Block>, chunks: seq<set<TxId>>, score: int, from: int, to: int, a: Address)
    requires Disjoint(chunks) && AcceptedSpends(s) && CreatorsFirst(s, blocks)
    requires SettledAt(s, blocks, Union(chunks), score) && score <= from
    ensures Created(PruneChunks(s, chunks), blocks, from, to, a) == Created(s, blocks, from, to, a)
    ensures Spent(PruneChunks(s, chunks), blocks, from, to, a) == Spent(s, blocks, from, to, a)
  {
    var s' := PruneChunks(s, chunks);
    PruningOnlyDeletes(s, chunks);
    WindowRowsAreKept(s, blocks, chunks, score, from, to);
    forall t ensures InWindow(s', blocks, t, from, to) <==> InWindow(s, blocks, t, from, to) {
      WindowIsKept(s, blocks, chunks, score, from, to, t);
    }
    SameCreated(s, s', blocks, from, to, a);
    SameSpent(s, s', blocks, from, to, a);
  }
}
