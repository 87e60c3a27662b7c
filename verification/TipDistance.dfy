/** The dynamic tip distance: how many of the newest chain blocks the chain processor holds back. */
module TipDistance {

  /** history[0] is the newest of the last polls that were processed: did it see a reorg? */
  datatype Tip = Tip(distance: nat, history: seq<bool>)

  function Marks(history: seq<bool>): nat {
    if history == [] then 0 else Marks(history[..|history| - 1]) + if history[|history| - 1] then 1 else 0
  }

  lemma {:induction false} MarksOfFront(mark: bool, rest: seq<bool>)
    ensures Marks([mark] + rest) == Marks(rest) + if mark then 1 else 0
  {
    var h := [mark] + rest;
    if rest == [] {
      assert h[..0] == [];
    } else {
      assert h[..|h| - 1] == [mark] + rest[..|rest| - 1];
      MarksOfFront(mark, rest[..|rest| - 1]);
    }
  }

  lemma {:induction false} NoMarks(history: seq<bool>)
    ensures Marks(history) == 0 <==> true !in history
  {
    if history != [] {
      var last := |history| - 1;
      NoMarks(history[..last]);
      assert history == history[..last] + [history[last]];
    }
  }

  /** The history that the adjustment looks at: the oldest entry makes room, the newest comes first. */
  function Recorded(history: seq<bool>, window: nat, mark: bool): seq<bool> {
    [mark] + if |history| == window && history != [] then history[..|history| - 1] else history
  }

  /** One adjustment after a processed poll. */
  function Adjusted(t: Tip, window: nat, reorged: bool, synced: bool): Tip {
    var h := Recorded(t.history, window, reorged);
    if Marks(h) >= 3 then Tip(t.distance + 1, h[0 := false])
    else if synced && Marks(h) == 0 && t.distance > 0 then
      Tip(t.distance - 1, if |h| == window then h[0 := true] else h)
    else Tip(t.distance, h)
  }

  /** The history fits the window and holds at most two reorgs, so that only a third one can raise the distance. */
  predicate Bounded(t: Tip, window: nat) {
    |t.history| <= window && Marks(t.history) <= 2
  }

  class Controller {
    const window: nat
    var distance: nat
    var history: seq<bool>

    constructor (window: nat, dynamic: bool)
      ensures this.window == window && State() == Tip(if dynamic then 10 else 0, [])
    {
      this.window, distance, history := window, if dynamic then 10 else 0, [];
    }

    function State(): Tip
      reads this
    {
      Tip(distance, history)
    }

    method Count() returns (reorgs: nat)
      ensures reorgs == Marks(history)
    {
      reorgs := 0;
      for i := 0 to |history|
        invariant reorgs == Marks(history[..i])
      {
        assert history[..i + 1][..i] == history[..i];
        reorgs := reorgs + if history[i] then 1 else 0;
      }
      assert history[..|history|] == history;
    }

    /** Pops the oldest entry of a full deque and pushes the newest. */
    method Record(mark: bool)
      requires 0 < window
      modifies this`history
      ensures history == Recorded(old(history), window, mark)
    {
      if |history| == window {
        history := history[..|history| - 1];
      }
      history := [mark] + history;
    }

    /** Replaces the newest entry. */
    method Replace(mark: bool)
      requires history != []
      modifies this`history
      ensures history == old(history)[0 := mark]
    {
      history := history[1..];
      history := [mark] + history;
    }

    /** The deque is edited in place: pop the oldest, push the newest, then perhaps replace the newest. */
    method Adjust(rowsRemoved: nat, synced: bool)
      requires 0 < window
      modifies this`distance, this`history
      ensures State() == Adjusted(old(State()), window, rowsRemoved > 0, synced)
    {
      Record(rowsRemoved > 0);
      var reorgs := Count();
      if reorgs >= 3 {
        distance := distance + 1;
        Replace(false);
      } else if synced && reorgs == 0 && distance > 0 {
        distance := distance - 1;
        if |history| == window {
          Replace(true);
        }
      }
    }
  }

  lemma OldestIsDropped(history: seq<bool>, window: nat)
    requires |history| <= window
    ensures var kept := if |history| == window && history != [] then history[..|history| - 1] else history;
      Marks(kept) <= Marks(history) && |kept| <= window
    ensures 0 < window ==> |Recorded(history, window, true)| <= window
  {
  }

  /** Replacing the newest mark keeps the history within the window, and its marks but for the newest. */
  lemma RecordedMarks(history: seq<bool>, window: nat, mark: bool, newest: bool)
    requires 0 < window && |history| <= window
    ensures var h := Recorded(history, window, mark);
      && |h| <= window
      && Marks(h[0 := newest]) == Marks(h) - (if mark then 1 else 0) + (if newest then 1 else 0)
      && (if mark then 1 else 0) <= Marks(h) <= Marks(history) + if mark then 1 else 0
  {
    var kept := if |history| == window && history != [] then history[..|history| - 1] else history;
    OldestIsDropped(history, window);
    MarksOfFront(mark, kept);
    MarksOfFront(newest, kept);
    assert Recorded(history, window, mark)[0 := newest] == [newest] + kept;
  }

  /** An adjustment keeps the bounds, moves the distance by one at most, and raises it only when it sees a reorg itself. */
  lemma AdjustmentIsBounded(t: Tip, window: nat, reorged: bool, synced: bool)
    requires 0 < window && Bounded(t, window)
    ensures Bounded(Adjusted(t, window, reorged, synced), window)
    ensures Adjusted(t, window, reorged, synced).distance > t.distance ==> reorged
    ensures t.distance - 1 <= Adjusted(t, window, reorged, synced).distance <= t.distance + 1
    ensures Adjusted(t, window, reorged, synced).distance < t.distance ==> synced && !reorged
  {
    RecordedMarks(t.history, window, reorged, false);
    RecordedMarks(t.history, window, reorged, true);
  }

  // ---- An adjustment by the entries ----

  /** Three different places of the history are marked. */
  predicate ThreeMarked(history: seq<bool>) {
    exists i, j, k :: 0 <= i < j < k < |history| && history[i] && history[j] && history[k]
  }

  predicate TwoMarked(history: seq<bool>) {
    exists i, j :: 0 <= i < j < |history| && history[i] && history[j]
  }

  lemma TwoMarkedMore(front: seq<bool>, mark: bool)
    ensures TwoMarked(front + [mark]) <==> TwoMarked(front) || (mark && true in front)
  {
    var h := front + [mark];
    if TwoMarked(front) {
      var i, j :| 0 <= i < j < |front| && front[i] && front[j];
      assert h[i] && h[j];
    }
    if mark && true in front {
      var i :| 0 <= i < |front| && front[i];
      assert h[i] && h[|front|];
    }
  }

  lemma ThreeMarkedMore(front: seq<bool>, mark: bool)
    ensures ThreeMarked(front + [mark]) <==> ThreeMarked(front) || (mark && TwoMarked(front))
  {
    var h := front + [mark];
    if ThreeMarked(front) {
      var i, j, k :| 0 <= i < j < k < |front| && front[i] && front[j] && front[k];
      assert h[i] && h[j] && h[k];
    }
    if mark && TwoMarked(front) {
      var i, j :| 0 <= i < j < |front| && front[i] && front[j];
      assert h[i] && h[j] && h[|front|];
    }
    if ThreeMarked(h) && !ThreeMarked(front) {
      var i, j, k :| 0 <= i < j < k < |h| && h[i] && h[j] && h[k];
      assert front[i] && front[j];
    }
  }

  lemma {:induction false} MarksAre(history: seq<bool>)
    ensures Marks(history) >= 1 <==> true in history
    ensures Marks(history) >= 2 <==> TwoMarked(history)
    ensures Marks(history) >= 3 <==> ThreeMarked(history)
  {
    if history != [] {
      var front, mark := history[..|history| - 1], history[|history| - 1];
      MarksAre(front);
      assert history == front + [mark];
      TwoMarkedMore(front, mark);
      ThreeMarkedMore(front, mark);
    }
  }

  /** The newest entries of the history, which an adjustment keeps. */
  function Newest(history: seq<bool>, window: nat): (kept: seq<bool>)
    requires 0 < window && |history| <= window
    ensures |kept| == if |history| == window then window - 1 else |history|
    ensures forall i :: 0 <= i < |kept| ==> kept[i] == history[i]
  {
    if |history| == window then history[..window - 1] else history
  }

  lemma MarksOfRecorded(history: seq<bool>, window: nat, mark: bool)
    requires 0 < window && |history| <= window
    ensures Recorded(history, window, mark) == [mark] + Newest(history, window)
    ensures Marks(Recorded(history, window, mark)) == Marks(Newest(history, window)) + if mark then 1 else 0
  {
    MarksOfFront(mark, Newest(history, window));
  }

  lemma NewestHasNoThree(history: seq<bool>, window: nat)
    requires 0 < window && |history| <= window && !ThreeMarked(history)
    ensures !ThreeMarked(Newest(history, window))
  {
  }

  /** Whether an adjustment raises or lowers the distance, by how many of the newest entries are marked. */
  lemma AdjustedByMarks(t: Tip, window: nat, reorged: bool, synced: bool, kept: seq<bool>, raises: bool, lowers: bool)
    requires 0 < window && |t.history| <= window && kept == Newest(t.history, window) && Marks(kept) <= 2
    requires raises == (reorged && Marks(kept) == 2)
    requires lowers == (synced && !reorged && Marks(kept) == 0 && t.distance > 0)
    ensures Adjusted(t, window, reorged, synced) ==
      Tip(t.distance + (if raises then 1 else 0) - (if lowers then 1 else 0),
          [(reorged && !raises) || (lowers && |kept| + 1 == window)] + kept)
  {
    MarksOfRecorded(t.history, window, reorged);
    var h := [reorged] + kept;
    assert h[0 := false] == [false] + kept && h[0 := true] == [true] + kept;
  }

  lemma MarkedPlaces(kept: seq<bool>, history: seq<bool>)
    requires |kept| <= |history| && forall i :: 0 <= i < |kept| ==> kept[i] == history[i]
    ensures TwoMarked(kept) <==> exists i, j :: 0 <= i < j < |kept| && history[i] && history[j]
    ensures true !in kept <==> forall i :: 0 <= i < |kept| ==> !history[i]
  {
    if i, j :| 0 <= i < j < |kept| && history[i] && history[j] {
      assert kept[i] && kept[j];
    }
    if i :| 0 <= i < |kept| && history[i] {
      assert kept[i];
    }
  }

  lemma MarksOfNewest(history: seq<bool>, window: nat, kept: seq<bool>)
    requires 0 < window && |history| <= window && !ThreeMarked(history) && kept == Newest(history, window)
    ensures Marks(kept) <= 2
    ensures Marks(kept) == 2 <==> exists i, j :: 0 <= i < j < |kept| && history[i] && history[j]
    ensures Marks(kept) == 0 <==> forall i :: 0 <= i < |kept| ==> !history[i]
  {
    NewestHasNoThree(history, window);
    MarksAre(kept);
    MarkedPlaces(kept, history);
  }

  /**
   * With at most two marks in the history, the distance grows by one exactly if the poll saw a reorg and two of the window's
   * newest entries are marked, and falls by one exactly if it is positive, the poll is synced and saw none, and no such
   * entry is marked. The poll's entry is its reorg, unless it raised the distance; a lowering with a full history marks it.
   */
  lemma AdjustmentLaw(t: Tip, window: nat, reorged: bool, synced: bool)
    requires 0 < window && |t.history| <= window && !ThreeMarked(t.history)
    ensures var t', n := Adjusted(t, window, reorged, synced), if |t.history| == window then window - 1 else |t.history|;
      var raises := reorged && exists i, j :: 0 <= i < j < n && t.history[i] && t.history[j];
      var lowers := synced && !reorged && t.distance > 0 && forall i :: 0 <= i < n ==> !t.history[i];
      && t'.distance == t.distance + (if raises then 1 else 0) - (if lowers then 1 else 0)
      && |t'.history| == n + 1 && (forall i :: 0 <= i < n ==> t'.history[i + 1] == t.history[i])
      && t'.history[0] == ((reorged && !raises) || (lowers && n + 1 == window))
  {
    var kept := Newest(t.history, window);
    MarksOfNewest(t.history, window, kept);
    AdjustedByMarks(t, window, reorged, synced, kept, reorged && Marks(kept) == 2, synced && !reorged && Marks(kept) == 0 && t.distance > 0);
  }

  lemma AdjustedHasNoThree(t: Tip, window: nat, reorged: bool, synced: bool)
    requires 0 < window && |t.history| <= window && !ThreeMarked(t.history)
    ensures !ThreeMarked(Adjusted(t, window, reorged, synced).history)
  {
    MarksAre(t.history);
    AdjustmentIsBounded(t, window, reorged, synced);
    MarksAre(Adjusted(t, window, reorged, synced).history);
  }

  // ---- Runs ----

  /** What a processed poll brings to the controller. */
  datatype Observation = Observation(reorged: bool, synced: bool)

  /** The state after the first n processed polls. */
  function After(t: Tip, window: nat, seen: seq<Observation>, n: nat): Tip
    requires n <= |seen|
  {
    if n == 0 then t else Adjusted(After(t, window, seen, n - 1), window, seen[n - 1].reorged, seen[n - 1].synced)
  }

  /** Later polls do not matter. */
  lemma {:induction false} AfterPrefix(t: Tip, window: nat, seen: seq<Observation>, more: seq<Observation>, n: nat)
    requires n <= |seen|
    ensures After(t, window, seen + more, n) == After(t, window, seen, n)
    decreases n
  {
    if n > 0 {
      AfterPrefix(t, window, seen, more, n - 1);
    }
  }

  lemma {:induction false} AlwaysBounded(t: Tip, window: nat, seen: seq<Observation>, n: nat)
    requires 0 < window && Bounded(t, window) && n <= |seen|
    ensures Bounded(After(t, window, seen, n), window)
    decreases n
  {
    if n > 0 {
      AlwaysBounded(t, window, seen, n - 1);
      AdjustmentIsBounded(After(t, window, seen, n - 1), window, seen[n - 1].reorged, seen[n - 1].synced);
    }
  }

  /** The n-th processed poll lowers, or raises, the distance. */
  predicate Lowers(t: Tip, window: nat, seen: seq<Observation>, n: nat)
    requires n < |seen|
  {
    After(t, window, seen, n + 1).distance < After(t, window, seen, n).distance
  }

  predicate Raises(t: Tip, window: nat, seen: seq<Observation>, n: nat)
    requires n < |seen|
  {
    After(t, window, seen, n + 1).distance > After(t, window, seen, n).distance
  }

  /** The n-th processed poll left a mark: a reorg that did not raise the distance, or a lowering with a full history. */
  predicate LeavesMark(t: Tip, window: nat, seen: seq<Observation>, n: nat)
    requires n < |seen|
  {
    (seen[n].reorged && !Raises(t, window, seen, n)) || (Lowers(t, window, seen, n) && n + 1 >= window)
  }

  lemma AfterLaw(t: Tip, window: nat, seen: seq<Observation>, n: nat)
    requires 0 < window && n < |seen|
    requires |After(t, window, seen, n).history| == (if n < window then n else window) && !ThreeMarked(After(t, window, seen, n).history)
    ensures var before, after, m := After(t, window, seen, n), After(t, window, seen, n + 1), if n < window then n else window - 1;
      && (Raises(t, window, seen, n) <==> seen[n].reorged && exists i, j :: 0 <= i < j < m && before.history[i] && before.history[j])
      && (Lowers(t, window, seen, n) <==>
            seen[n].synced && !seen[n].reorged && before.distance > 0 && forall i :: 0 <= i < m ==> !before.history[i])
      && before.distance - 1 <= after.distance <= before.distance + 1
      && |after.history| == m + 1 && (forall i :: 0 <= i < m ==> after.history[i + 1] == before.history[i])
      && after.history[0] == LeavesMark(t, window, seen, n) && !ThreeMarked(after.history)
  {
    AdjustmentLaw(After(t, window, seen, n), window, seen[n].reorged, seen[n].synced);
    AdjustedHasNoThree(After(t, window, seen, n), window, seen[n].reorged, seen[n].synced);
  }

  /** The history holds the marks of the last polls, newest first, and no three of them. */
  predicate HoldsMarks(t: Tip, window: nat, seen: seq<Observation>, n: nat, h: seq<bool>)
    requires n <= |seen|
  {
    && |h| == (if n < window then n else window) && !ThreeMarked(h)
    && forall i :: 0 <= i < |h| ==> h[i] == LeavesMark(t, window, seen, n - 1 - i)
  }

  lemma MarksShift(t: Tip, window: nat, seen: seq<Observation>, n: nat, h: seq<bool>, h': seq<bool>, m: nat)
    requires 0 < window && n < |seen| && HoldsMarks(t, window, seen, n, h) && m == (if n < window then n else window - 1)
    requires |h'| == m + 1 && (forall i :: 0 <= i < m ==> h'[i + 1] == h[i]) && h'[0] == LeavesMark(t, window, seen, n) && !ThreeMarked(h')
    ensures HoldsMarks(t, window, seen, n + 1, h')
  {
    forall i | 0 <= i < |h'| ensures h'[i] == LeavesMark(t, window, seen, n - i) {
      if i > 0 {
        assert h'[(i - 1) + 1] == h[i - 1];
      }
    }
  }

  lemma HistoryIs(t: Tip, window: nat, seen: seq<Observation>, n: nat)
    requires 0 < window && t.history == [] && n <= |seen|
    ensures HoldsMarks(t, window, seen, n, After(t, window, seen, n).history)
  {
    for i := 0 to n
      invariant HoldsMarks(t, window, seen, i, After(t, window, seen, i).history)
    {
      NextHistory(t, window, seen, i);
    }
  }

  lemma NextHistory(t: Tip, window: nat, seen: seq<Observation>, n: nat)
    requires 0 < window && n < |seen| && HoldsMarks(t, window, seen, n, After(t, window, seen, n).history)
    ensures HoldsMarks(t, window, seen, n + 1, After(t, window, seen, n + 1).history)
  {
    AfterLaw(t, window, seen, n);
    MarksShift(t, window, seen, n, After(t, window, seen, n).history, After(t, window, seen, n + 1).history,
               if n < window then n else window - 1);
  }

  /** The entries that the next poll keeps are the marks of the polls less than a window before it. */
  lemma WindowMarks(t: Tip, window: nat, seen: seq<Observation>, n: nat, h: seq<bool>, m: nat)
    requires 0 < window && n < |seen| && HoldsMarks(t, window, seen, n, h) && m == if n < window then n else window - 1
    ensures (exists i, j :: 0 <= i < j < m && h[i] && h[j]) <==>
      exists a, b :: 0 <= a < b < n && n - a < window && LeavesMark(t, window, seen, a) && LeavesMark(t, window, seen, b)
    ensures (forall i :: 0 <= i < m ==> !h[i]) <==> forall a :: 0 <= a < n && n - a < window ==> !LeavesMark(t, window, seen, a)
  {
    if i, j :| 0 <= i < j < m && h[i] && h[j] {
      assert LeavesMark(t, window, seen, n - 1 - j) && LeavesMark(t, window, seen, n - 1 - i);
    }
    if a, b :| 0 <= a < b < n && n - a < window && LeavesMark(t, window, seen, a) && LeavesMark(t, window, seen, b) {
      assert h[n - 1 - b] && h[n - 1 - a];
    }
    if a :| 0 <= a < n && n - a < window && LeavesMark(t, window, seen, a) {
      assert h[n - 1 - a];
    }
    if i :| 0 <= i < m && h[i] {
      assert LeavesMark(t, window, seen, n - 1 - i);
    }
  }

  /**
   * Over runs from the start: a poll raises the distance by one exactly if it saw a reorg and two earlier ones within the
   * window left marks; it lowers it by one exactly if it is positive, synced and quiet and no earlier one within the window
   * left a mark.
   */
  lemma MovesIff(t: Tip, window: nat, seen: seq<Observation>, n: nat)
    requires 0 < window && t.history == [] && n < |seen|
    ensures Raises(t, window, seen, n) <==>
      seen[n].reorged && exists a, b :: 0 <= a < b < n && n - a < window && LeavesMark(t, window, seen, a) && LeavesMark(t, window, seen, b)
    ensures Lowers(t, window, seen, n) <==>
      && seen[n].synced && !seen[n].reorged && After(t, window, seen, n).distance > 0
      && forall a :: 0 <= a < n && n - a < window ==> !LeavesMark(t, window, seen, a)
    ensures After(t, window, seen, n).distance - 1 <= After(t, window, seen, n + 1).distance <= After(t, window, seen, n).distance + 1
  {
    HistoryIs(t, window, seen, n);
    AfterLaw(t, window, seen, n);
    WindowMarks(t, window, seen, n, After(t, window, seen, n).history, if n < window then n else window - 1);
  }

  /** Three reorgs within a window raise the distance, at the third of them at the latest. */
  lemma ThreeReorgsRaise(t: Tip, window: nat, seen: seq<Observation>, a: nat, b: nat, n: nat)
    requires 0 < window && t.history == [] && a < b < n < |seen| && n - a < window
    requires seen[a].reorged && seen[b].reorged && seen[n].reorged
    ensures Raises(t, window, seen, a) || Raises(t, window, seen, b) || Raises(t, window, seen, n)
  {
    MovesIff(t, window, seen, n);
    assert !Raises(t, window, seen, a) ==> LeavesMark(t, window, seen, a);
    assert !Raises(t, window, seen, b) ==> LeavesMark(t, window, seen, b);
  }

  lemma RaisedByReorg(t: Tip, window: nat, seen: seq<Observation>, n: nat)
    requires 0 < window && Bounded(t, window) && n < |seen| && Raises(t, window, seen, n)
    ensures seen[n].reorged
  {
    AlwaysBounded(t, window, seen, n);
    AdjustmentIsBounded(After(t, window, seen, n), window, seen[n].reorged, seen[n].synced);
  }

  predicate Full(t: Tip, window: nat) {
    |t.history| == window
  }

  lemma LoweringMarks(t: Tip, window: nat, reorged: bool, synced: bool)
    requires 0 < window && Bounded(t, window)
    requires Adjusted(t, window, reorged, synced).distance < t.distance
    requires Full(Adjusted(t, window, reorged, synced), window)
    ensures Adjusted(t, window, reorged, synced).history[0]
  {
  }

  lemma MarkBlocksLowering(t: Tip, window: nat, reorged: bool, synced: bool, j: nat)
    requires Full(t, window) && j + 1 < window && t.history[j]
    ensures Adjusted(t, window, reorged, synced).distance >= t.distance
  {
    var h := Recorded(t.history, window, reorged);
    assert h[j + 1] == t.history[j];
    NoMarks(h);
  }

  predicate Marked(t: Tip, window: nat, i: int) {
    Full(t, window) && 0 <= i < window && t.history[i]
  }

  lemma LoweringAtMarks(t: Tip, window: nat, seen: seq<Observation>, n: nat)
    requires 0 < window && Bounded(t, window) && n < |seen|
    requires Lowers(t, window, seen, n) && Full(After(t, window, seen, n + 1), window)
    ensures Marked(After(t, window, seen, n + 1), window, 0)
  {
    AlwaysBounded(t, window, seen, n);
    LoweringMarks(After(t, window, seen, n), window, seen[n].reorged, seen[n].synced);
  }

  lemma MarkMoves(t: Tip, window: nat, reorged: bool, synced: bool, i: nat)
    requires Marked(t, window, i) && i + 1 < window
    ensures Marked(Adjusted(t, window, reorged, synced), window, i + 1)
  {
  }

  lemma MarkMovesWithPoll(t: Tip, window: nat, seen: seq<Observation>, n: nat, i: nat)
    requires n < |seen| && i + 1 < window && Marked(After(t, window, seen, n), window, i)
    ensures Marked(After(t, window, seen, n + 1), window, i + 1)
  {
    MarkMoves(After(t, window, seen, n), window, seen[n].reorged, seen[n].synced, i);
  }

  /** The mark that a lowering with a full history leaves moves back one place per processed poll. */
  lemma {:induction false} MarkMovesBack(t: Tip, window: nat, seen: seq<Observation>, n: nat, m: nat)
    requires n <= m <= |seen| && m < n + window
    requires Marked(After(t, window, seen, n), window, 0)
    ensures Marked(After(t, window, seen, m), window, m - n)
    decreases m
  {
    if n < m {
      MarkMovesBack(t, window, seen, n, m - 1);
      MarkMovesWithPoll(t, window, seen, m - 1, m - 1 - n);
    }
  }

  /** Once the history is full, two lowerings are at least a window of processed polls apart. */
  lemma LoweringsAreAWindowApart(t: Tip, window: nat, seen: seq<Observation>, n: nat, m: nat)
    requires 0 < window && Bounded(t, window) && n < m < |seen|
    requires Lowers(t, window, seen, n) && Lowers(t, window, seen, m)
    requires Full(After(t, window, seen, n + 1), window)
    ensures m - n >= window
  {
    if m - n < window {
      LoweringAtMarks(t, window, seen, n);
      MarkMovesBack(t, window, seen, n + 1, m);
      MarkBlocksLowering(After(t, window, seen, m), window, seen[m].reorged, seen[m].synced, m - n - 1);
    }
  }

  /** The state after so many quiet polls: no mark is left, and each has lowered the distance. */
  predicate Quietened(t: Tip, distance: nat, polls: nat) {
    t.distance == distance - polls && |t.history| == polls && true !in t.history
  }

  lemma QuietPoll(t: Tip, window: nat, distance: nat, polls: nat)
    requires Quietened(t, distance, polls) && polls < distance && polls + 1 < window
    ensures Quietened(Adjusted(t, window, false, true), distance, polls + 1)
  {
    NoMarks(Recorded(t.history, window, false));
  }

  lemma {:induction false} QuietPolls(distance: nat, window: nat, seen: seq<Observation>, n: nat)
    requires n <= |seen| <= distance && |seen| < window
    requires forall i :: 0 <= i < |seen| ==> seen[i] == Observation(false, true)
    ensures Quietened(After(Tip(distance, []), window, seen, n), distance, n)
    decreases n
  {
    if n > 0 {
      QuietPolls(distance, window, seen, n - 1);
      QuietPoll(After(Tip(distance, []), window, seen, n - 1), window, distance, n - 1);
    }
  }

  /** While the history is filling up no mark is left: a window of quiet polls lowers the distance at each of them. */
  lemma FillingUpLowersEachTime(distance: nat, window: nat, seen: seq<Observation>)
    requires |seen| <= distance && |seen| < window
    requires forall i :: 0 <= i < |seen| ==> seen[i] == Observation(false, true)
    ensures After(Tip(distance, []), window, seen, |seen|).distance == distance - |seen|
    ensures forall n :: 0 <= n < |seen| ==> Lowers(Tip(distance, []), window, seen, n)
  {
    forall n | 0 <= n <= |seen| ensures After(Tip(distance, []), window, seen, n).distance == distance - n {
      QuietPolls(distance, window, seen, n);
    }
  }
}
