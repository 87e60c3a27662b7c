/** What the acceptance rows mean: they are exactly those of the chain that ends at the start hash, over every run. */
module ChainIndex {
  import opened Database
  import opened Acceptances
  import opened TipDistance
  import opened VirtualChain

  /**
   * The table is what the chain, the import and pruning leave: each transaction that a block of the chain accepts has a row
   * that names the block, each imported one has a row that names none, except for the pruned ones; there are no other rows.
   */
  ghost predicate Indexed(acceptances: map<TxId, Option<Hash>>, chain: seq<Hash>, accepts: Hash -> seq<TxId>,
                          imports: set<TxId>, pruned: set<TxId>) {
    && (forall t :: t in pruned ==> t !in acceptances)
    && (forall t :: t in acceptances && acceptances[t].Some? ==>
          acceptances[t].value in chain && t in accepts(acceptances[t].value))
    && (forall b, t :: b in chain && t in accepts(b) && t !in pruned ==> t in acceptances && acceptances[t] == Some(b))
    && (forall t :: (t in acceptances && acceptances[t] == None) <==> t in imports && t !in pruned)
  }

  /** One row per block of the chain. */
  ghost predicate Listed(chainBlocks: multiset<Hash>, chain: seq<Hash>) {
    forall b :: chainBlocks[b] == if b in chain then 1 else 0
  }

  /** The chain, the imported and the pruned transactions determine the table. */
  lemma IndexIsUnique(a: map<TxId, Option<Hash>>, b: map<TxId, Option<Hash>>, chain: seq<Hash>, accepts: Hash -> seq<TxId>,
                      imports: set<TxId>, pruned: set<TxId>)
    requires Indexed(a, chain, accepts, imports, pruned) && Indexed(b, chain, accepts, imports, pruned)
    ensures a == b
  {
    forall t | t in a ensures t in b && b[t] == a[t] {
      assert a[t] == None || t in accepts(a[t].value);
    }
    forall t | t in b ensures t in a {
      assert b[t] == None || t in accepts(b[t].value);
    }
    assert a.Keys == b.Keys;
  }

  // ---- What the node promises ----

  ghost predicate DistinctBlocks(chain: seq<Hash>) {
    forall i, j :: 0 <= i < j < |chain| ==> chain[i] != chain[j]
  }

  /** Along a chain, a transaction is accepted by one block at most. */
  ghost predicate AcceptedOnce(chain: seq<Hash>, accepts: Hash -> seq<TxId>) {
    forall b, b', t :: b in chain && b' in chain && t in accepts(b) && t in accepts(b') ==> b == b'
  }

  ghost predicate Lists(accepted: seq<AcceptedIds>, added: seq<Hash>, accepts: Hash -> seq<TxId>) {
    |accepted| == |added| && forall i :: 0 <= i < |added| ==> accepted[i] == AcceptedIds(added[i], accepts(added[i]))
  }

  function AcceptedBy(blocks: seq<Hash>, accepts: Hash -> seq<TxId>): set<TxId> {
    set b, t | b in blocks && t in accepts(b) :: t
  }

  /**
   * The node's answer to a tracker of chain: of the chain's blocks it removes those from place fork on, the added blocks
   * extend the rest to a chain again, and they accept no imported transaction.
   */
  ghost predicate Answers(c: Config, chain: seq<Hash>, fork: nat, reply: Reply, imports: set<TxId>, accepts: Hash -> seq<TxId>) {
    && fork <= |chain|
    && (forall i :: 0 <= i < |chain| ==> (chain[i] in reply.removed <==> fork <= i))
    && DistinctBlocks(chain[..fork] + reply.added)
    && AcceptedOnce(chain[..fork] + reply.added, accepts)
    && (c.acceptance ==> Lists(reply.accepted, reply.added, accepts))
    && AcceptedBy(reply.added, accepts) !! imports
  }

  /** The added blocks that the poll takes: none if it is skipped. */
  function Taken(v: View, reply: Reply): seq<Hash> {
    if |reply.added| <= v.tip.distance then [] else reply.added[..|reply.added| - v.tip.distance]
  }

  /** The chain that is tracked after the poll. */
  function Followed(v: View, chain: seq<Hash>, fork: nat, reply: Reply): seq<Hash>
    requires fork <= |chain|
  {
    if |reply.added| <= v.tip.distance then chain else chain[..fork] + Taken(v, reply)
  }

  // ---- The invariant ----

  ghost predicate Tracks(c: Config, m: Moment, origin: Hash, imports: set<TxId>, accepts: Hash -> seq<TxId>) {
    && m.view.startHash == (if m.chain == [] then origin else m.chain[|m.chain| - 1])
    && if c.acceptance then Indexed(m.view.acceptances, m.chain, accepts, imports, m.pruned) else Listed(m.view.chainBlocks, m.chain)
  }

  lemma ForkIsIndexed(acceptances: map<TxId, Option<Hash>>, chain: seq<Hash>, fork: nat, removed: set<Hash>, accepts: Hash -> seq<TxId>,
                      imports: set<TxId>, pruned: set<TxId>)
    requires Indexed(acceptances, chain, accepts, imports, pruned) && fork <= |chain|
    requires forall i :: 0 <= i < |chain| ==> (chain[i] in removed <==> fork <= i)
    ensures Indexed(WithoutBlocks(acceptances, removed), chain[..fork], accepts, imports, pruned)
  {
    var kept := WithoutBlocks(acceptances, removed);
    forall t | t in kept && kept[t].Some? ensures kept[t].value in chain[..fork] && t in accepts(kept[t].value) {
      var i :| 0 <= i < |chain| && chain[i] == kept[t].value;
      assert i < fork;
    }
    forall b, t | b in chain[..fork] && t in accepts(b) && t !in pruned ensures t in kept && kept[t] == Some(b) {
      var i :| 0 <= i < fork && chain[i] == b;
      assert chain[i] in chain;
    }
  }

  lemma RowNamesItsBlock(table: map<TxId, Option<Hash>>, prefix: seq<Hash>, added: seq<Hash>, accepted: seq<AcceptedIds>,
                         after: map<TxId, Option<Hash>>, accepts: Hash -> seq<TxId>, imports: set<TxId>, pruned: set<TxId>, t: TxId)
    requires Indexed(table, prefix, accepts, imports, pruned) && InsertedFor(table, accepted, after) && Lists(accepted, added, accepts)
    requires t in after && (t !in table || table[t].Some?)
    ensures after[t].Some? && after[t].value in prefix + added && t in accepts(after[t].value)
    ensures t !in table ==> t in AcceptedBy(added, accepts)
  {
    if t !in table {
      var a :| a in accepted && t in a.txs && after[t] == Some(a.block);
      var i :| 0 <= i < |accepted| && accepted[i] == a;
      assert a.block == added[i];
    }
  }

  lemma AcceptedHasRow(table: map<TxId, Option<Hash>>, added: seq<Hash>, accepted: seq<AcceptedIds>,
                       after: map<TxId, Option<Hash>>, accepts: Hash -> seq<TxId>, t: TxId)
    requires InsertedFor(table, accepted, after) && Lists(accepted, added, accepts)
    requires t in AcceptedBy(added, accepts)
    ensures t in after
  {
    var b :| b in added && t in accepts(b);
    var i :| 0 <= i < |added| && added[i] == b;
    assert accepted[i] in accepted && t in accepted[i].txs;
  }

  /** The row of an accepted transaction is there and names the one block that accepts it. */
  lemma AcceptedIsNamed(table: map<TxId, Option<Hash>>, prefix: seq<Hash>, added: seq<Hash>, accepted: seq<AcceptedIds>,
                        after: map<TxId, Option<Hash>>, accepts: Hash -> seq<TxId>, imports: set<TxId>, pruned: set<TxId>, b: Hash, t: TxId)
    requires Indexed(table, prefix, accepts, imports, pruned) && InsertedFor(table, accepted, after) && Lists(accepted, added, accepts)
    requires AcceptedOnce(prefix + added, accepts) && AcceptedBy(added, accepts) !! imports
    requires b in prefix + added && t in accepts(b) && t !in pruned - AcceptedBy(added, accepts)
    ensures t in after && after[t] == Some(b)
  {
    if t in AcceptedBy(added, accepts) {
      AcceptedHasRow(table, added, accepted, after, accepts, t);
      assert t !in imports;
      RowNamesItsBlock(table, prefix, added, accepted, after, accepts, imports, pruned, t);
    } else {
      assert b in prefix;
    }
  }

  lemma AddedAreIndexed(table: map<TxId, Option<Hash>>, prefix: seq<Hash>, added: seq<Hash>, accepted: seq<AcceptedIds>,
                        after: map<TxId, Option<Hash>>, accepts: Hash -> seq<TxId>, imports: set<TxId>, pruned: set<TxId>)
    requires Indexed(table, prefix, accepts, imports, pruned) && InsertedFor(table, accepted, after) && Lists(accepted, added, accepts)
    requires AcceptedOnce(prefix + added, accepts) && AcceptedBy(added, accepts) !! imports
    ensures Indexed(after, prefix + added, accepts, imports, pruned - AcceptedBy(added, accepts))
  {
    forall t | t in after
      ensures t !in pruned - AcceptedBy(added, accepts)
      ensures if after[t].Some? then after[t].value in prefix + added && t in accepts(after[t].value) else t in imports && t !in pruned
    {
      if t !in table || table[t].Some? {
        RowNamesItsBlock(table, prefix, added, accepted, after, accepts, imports, pruned, t);
      }
    }
    forall b, t | b in prefix + added && t in accepts(b) && t !in pruned - AcceptedBy(added, accepts) ensures t in after && after[t] == Some(b) {
      AcceptedIsNamed(table, prefix, added, accepted, after, accepts, imports, pruned, b, t);
    }
  }

  lemma PrefixOfChain(prefix: seq<Hash>, added: seq<Hash>, taken: nat, imports: set<TxId>, accepts: Hash -> seq<TxId>)
    requires taken <= |added| && DistinctBlocks(prefix + added) && AcceptedOnce(prefix + added, accepts)
    requires AcceptedBy(added, accepts) !! imports
    ensures DistinctBlocks(prefix + added[..taken]) && AcceptedOnce(prefix + added[..taken], accepts)
    ensures AcceptedBy(added[..taken], accepts) !! imports
  {
    assert (prefix + added)[..|prefix| + taken] == prefix + added[..taken];
    assert forall b :: b in prefix + added[..taken] ==> b in prefix + added;
    assert AcceptedBy(added[..taken], accepts) <= AcceptedBy(added, accepts);
  }

  lemma {:induction false} DistinctCounts(s: seq<Hash>, b: Hash)
    requires DistinctBlocks(s)
    ensures multiset(s)[b] == if b in s then 1 else 0
  {
    if s != [] {
      var last := |s| - 1;
      assert s == s[..last] + [s[last]];
      DistinctCounts(s[..last], b);
    }
  }

  lemma DistinctParts(a: seq<Hash>, b: seq<Hash>)
    requires DistinctBlocks(a + b)
    ensures DistinctBlocks(b) && forall x :: x in a ==> x !in b
  {
    assert forall i :: 0 <= i < |a| ==> (a + b)[i] == a[i];
    assert forall i :: 0 <= i < |b| ==> (a + b)[|a| + i] == b[i];
  }

  lemma AddedAreListed(rows: multiset<Hash>, chain: seq<Hash>, fork: nat, removed: set<Hash>, added: seq<Hash>, rows': multiset<Hash>)
    requires Listed(rows, chain) && fork <= |chain|
    requires forall i :: 0 <= i < |chain| ==> (chain[i] in removed <==> fork <= i)
    requires DistinctBlocks(chain[..fork] + added)
    requires forall b :: rows'[b] == (if b in removed then 0 else rows[b]) + multiset(added)[b]
    ensures Listed(rows', chain[..fork] + added)
  {
    DistinctParts(chain[..fork], added);
    forall b ensures rows'[b] == if b in chain[..fork] + added then 1 else 0 {
      DistinctCounts(added, b);
      if b in chain {
        var i :| 0 <= i < |chain| && chain[i] == b;
        assert i < fork ==> chain[..fork][i] == b;
      }
    }
  }

  lemma RewrittenIsIndexed(c: Config, v: View, chain: seq<Hash>, fork: nat, reply: Reply, taken: nat,
                           acceptances: map<TxId, Option<Hash>>, chainBlocks: multiset<Hash>,
                           accepts: Hash -> seq<TxId>, imports: set<TxId>, pruned: set<TxId>)
    requires c.acceptance && Indexed(v.acceptances, chain, accepts, imports, pruned) && Answers(c, chain, fork, reply, imports, accepts)
    requires taken <= |reply.added| && Rewritten(c, v, reply, taken, acceptances, chainBlocks)
    ensures Indexed(acceptances, chain[..fork] + reply.added[..taken], accepts, imports,
                    pruned - AcceptedBy(reply.added[..taken], accepts))
  {
    var removed := HashSet(reply.removed);
    PrefixOfChain(chain[..fork], reply.added, taken, imports, accepts);
    ForkIsIndexed(v.acceptances, chain, fork, removed, accepts, imports, pruned);
    AddedAreIndexed(WithoutBlocks(v.acceptances, removed), chain[..fork], reply.added[..taken], reply.accepted[..taken],
                    acceptances, accepts, imports, pruned);
  }

  lemma RewrittenIsListed(c: Config, v: View, chain: seq<Hash>, fork: nat, reply: Reply, taken: nat,
                          acceptances: map<TxId, Option<Hash>>, chainBlocks: multiset<Hash>, accepts: Hash -> seq<TxId>, imports: set<TxId>)
    requires !c.acceptance && Listed(v.chainBlocks, chain) && Answers(c, chain, fork, reply, imports, accepts)
    requires taken <= |reply.added| && Rewritten(c, v, reply, taken, acceptances, chainBlocks)
    ensures Listed(chainBlocks, chain[..fork] + reply.added[..taken])
  {
    PrefixOfChain(chain[..fork], reply.added, taken, imports, accepts);
    AddedAreListed(v.chainBlocks, chain, fork, HashSet(reply.removed), reply.added[..taken], chainBlocks);
  }

  // ---- Whole runs ----

  /** The processor's view, the chain that it tracks, and the transactions that lost their row to pruning. */
  datatype Moment = Moment(view: View, chain: seq<Hash>, pruned: set<TxId>)

  /** A poll with the place where the node's chain leaves the tracked one, a call that failed, or rows that pruning deletes. */
  datatype Event = Answer(reply: Reply, fork: nat) | Failed | Prune(gone: set<TxId>)

  ghost predicate Step(c: Config, m: Moment, e: Event, m': Moment, imports: set<TxId>, accepts: Hash -> seq<TxId>) {
    match e
    case Failed => m' == m
    case Answer(reply, fork) =>
      && Answers(c, m.chain, fork, reply, imports, accepts)
      && Polled(c, m.view, reply, m'.view)
      && m'.chain == Followed(m.view, m.chain, fork, reply)
      && m'.pruned == m.pruned - AcceptedBy(Taken(m.view, reply), accepts)
    case Prune(gone) =>
      m' == Moment(m.view.(acceptances := m.view.acceptances - gone), m.chain, m.pruned + gone)
  }

  lemma ProcessedPollKeeps(c: Config, m: Moment, origin: Hash, fork: nat, reply: Reply, m': Moment, imports: set<TxId>, accepts: Hash -> seq<TxId>)
    requires Tracks(c, m, origin, imports, accepts) && Step(c, m, Answer(reply, fork), m', imports, accepts)
    requires |reply.added| > m.view.tip.distance
    ensures Tracks(c, m', origin, imports, accepts)
  {
    var v, taken := m.view, |reply.added| - m.view.tip.distance;
    if c.acceptance {
      RewrittenIsIndexed(c, v, m.chain, fork, reply, taken, m'.view.acceptances, m'.view.chainBlocks, accepts, imports, m.pruned);
    } else {
      RewrittenIsListed(c, v, m.chain, fork, reply, taken, m'.view.acceptances, m'.view.chainBlocks, accepts, imports);
    }
  }

  lemma SkippedPollKeeps(c: Config, m: Moment, origin: Hash, fork: nat, reply: Reply, m': Moment, imports: set<TxId>, accepts: Hash -> seq<TxId>)
    requires Tracks(c, m, origin, imports, accepts) && Step(c, m, Answer(reply, fork), m', imports, accepts)
    requires |reply.added| <= m.view.tip.distance
    ensures Tracks(c, m', origin, imports, accepts)
  {
    assert m.pruned - AcceptedBy([], accepts) == m.pruned;
  }

  /** Every poll, processed or skipped, leaves exactly the rows of the chain that ends at the new start hash. */
  lemma PollKeepsIndex(c: Config, m: Moment, origin: Hash, fork: nat, reply: Reply, m': Moment, imports: set<TxId>, accepts: Hash -> seq<TxId>)
    requires Tracks(c, m, origin, imports, accepts) && Step(c, m, Answer(reply, fork), m', imports, accepts)
    ensures Tracks(c, m', origin, imports, accepts)
  {
    if |reply.added| > m.view.tip.distance {
      ProcessedPollKeeps(c, m, origin, fork, reply, m', imports, accepts);
    } else {
      SkippedPollKeeps(c, m, origin, fork, reply, m', imports, accepts);
    }
  }

  lemma PruneKeepsIndex(acceptances: map<TxId, Option<Hash>>, chain: seq<Hash>, accepts: Hash -> seq<TxId>,
                        imports: set<TxId>, pruned: set<TxId>, gone: set<TxId>)
    requires Indexed(acceptances, chain, accepts, imports, pruned)
    ensures Indexed(acceptances - gone, chain, accepts, imports, pruned + gone)
  {
  }

  ghost predicate Run(c: Config, moments: seq<Moment>, events: seq<Event>, imports: set<TxId>, accepts: Hash -> seq<TxId>) {
    && |moments| == |events| + 1
    && forall n :: 0 <= n < |events| ==> Step(c, moments[n], events[n], moments[n + 1], imports, accepts)
  }

  /** Over every run of reorgs, tip distances and prunings: the rows are those of the tracked chain that were not pruned. */
  lemma {:induction false} RunKeepsIndex(c: Config, moments: seq<Moment>, events: seq<Event>, origin: Hash,
                                         imports: set<TxId>, accepts: Hash -> seq<TxId>, n: nat)
    requires Run(c, moments, events, imports, accepts) && n < |moments|
    requires Tracks(c, moments[0], origin, imports, accepts)
    ensures Tracks(c, moments[n], origin, imports, accepts)
  {
    if n > 0 {
      RunKeepsIndex(c, moments, events, origin, imports, accepts, n - 1);
      var m, m' := moments[n - 1], moments[n];
      assert Step(c, m, events[n - 1], m', imports, accepts);
      match events[n - 1]
      case Failed =>
      case Answer(reply, fork) =>
        PollKeepsIndex(c, m, origin, fork, reply, m', imports, accepts);
      case Prune(gone) =>
        if c.acceptance {
          PruneKeepsIndex(m.view.acceptances, m.chain, accepts, imports, m.pruned, gone);
        }
    }
  }

  /** Two runs that end on the same chain with the same rows pruned end with the same table, however they got there. */
  lemma RunsAgree(c: Config, ms: seq<Moment>, es: seq<Event>, ms': seq<Moment>, es': seq<Event>, origin: Hash,
                  imports: set<TxId>, accepts: Hash -> seq<TxId>)
    requires c.acceptance && Run(c, ms, es, imports, accepts) && Run(c, ms', es', imports, accepts)
    requires Tracks(c, ms[0], origin, imports, accepts) && Tracks(c, ms'[0], origin, imports, accepts)
    requires ms[|es|].chain == ms'[|es'|].chain && ms[|es|].pruned == ms'[|es'|].pruned
    ensures ms[|es|].view.acceptances == ms'[|es'|].view.acceptances
    ensures ms[|es|].view.startHash == ms'[|es'|].view.startHash
  {
    RunKeepsIndex(c, ms, es, origin, imports, accepts, |es|);
    RunKeepsIndex(c, ms', es', origin, imports, accepts, |es'|);
    IndexIsUnique(ms[|es|].view.acceptances, ms'[|es'|].view.acceptances, ms[|es|].chain, accepts, imports, ms[|es|].pruned);
  }

  /** In blocks-only mode, the rows without a transaction are the same. */
  lemma RunsAgreeOnBlocks(c: Config, ms: seq<Moment>, es: seq<Event>, ms': seq<Moment>, es': seq<Event>, origin: Hash,
                          imports: set<TxId>, accepts: Hash -> seq<TxId>)
    requires !c.acceptance && Run(c, ms, es, imports, accepts) && Run(c, ms', es', imports, accepts)
    requires Tracks(c, ms[0], origin, imports, accepts) && Tracks(c, ms'[0], origin, imports, accepts)
    requires ms[|es|].chain == ms'[|es'|].chain
    ensures ms[|es|].view.chainBlocks == ms'[|es'|].view.chainBlocks
    ensures ms[|es|].view.startHash == ms'[|es'|].view.startHash
  {
    RunKeepsIndex(c, ms, es, origin, imports, accepts, |es|);
    RunKeepsIndex(c, ms', es', origin, imports, accepts, |es'|);
  }

  /**
   * One answered poll. It is skipped as a whole unless it adds more blocks than the tip distance, and then the last ones of
   * that number are held back. A deletion of rows counts as a reorg for the tip distance.
   */
  lemma PollLaw(c: Config, m: Moment, fork: nat, reply: Reply, m': Moment, imports: set<TxId>, accepts: Hash -> seq<TxId>)
    requires Step(c, m, Answer(reply, fork), m', imports, accepts)
    ensures m'.view.synced == (m.view.synced || |reply.added| < 200)
    ensures |reply.added| <= m.view.tip.distance ==>
      m'.view == m.view.(synced := m'.view.synced) && m'.chain == m.chain && m'.pruned == m.pruned
    ensures |reply.added| > m.view.tip.distance ==>
      && m'.chain == m.chain[..fork] + reply.added[..|reply.added| - m.view.tip.distance]
      && m'.view.startHash == reply.added[|reply.added| - m.view.tip.distance - 1]
    ensures |reply.added| > m.view.tip.distance && c.acceptance ==>
      forall b :: m'.view.chainBlocks[b] == if b in reply.removed then 0 else m.view.chainBlocks[b]
    ensures |reply.added| > m.view.tip.distance && !c.acceptance ==>
      && (forall t :: t in m'.view.acceptances ==> t in m.view.acceptances && m'.view.acceptances[t] == m.view.acceptances[t])
      && (forall t :: t in m.view.acceptances ==>
            (t in m'.view.acceptances <==> forall b :: b in reply.removed ==> m.view.acceptances[t] != Some(b)))
    ensures !c.dynamic ==> m'.view.tip == m.view.tip
    ensures c.dynamic && |reply.added| > m.view.tip.distance ==>
      m'.view.tip == Adjusted(m.view.tip, c.window,
        (exists b :: b in reply.removed && (b in m.view.chainBlocks || exists t :: t in m.view.acceptances && m.view.acceptances[t] == Some(b))),
        m.view.synced)
  {
    assert Hit(m.view.acceptances, m.view.chainBlocks, HashSet(reply.removed)) <==>
      exists b :: b in reply.removed && (b in m.view.chainBlocks || exists t :: t in m.view.acceptances && m.view.acceptances[t] == Some(b));
    assert |reply.added| <= m.view.tip.distance ==> AcceptedBy([], accepts) == {};
  }

  /** The processor counts as synced from the first answer on that adds fewer than 200 blocks, skipped or not. */
  lemma {:induction false} SyncedIff(c: Config, moments: seq<Moment>, events: seq<Event>, imports: set<TxId>, accepts: Hash -> seq<TxId>, n: nat)
    requires Run(c, moments, events, imports, accepts) && n <= |events| && !moments[0].view.synced
    ensures moments[n].view.synced <==> exists k :: 0 <= k < n && events[k].Answer? && |events[k].reply.added| < 200
    decreases n
  {
    if n > 0 {
      SyncedIff(c, moments, events, imports, accepts, n - 1);
      assert Step(c, moments[n - 1], events[n - 1], moments[n], imports, accepts);
    }
  }

  // ---- The tip distance within a run ----

  function Processed(v: View, e: Event): bool {
    e.Answer? && |e.reply.added| > v.tip.distance
  }

  /** What the controller observed in the first n events: one observation per processed poll. */
  ghost function Observed(moments: seq<Moment>, events: seq<Event>, n: nat): seq<Observation>
    requires n <= |events| && |moments| == |events| + 1
  {
    if n == 0 then [] else
      var v, e := moments[n - 1].view, events[n - 1];
      Observed(moments, events, n - 1)
      + if Processed(v, e) then [Observation(Hit(v.acceptances, v.chainBlocks, HashSet(e.reply.removed)), v.synced)] else []
  }

  /** Fixed without dynamic tip distance, else what the controller makes of its observations. */
  function TipAfter(c: Config, t: Tip, seen: seq<Observation>): Tip {
    if c.dynamic then After(t, c.window, seen, |seen|) else t
  }

  lemma TipAfterMore(c: Config, t: Tip, seen: seq<Observation>, processed: bool, o: Observation)
    ensures TipAfter(c, t, seen + if processed then [o] else [])
         == if c.dynamic && processed then Adjusted(TipAfter(c, t, seen), c.window, o.reorged, o.synced) else TipAfter(c, t, seen)
  {
    assert seen + [] == seen;
    AfterPrefix(t, c.window, seen, [o], |seen|);
  }

  lemma StepMovesTip(c: Config, m: Moment, e: Event, m': Moment, imports: set<TxId>, accepts: Hash -> seq<TxId>)
    requires Step(c, m, e, m', imports, accepts)
    ensures m'.view.tip == if c.dynamic && Processed(m.view, e)
                           then Adjusted(m.view.tip, c.window, Hit(m.view.acceptances, m.view.chainBlocks, HashSet(e.reply.removed)), m.view.synced)
                           else m.view.tip
  {
  }

  /** The tip distance is the controller's answer to the processed polls alone: skipped and failed polls and prunings leave it alone. */
  lemma {:induction false} TipFollowsObservations(c: Config, moments: seq<Moment>, events: seq<Event>, imports: set<TxId>, accepts: Hash -> seq<TxId>, n: nat)
    requires Run(c, moments, events, imports, accepts) && n <= |events|
    ensures moments[n].view.tip == TipAfter(c, moments[0].view.tip, Observed(moments, events, n))
  {
    if n > 0 {
      TipFollowsObservations(c, moments, events, imports, accepts, n - 1);
      var v, e := moments[n - 1].view, events[n - 1];
      StepMovesTip(c, moments[n - 1], e, moments[n], imports, accepts);
      TipAfterMore(c, moments[0].view.tip, Observed(moments, events, n - 1), Processed(v, e),
                   Observation(e.Answer? && Hit(v.acceptances, v.chainBlocks, HashSet(e.reply.removed)), v.synced));
    }
  }
}
