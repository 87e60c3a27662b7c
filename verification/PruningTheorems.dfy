/** What pruning keeps, whatever rows each chunk's LIMIT happens to pick. */
module PruningTheorems {
  import opened Database
  import opened Pruning

  /** The accepted transactions that keep their acceptance row once the outpoints in seen are treated as spent. */
  function StillAccepted(s: Store, seen: set<Outpoint>): set<TxId> {
    s.acceptances.Keys - FullySpent(WithoutOutputs(s.outputs, seen), seen)
  }

  /**
   * The outpoints that the chunks treat as spent, computed from the tables before pruning:
   * a transaction counts as a spender only if the chunks before its own left it its acceptance row.
   */
  function Seen(s: Store, chunks: seq<set<TxId>>): set<Outpoint> {
    if chunks == [] then {} else
      var before := Seen(s, chunks[..|chunks| - 1]);
      before + Spends(s.inputs, chunks[|chunks| - 1] * StillAccepted(s, before))
  }

  // ---- The loop has a closed form ----

  lemma ResidueTwice(s: Store, txs: set<TxId>, seen: set<Outpoint>, expired: set<TxId>)
    requires txs !! expired
    ensures PruneChunk(Residue(s, txs, seen), expired)
         == Residue(s, txs + expired, seen + Spends(s.inputs, expired * StillAccepted(s, seen)))
  {
    var r := Residue(s, txs, seen);
    KeptAcceptances(s, txs, seen);
    var spent := Spends(s.inputs, expired * StillAccepted(s, seen));
    SpendsOfRest(s.inputs, txs, expired * StillAccepted(s, seen));
    var r' := PruneChunk(r, expired);
    var t := Residue(s, txs + expired, seen + spent);
    ResidueOutputs(s, txs, seen, expired, spent);
    ResidueAcceptances(s, txs, seen, expired, spent);
    assert r'.transactions == t.transactions;
    assert r'.inputs == t.inputs;
  }

  lemma KeptAcceptances(s: Store, txs: set<TxId>, seen: set<Outpoint>)
    ensures Residue(s, txs, seen).acceptances.Keys == StillAccepted(s, seen)
  {
  }

  lemma SpendsOfRest(inputs: map<InputId, Input>, txs: set<TxId>, accepted: set<TxId>)
    requires txs !! accepted
    ensures Spends(WithoutInputsOf(inputs, txs), accepted) == Spends(inputs, accepted)
  {
  }

  lemma StrippedHasNoOutputs(s: Store, seen: set<Outpoint>, o: Outpoint)
    requires o in s.outputs && o !in seen && o.tx in s.acceptances
    ensures o.tx in StillAccepted(s, seen)
  {
  }

  lemma ResidueOutputs(s: Store, txs: set<TxId>, seen: set<Outpoint>, expired: set<TxId>, spent: set<Outpoint>)
    ensures WithoutOutputs(WithoutOutputsOf(Residue(s, txs, seen).outputs, expired - StillAccepted(s, seen)), spent)
         == Residue(s, txs + expired, seen + spent).outputs
  {
    forall o | o in s.outputs && o !in seen && o.tx in s.acceptances ensures o.tx in StillAccepted(s, seen) {
      StrippedHasNoOutputs(s, seen, o);
    }
  }

  lemma ResidueAcceptances(s: Store, txs: set<TxId>, seen: set<Outpoint>, expired: set<TxId>, spent: set<Outpoint>)
    ensures var outputs := Residue(s, txs + expired, seen + spent).outputs;
      Residue(s, txs, seen).acceptances - FullySpent(outputs, spent) == Residue(s, txs + expired, seen + spent).acceptances
  {
  }

  /** Chunk after chunk is one pass over all of them, for the outpoints the chunks saw as spent. */
  lemma {:induction false} ClosedForm(s: Store, chunks: seq<set<TxId>>)
    requires Disjoint(chunks)
    ensures PruneChunks(s, chunks) == Residue(s, Union(chunks), Seen(s, chunks))
  {
    if chunks == [] {
      NothingExpired(s);
      assert Spends(s.inputs, {} * s.acceptances.Keys) == {};
    } else {
      var before, last := chunks[..|chunks| - 1], chunks[|chunks| - 1];
      ClosedForm(s, before);
      UnionCovers(before);
      ResidueTwice(s, Union(before), Seen(s, before), last);
    }
  }

  // ---- Safety ----

  /** The outpoints that a single pass over txs treats as spent. */
  function SpentBy(s: Store, txs: set<TxId>): set<Outpoint> {
    Spends(s.inputs, txs * s.acceptances.Keys)
  }

  /** What chunks see as spent is spent by an accepted transaction that still had its acceptance row at its own chunk. */
  lemma {:induction false} SeenHasSpender(s: Store, chunks: seq<set<TxId>>, o: Outpoint) returns (n: nat, i: InputId)
    requires o in Seen(s, chunks)
    ensures n < |chunks| && i in s.inputs && s.inputs[i].previous == o
    ensures i.tx in chunks[n] && i.tx in StillAccepted(s, Seen(s, chunks[..n]))
  {
    var last := |chunks| - 1;
    if o in Seen(s, chunks[..last]) {
      n, i := SeenHasSpender(s, chunks[..last], o);
      assert chunks[..last][..n] == chunks[..n];
    } else {
      var txs := chunks[last] * StillAccepted(s, Seen(s, chunks[..last]));
      n, i :| n == last && i in s.inputs && i.tx in txs && s.inputs[i].previous == o;
    }
  }

  lemma SeenIsSpent(s: Store, chunks: seq<set<TxId>>)
    ensures Seen(s, chunks) <= SpentBy(s, Union(chunks))
  {
  }

  /**
   * No unspent output is lost: an output of a transaction accepted at the start survives the whole loop
   * unless a pruned transaction that was accepted at the start spends it, and with it its acceptance row.
   */
  lemma UnspentOutputsSurvive(s: Store, chunks: seq<set<TxId>>, o: Outpoint)
    requires Disjoint(chunks)
    requires o in s.outputs && o.tx in s.acceptances
    requires forall i :: i in s.inputs && i.tx in s.acceptances && i.tx in Union(chunks) ==> s.inputs[i].previous != o
    ensures var s' := PruneChunks(s, chunks);
      o in s'.outputs && s'.outputs[o] == s.outputs[o] && o.tx in s'.acceptances && s'.acceptances[o.tx] == s.acceptances[o.tx]
  {
    ClosedForm(s, chunks);
    SeenIsSpent(s, chunks);
    StrippedHasNoOutputs(s, Seen(s, chunks), o);
    KeptAcceptances(s, Union(chunks), Seen(s, chunks));
  }

  // ---- Chunking against one pass ----

  /** Whatever the chunks are, they delete the transactions and inputs that one pass deletes, and no more than it elsewhere. */
  lemma ChunkedRefinesOnePass(s: Store, chunks: seq<set<TxId>>)
    requires Disjoint(chunks)
    ensures var chunked, once := PruneChunks(s, chunks), PruneChunk(s, Union(chunks));
      && chunked.transactions == once.transactions && chunked.inputs == once.inputs
      && Submap(once.outputs, chunked.outputs) && Submap(once.acceptances, chunked.acceptances)
  {
    ClosedForm(s, chunks);
    SeenIsSpent(s, chunks);
    var chunked, once := PruneChunks(s, chunks), PruneChunk(s, Union(chunks));
    var seen, spent := Seen(s, chunks), SpentBy(s, Union(chunks));
    assert forall o :: o in once.outputs ==> o in chunked.outputs;
    forall t | t in FullySpent(chunked.outputs, seen) ensures t in FullySpent(once.outputs, spent) {
    }
  }

  /** No accepted spender sits in an earlier chunk than the accepted transaction it spends from. */
  predicate SourcesFirst(s: Store, chunks: seq<set<TxId>>) {
    forall m, n, i :: 0 <= m < n < |chunks| && i in s.inputs && i.tx in chunks[m] && i.tx in s.acceptances ==>
      s.inputs[i].previous.tx !in chunks[n] * s.acceptances.Keys
  }

  lemma {:induction false} SourcesFirstSeesAll(s: Store, chunks: seq<set<TxId>>)
    requires SourcesFirst(s, chunks)
    ensures Seen(s, chunks) == SpentBy(s, Union(chunks))
  {
    if chunks != [] {
      var last := |chunks| - 1;
      SourcesFirstSeesAll(s, chunks[..last]);
      var before := Seen(s, chunks[..last]);
      forall t | t in chunks[last] && t in s.acceptances ensures t in StillAccepted(s, before) {
        if o :| o in before && o.tx == t {
          var n, i := SeenHasSpender(s, chunks[..last], o);
        }
      }
      assert chunks[last] * StillAccepted(s, before) == chunks[last] * s.acceptances.Keys;
    }
  }

  lemma SourcesFirstIsOnePass(s: Store, chunks: seq<set<TxId>>)
    requires Disjoint(chunks) && SourcesFirst(s, chunks)
    ensures PruneChunks(s, chunks) == PruneChunk(s, Union(chunks))
  {
    ClosedForm(s, chunks);
    SourcesFirstSeesAll(s, chunks);
  }

  // ---- Exactly when chunking equals one pass ----

  /** In the run, every accepted transaction with inputs still has its acceptance row when its own chunk comes. */
  predicate KeptInRun(s: Store, chunks: seq<set<TxId>>) {
    forall n, i :: 0 <= n < |chunks| && i in s.inputs && i.tx in chunks[n] && i.tx in s.acceptances ==>
      i.tx in StillAccepted(s, Seen(s, chunks[..n]))
  }

  /** Accepted transactions spend stored outputs of accepted transactions, and no two inputs of them the same one. */
  predicate ConsistentSpends(s: Store) {
    && (forall i :: i in s.inputs && i.tx in s.acceptances ==>
          s.inputs[i].previous in s.outputs && s.inputs[i].previous.tx in s.acceptances)
    && (forall i, j :: i in s.inputs && j in s.inputs && i.tx in s.acceptances && j.tx in s.acceptances ==>
          s.inputs[i].previous == s.inputs[j].previous ==> i == j)
  }

  lemma {:induction false} KeptSpendersSeeAll(s: Store, chunks: seq<set<TxId>>)
    requires KeptInRun(s, chunks)
    ensures Seen(s, chunks) == SpentBy(s, Union(chunks))
  {
    if chunks != [] {
      var last := |chunks| - 1;
      assert forall n :: 0 <= n < last ==> chunks[..last][..n] == chunks[..n];
      KeptSpendersSeeAll(s, chunks[..last]);
      var before := Seen(s, chunks[..last]);
      assert Spends(s.inputs, chunks[last] * StillAccepted(s, before)) == Spends(s.inputs, chunks[last] * s.acceptances.Keys);
    }
  }

  lemma OnePassIffKeptInRun(s: Store, chunks: seq<set<TxId>>)
    requires Disjoint(chunks) && ConsistentSpends(s)
    ensures PruneChunks(s, chunks) == PruneChunk(s, Union(chunks)) <==> KeptInRun(s, chunks)
  {
    ClosedForm(s, chunks);
    UnionCovers(chunks);
    if KeptInRun(s, chunks) {
      KeptSpendersSeeAll(s, chunks);
    } else {
      var n, i :| 0 <= n < |chunks| && i in s.inputs && i.tx in chunks[n] && i.tx in s.acceptances
        && i.tx !in StillAccepted(s, Seen(s, chunks[..n]));
      var o := s.inputs[i].previous;
      if o in Seen(s, chunks) {
        var m, j := SeenHasSpender(s, chunks, o);
        assert false;
      }
      assert o in SpentBy(s, Union(chunks));
      assert o in PruneChunks(s, chunks).outputs && o !in PruneChunk(s, Union(chunks)).outputs;
    }
  }

  /**
   * No accepted spender has all its stored outputs spent by accepted transactions of earlier chunks. This asks only for the
   * tables before the run and the order of the chunks.
   */
  predicate SpendersKept(s: Store, chunks: seq<set<TxId>>) {
    forall n, i :: 0 <= n < |chunks| && i in s.inputs && i.tx in chunks[n] && i.tx in s.acceptances ==>
      var spent := SpentBy(s, Union(chunks[..n])); i.tx !in FullySpent(WithoutOutputs(s.outputs, spent), spent)
  }

  lemma PrefixKept(s: Store, chunks: seq<set<TxId>>)
    requires chunks != []
    ensures KeptInRun(s, chunks) ==> KeptInRun(s, chunks[..|chunks| - 1])
    ensures SpendersKept(s, chunks) ==> SpendersKept(s, chunks[..|chunks| - 1])
  {
    var last := |chunks| - 1;
    assert forall n :: 0 <= n < last ==> chunks[..last][..n] == chunks[..n];
  }

  /** Both say the same: while no spender was lost, the chunks have seen everything that was spent. */
  lemma {:induction false} KeptInRunIff(s: Store, chunks: seq<set<TxId>>)
    ensures KeptInRun(s, chunks) <==> SpendersKept(s, chunks)
  {
    if chunks != [] {
      var last := |chunks| - 1;
      KeptInRunIff(s, chunks[..last]);
      PrefixKept(s, chunks);
      if KeptInRun(s, chunks[..last]) {
        LastChunkKept(s, chunks);
      }
    }
  }

  lemma LastChunkKept(s: Store, chunks: seq<set<TxId>>)
    requires chunks != [] && KeptInRun(s, chunks[..|chunks| - 1]) && SpendersKept(s, chunks[..|chunks| - 1])
    ensures KeptInRun(s, chunks) <==> SpendersKept(s, chunks)
  {
    var last := |chunks| - 1;
    assert forall n :: 0 <= n < last ==> chunks[..last][..n] == chunks[..n];
    KeptSpendersSeeAll(s, chunks[..last]);
  }

  /** Chunking equals one pass if and only if no accepted spender loses its stored outputs to earlier chunks. */
  lemma OnePassExactlyWhenSpendersKept(s: Store, chunks: seq<set<TxId>>)
    requires Disjoint(chunks) && ConsistentSpends(s)
    ensures PruneChunks(s, chunks) == PruneChunk(s, Union(chunks)) <==> SpendersKept(s, chunks)
  {
    OnePassIffKeptInRun(s, chunks);
    KeptInRunIff(s, chunks);
  }

  /** Transaction 1 is spent by 2, and 2 by 3; all three are accepted and expired. */
  function ThreeInARow(): Store {
    var row := Output(Some(5), None, None);
    Store(map[1 := Some(0), 2 := Some(0), 3 := Some(0)],
          map[InputId(2, 0) := Input(Outpoint(1, 0), None, None), InputId(3, 0) := Input(Outpoint(2, 0), None, None)],
          map[Outpoint(1, 0) := row, Outpoint(2, 0) := row, Outpoint(3, 0) := row],
          map[1 := Some(7), 2 := Some(8), 3 := Some(9)])
  }

  /** With the last spender pruned first, the one in the middle loses its acceptance row before its own chunk. */
  lemma LastSpenderFirst()
    ensures 2 !in StillAccepted(ThreeInARow(), Seen(ThreeInARow(), [{3}]))
  {
  }

  lemma RowIsConsistent()
    ensures ConsistentSpends(ThreeInARow())
  {
  }

  /** Then the output that transaction 2 spends stays behind: chunk order matters. */
  lemma SpentOutputCanStayBehind()
    ensures Disjoint([{3}, {2}, {1}])
    ensures PruneChunks(ThreeInARow(), [{3}, {2}, {1}]) != PruneChunk(ThreeInARow(), Union([{3}, {2}, {1}]))
  {
    var s := ThreeInARow();
    var chunks: seq<set<TxId>> := [{3}, {2}, {1}];
    LastSpenderFirst();
    RowIsConsistent();
    assert chunks[..1] == [{3}];
    StaleSpender(s, chunks, 1, InputId(2, 0));
  }

  lemma StaleSpender(s: Store, chunks: seq<set<TxId>>, n: nat, i: InputId)
    requires Disjoint(chunks) && ConsistentSpends(s)
    requires n < |chunks| && i in s.inputs && i.tx in chunks[n] && i.tx in s.acceptances
    requires i.tx !in StillAccepted(s, Seen(s, chunks[..n]))
    ensures PruneChunks(s, chunks) != PruneChunk(s, Union(chunks))
  {
    OnePassIffKeptInRun(s, chunks);
  }
}
