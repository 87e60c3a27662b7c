/** The reference ledger: the UTXO set that replaying the accepted transactions in order leaves. */
module Chain {
  import opened Database
  import opened Sums
  import opened Windows

  datatype Body = Body(inputs: seq<Outpoint>, outputs: seq<Output>)

  /** A transaction and the chain block that accepts it. */
  datatype Accepted = Accepted(tx: TxId, block: Hash)

  /**
   * What the node fixes: the content of a transaction by its id, the blue score of a block by its hash, the UTXO set
   * that the import started from, and the transactions accepted before it.
   */
  datatype World = World(body: TxId -> Body, blue: Hash -> int, base: map<Outpoint, Output>, ancient: set<TxId>)
  {
    ghost predicate Genuine(o: Outpoint, row: Output) {
      0 <= o.index < |body(o.tx).outputs| && row == body(o.tx).outputs[o.index]
    }

    /** The import is an UTXO set: its entries are outputs of accepted transactions, and none of those spends another one. */
    ghost predicate WellFormed() {
      && (forall o :: o in base ==> Genuine(o, base[o]) && o.tx in ancient)
      && (forall t, p :: t in ancient && p in body(t).inputs ==> p !in base)
    }
  }

  function Ids(txs: seq<Accepted>): set<TxId> {
    set e | e in txs :: e.tx
  }

  ghost function OutputsOf(w: World, t: TxId): map<Outpoint, Output> {
    map k | 0 <= k < |w.body(t).outputs| :: Outpoint(t, k) := w.body(t).outputs[k]
  }

  ghost function InputsOf(w: World, t: TxId): set<Outpoint> {
    set p | p in w.body(t).inputs
  }

  /** The UTXO set after the transactions, in order. */
  ghost function Replay(w: World, txs: seq<Accepted>): map<Outpoint, Output> {
    if txs == [] then w.base else
      var t := txs[|txs| - 1].tx;
      (Replay(w, txs[..|txs| - 1]) - InputsOf(w, t)) + OutputsOf(w, t)
  }

  predicate NoDuplicates(s: seq<Outpoint>) {
    forall i, j :: 0 <= i < j < |s| ==> s[i] != s[j]
  }

  /** Consensus: each transaction is new and spends distinct outputs that are unspent at its turn. */
  ghost predicate Valid(w: World, txs: seq<Accepted>) {
    txs == [] ||
      var before, t := txs[..|txs| - 1], txs[|txs| - 1].tx;
      && Valid(w, before)
      && t !in Ids(before) && t !in w.ancient
      && (forall x, p :: x in w.ancient && p in w.body(x).inputs ==> p.tx != t)
      && NoDuplicates(w.body(t).inputs)
      && (forall p :: p in w.body(t).inputs ==> p in Replay(w, before))
  }

  ghost function PaidTo(u: map<Outpoint, Output>, a: Address): map<Outpoint, int> {
    map o | o in u && Pays(u[o], a) :: Amount(u[o])
  }

  /** The balance of a in a UTXO set. */
  ghost function UtxoSum(u: map<Outpoint, Output>, a: Address): int {
    Sum(PaidTo(u, a))
  }

  // ---- Replay in closed form ----

  ghost function AllOutputs(w: World, txs: seq<Accepted>): map<Outpoint, Output> {
    if txs == [] then map[] else AllOutputs(w, txs[..|txs| - 1]) + OutputsOf(w, txs[|txs| - 1].tx)
  }

  ghost function AllInputs(w: World, txs: seq<Accepted>): set<Outpoint> {
    if txs == [] then {} else AllInputs(w, txs[..|txs| - 1]) + InputsOf(w, txs[|txs| - 1].tx)
  }

  lemma IdsSplit(a: seq<Accepted>, b: seq<Accepted>)
    ensures Ids(a + b) == Ids(a) + Ids(b)
  {
  }

  lemma {:induction false} AllOutputsAre(w: World, txs: seq<Accepted>)
    ensures forall o :: o in AllOutputs(w, txs) <==> o.tx in Ids(txs) && 0 <= o.index < |w.body(o.tx).outputs|
    ensures forall o :: o in AllOutputs(w, txs) ==> w.Genuine(o, AllOutputs(w, txs)[o])
  {
    if txs != [] {
      var last := |txs| - 1;
      AllOutputsAre(w, txs[..last]);
      IdsSplit(txs[..last], [txs[last]]);
      assert txs == txs[..last] + [txs[last]];
      assert Ids([txs[last]]) == {txs[last].tx};
      var t := txs[last].tx;
      forall o ensures o in OutputsOf(w, t) <==> o.tx == t && 0 <= o.index < |w.body(t).outputs| {
        assert o.tx == t ==> o == Outpoint(t, o.index);
      }
    }
  }

  lemma {:induction false} AllInputsAre(w: World, txs: seq<Accepted>)
    ensures forall p :: p in AllInputs(w, txs) <==> exists e :: e in txs && p in w.body(e.tx).inputs
  {
    if txs != [] {
      var last := |txs| - 1;
      AllInputsAre(w, txs[..last]);
      assert forall e :: e in txs <==> e in txs[..last] || e == txs[last];
    }
  }

  /** Outpoints that were ever unspent belong to the imported set or to a replayed transaction. */
  lemma {:induction false} OwnersAreKnown(w: World, txs: seq<Accepted>)
    requires w.WellFormed()
    ensures forall o :: o in Replay(w, txs) ==> (o.tx in w.ancient || o.tx in Ids(txs)) && w.Genuine(o, Replay(w, txs)[o])
  {
    if txs != [] {
      var last := |txs| - 1;
      OwnersAreKnown(w, txs[..last]);
      assert txs == txs[..last] + [txs[last]];
      IdsSplit(txs[..last], [txs[last]]);
      assert txs[last].tx in Ids([txs[last]]);
    }
  }

  lemma {:induction false} ValidParts(w: World, a: seq<Accepted>, b: seq<Accepted>)
    requires Valid(w, a + b)
    ensures Valid(w, a) && Ids(a) !! Ids(b) && Ids(a + b) !! w.ancient
  {
    if b == [] {
      assert a + b == a;
      ValidIds(w, a);
    } else {
      var last := |b| - 1;
      assert (a + b)[..|a + b| - 1] == a + b[..last];
      ValidParts(w, a, b[..last]);
      assert b == b[..last] + [b[last]];
      IdsOfNext(a, b[..last], b[last]);
    }
  }

  lemma IdsOfNext(a: seq<Accepted>, b: seq<Accepted>, e: Accepted)
    ensures Ids(b + [e]) == Ids(b) + {e.tx} && Ids(a + (b + [e])) == Ids(a + b) + {e.tx}
    ensures Ids(a + b) == Ids(a) + Ids(b)
  {
    IdsSplit(a, b);
    IdsSplit(a, b + [e]);
    IdsSplit(b, [e]);
    assert Ids([e]) == {e.tx};
  }

  lemma {:induction false} ValidIds(w: World, txs: seq<Accepted>)
    requires Valid(w, txs)
    ensures Ids(txs) !! w.ancient
  {
    if txs != [] {
      var last := |txs| - 1;
      ValidIds(w, txs[..last]);
      IdsSplit(txs[..last], [txs[last]]);
      assert txs == txs[..last] + [txs[last]];
      assert Ids([txs[last]]) == {txs[last].tx};
    }
  }

  /** after is what u and the created outputs leave once the spent ones are gone. */
  ghost predicate Accounted(u: map<Outpoint, Output>, created: map<Outpoint, Output>, spent: set<Outpoint>, after: map<Outpoint, Output>) {
    u.Keys !! created.Keys && spent <= (u + created).Keys && after == (u + created) - spent
  }

  lemma AccountedNext(u: map<Outpoint, Output>, created: map<Outpoint, Output>, spent: set<Outpoint>, after: map<Outpoint, Output>,
                      inputs: set<Outpoint>, outputs: map<Outpoint, Output>)
    requires Accounted(u, created, spent, after)
    requires inputs <= after.Keys && outputs.Keys !! (u + created).Keys
    ensures Accounted(u, created + outputs, spent + inputs, (after - inputs) + outputs)
  {
  }

  /** Nothing spent comes back, so replaying is: take everything ever created, take away everything ever spent. */
  lemma {:induction false} ReplayMore(w: World, a: seq<Accepted>, b: seq<Accepted>)
    requires w.WellFormed() && Valid(w, a + b)
    ensures Accounted(Replay(w, a), AllOutputs(w, b), AllInputs(w, b), Replay(w, a + b))
  {
    if b == [] {
      assert a + b == a;
    } else {
      var before, e := b[..|b| - 1], b[|b| - 1];
      assert a + b == (a + before) + [e];
      ReplayNext(w, a + before, e);
      ReplayMore(w, a, before);
      NewOwner(w, a, before, e.tx);
      AccountedNext(Replay(w, a), AllOutputs(w, before), AllInputs(w, before), Replay(w, a + before),
                    InputsOf(w, e.tx), OutputsOf(w, e.tx));
    }
  }

  lemma ReplayNext(w: World, txs: seq<Accepted>, e: Accepted)
    requires Valid(w, txs + [e])
    ensures Valid(w, txs) && e.tx !in Ids(txs) && e.tx !in w.ancient && InputsOf(w, e.tx) <= Replay(w, txs).Keys
    ensures Replay(w, txs + [e]) == (Replay(w, txs) - InputsOf(w, e.tx)) + OutputsOf(w, e.tx)
  {
  }

  /** The outputs of a new transaction are nothing that exists or existed. */
  lemma NewOwner(w: World, a: seq<Accepted>, b: seq<Accepted>, t: TxId)
    requires w.WellFormed() && t !in Ids(a + b) && t !in w.ancient
    ensures OutputsOf(w, t).Keys !! (Replay(w, a) + AllOutputs(w, b)).Keys
  {
  }

  /** What a replayed transaction spent is unspent no longer, and belongs to no later transaction. */
  lemma SpentIsGone(w: World, a: seq<Accepted>, b: seq<Accepted>, e: Accepted, p: Outpoint)
    requires w.WellFormed() && Valid(w, a + b) && e in a && p in w.body(e.tx).inputs
    ensures p !in Replay(w, a) && p.tx !in Ids(b)
  {
    ValidParts(w, a, b);
    assert [] + a == a;
    ReplayMore(w, [], a);
    AllInputsAre(w, a);
    AllOutputsAre(w, a);
    IdsSplit(a, b);
    assert p in AllInputs(w, a);
    assert Replay(w, []) == w.base;
  }

  /** No outpoint is spent twice along the chain. */
  lemma {:induction false} InputsAreUnique(w: World, txs: seq<Accepted>)
    requires w.WellFormed() && Valid(w, txs)
    ensures forall e, e', k, l :: e in txs && e' in txs && 0 <= k < |w.body(e.tx).inputs| && 0 <= l < |w.body(e'.tx).inputs| ==>
      w.body(e.tx).inputs[k] == w.body(e'.tx).inputs[l] ==> e.tx == e'.tx && k == l
  {
    if txs != [] {
      var last := |txs| - 1;
      var before, latest := txs[..last], txs[last];
      InputsAreUnique(w, before);
      assert before + [] == before;
      forall e, k, l | e in before && 0 <= k < |w.body(e.tx).inputs| && 0 <= l < |w.body(latest.tx).inputs|
        ensures w.body(e.tx).inputs[k] != w.body(latest.tx).inputs[l]
      {
        SpentIsGone(w, before, [], e, w.body(e.tx).inputs[k]);
        assert w.body(latest.tx).inputs[l] in Replay(w, before);
      }
      assert forall e :: e in txs <==> e in before || e == latest;
    }
  }

  lemma SumOfBoth(u: map<Outpoint, Output>, v: map<Outpoint, Output>, a: Address)
    requires u.Keys !! v.Keys
    ensures UtxoSum(u + v, a) == UtxoSum(u, a) + UtxoSum(v, a)
  {
    SumSplit(PaidTo(u + v, a), PaidTo(u, a), PaidTo(v, a));
  }

  function Only(u: map<Outpoint, Output>, ks: set<Outpoint>): map<Outpoint, Output> {
    map o | o in ks && o in u :: u[o]
  }

  lemma SumWithout(u: map<Outpoint, Output>, ks: set<Outpoint>, a: Address)
    ensures UtxoSum(u - ks, a) == UtxoSum(u, a) - UtxoSum(Only(u, ks), a)
  {
    SumSplit(PaidTo(u, a), PaidTo(u - ks, a), PaidTo(Only(u, ks), a));
  }

  /** Replaying b moves the balance of an address by what b created and what b spent. */
  lemma ReplayMovesBalance(w: World, a: seq<Accepted>, b: seq<Accepted>, address: Address)
    requires w.WellFormed() && Valid(w, a + b)
    ensures UtxoSum(Replay(w, a + b), address) == UtxoSum(Replay(w, a), address) + UtxoSum(AllOutputs(w, b), address)
      - UtxoSum(Only(Replay(w, a) + AllOutputs(w, b), AllInputs(w, b)), address)
  {
    ReplayMore(w, a, b);
    SumOfBoth(Replay(w, a), AllOutputs(w, b), address);
    SumWithout(Replay(w, a) + AllOutputs(w, b), AllInputs(w, b), address);
  }

  /** With non-negative amounts no balance is negative. */
  lemma UtxoSumIsNonNegative(u: map<Outpoint, Output>, a: Address)
    requires forall o :: o in u ==> 0 <= Amount(u[o])
    ensures 0 <= UtxoSum(u, a)
  {
    SumNonNegative(PaidTo(u, a), PaidTo(u, a).Keys);
  }
}
