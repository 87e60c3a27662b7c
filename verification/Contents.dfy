/** What a committed batch of transactions leaves in the tables, and the address index as a view over them. */
module Contents {
  import opened Database
  import opened Chain
  import opened InputResolution

  /** The tables of the transaction processor; block times are left out. */
  datatype Content = Content(txs: set<TxId>, inputs: map<InputId, Input>, outputs: map<Outpoint, Output>, blockTxs: set<(Hash, TxId)>)

  predicate IsInput(body: TxId -> Body, i: InputId) {
    0 <= i.index < |body(i.tx).inputs|
  }

  predicate IsOutput(body: TxId -> Body, o: Outpoint) {
    0 <= o.index < |body(o.tx).outputs|
  }

  /** Every row belongs to the transaction that it names. */
  ghost predicate Genuine(body: TxId -> Body, c: Content) {
    && (forall i :: i in c.inputs ==> IsInput(body, i) && c.inputs[i].previous == body(i.tx).inputs[i.index])
    && (forall o :: o in c.outputs ==> IsOutput(body, o) && c.outputs[o] == body(o.tx).outputs[o.index])
  }

  ghost predicate Complete(body: TxId -> Body, c: Content, t: TxId) {
    && t in c.txs
    && (forall i: InputId :: i.tx == t && IsInput(body, i) ==> i in c.inputs)
    && (forall o: Outpoint :: o.tx == t && IsOutput(body, o) ==> o in c.outputs)
  }

  function TxsOf(blockTx: set<(Hash, TxId)>): set<TxId> {
    set bt | bt in blockTx :: bt.1
  }

  function BlockRows(b: Hash, ids: set<TxId>): set<(Hash, TxId)> {
    set t | t in ids :: (b, t)
  }

  /** The relations of blocks to their transactions. */
  function BlockRelations(contents: Hash -> set<TxId>, blocks: seq<Hash>): set<(Hash, TxId)> {
    if blocks == [] then {} else
      var last := blocks[|blocks| - 1];
      BlockRelations(contents, blocks[..|blocks| - 1]) + BlockRows(last, contents(last))
  }

  lemma {:induction false} BlockRelationsAre(contents: Hash -> set<TxId>, blocks: seq<Hash>)
    ensures forall b, t :: (b, t) in BlockRelations(contents, blocks) <==> b in blocks && t in contents(b)
    ensures forall t :: t in TxsOf(BlockRelations(contents, blocks)) <==> exists b :: b in blocks && t in contents(b)
  {
    if blocks != [] {
      var last := |blocks| - 1;
      BlockRelationsAre(contents, blocks[..last]);
      assert blocks == blocks[..last] + [blocks[last]];
    }
    forall t | exists b :: b in blocks && t in contents(b) ensures t in TxsOf(BlockRelations(contents, blocks)) {
      var b :| b in blocks && t in contents(b);
      assert (b, t) in BlockRelations(contents, blocks);
    }
  }

  /** What is stored for an input that spends p, once the outputs are known. */
  function StoredInput(resolve: bool, p: Outpoint, known: map<Outpoint, Output>): Input {
    if resolve then Lookup(p, known) else Input(p, None, None)
  }

  /** The outputs of the transactions in stored are in the table, and what was there before stays as it is. */
  ghost predicate HasOutputs(body: TxId -> Body, before: map<Outpoint, Output>, stored: set<TxId>, after: map<Outpoint, Output>) {
    && (forall o :: o in after <==> o in before || (o.tx in stored && IsOutput(body, o)))
    && (forall o :: o in before ==> after[o] == before[o])
    && (forall o :: o in after && o !in before ==> after[o] == body(o.tx).outputs[o.index])
  }

  /** The same for inputs, resolved against the known outputs. */
  ghost predicate HasInputs(body: TxId -> Body, resolve: bool, before: map<InputId, Input>, stored: set<TxId>,
                            known: map<Outpoint, Output>, after: map<InputId, Input>) {
    && (forall i :: i in after <==> i in before || (i.tx in stored && IsInput(body, i)))
    && (forall i :: i in before ==> after[i] == before[i])
    && (forall i :: i in after && i !in before ==> after[i] == StoredInput(resolve, body(i.tx).inputs[i.index], known))
  }

  /**
   * The reference for a batch: all rows of the transactions in stored are stored, rows that were stored before stay as they
   * are, and nothing else changes. It does not say which of the transactions the cache recognised.
   */
  ghost predicate BatchStored(body: TxId -> Body, resolve: bool, c: Content, stored: set<TxId>, batch: set<(Hash, TxId)>, c': Content) {
    && c'.txs == c.txs + stored
    && c'.blockTxs == c.blockTxs + batch
    && HasOutputs(body, c.outputs, stored, c'.outputs)
    && HasInputs(body, resolve, c.inputs, stored, c'.outputs, c'.inputs)
  }

  /**
   * The reference row by row: new inputs and outputs are those of the stored transactions, and with resolving a new input
   * carries the script and amount of the output that it spends, if that is in the table afterwards.
   */
  lemma BatchRows(body: TxId -> Body, resolve: bool, c: Content, stored: set<TxId>, batch: set<(Hash, TxId)>, c': Content)
    requires BatchStored(body, resolve, c, stored, batch, c')
    ensures forall o :: o in c'.outputs && o !in c.outputs ==>
      o.tx in stored && 0 <= o.index < |body(o.tx).outputs| && c'.outputs[o] == body(o.tx).outputs[o.index]
    ensures forall i :: i in c'.inputs && i !in c.inputs ==>
      i.tx in stored && 0 <= i.index < |body(i.tx).inputs| && c'.inputs[i].previous == body(i.tx).inputs[i.index]
    ensures forall i :: i in c'.inputs && i !in c.inputs && resolve && c'.inputs[i].previous in c'.outputs ==>
      var o := c'.outputs[c'.inputs[i].previous]; c'.inputs[i].script == o.script && c'.inputs[i].amount == o.amount
    ensures forall i :: i in c'.inputs && i !in c.inputs && (!resolve || c'.inputs[i].previous !in c'.outputs) ==>
      c'.inputs[i].script == None && c'.inputs[i].amount == None
    ensures forall t, k :: t in stored && 0 <= k < |body(t).outputs| ==> Outpoint(t, k) in c'.outputs
    ensures forall t, k :: t in stored && 0 <= k < |body(t).inputs| ==> InputId(t, k) in c'.inputs
    ensures c'.txs == c.txs + stored && c'.blockTxs == c.blockTxs + batch
    ensures (forall o :: o in c.outputs ==> o in c'.outputs && c'.outputs[o] == c.outputs[o])
         && (forall i :: i in c.inputs ==> i in c'.inputs && c'.inputs[i] == c.inputs[i])
  {
    forall t, k | t in stored && 0 <= k < |body(t).outputs| ensures Outpoint(t, k) in c'.outputs {
      assert IsOutput(body, Outpoint(t, k));
    }
    forall t, k | t in stored && 0 <= k < |body(t).inputs| ensures InputId(t, k) in c'.inputs {
      assert IsInput(body, InputId(t, k));
    }
  }

  /** The reference leaves one result. */
  lemma BatchStoredIsUnique(body: TxId -> Body, resolve: bool, c: Content, stored: set<TxId>, batch: set<(Hash, TxId)>, a: Content, b: Content)
    requires BatchStored(body, resolve, c, stored, batch, a) && BatchStored(body, resolve, c, stored, batch, b)
    ensures a == b
  {
    SameOutputs(body, c.outputs, stored, a.outputs, b.outputs);
    SameInputs(body, resolve, c.inputs, stored, a.outputs, a.inputs, b.inputs);
  }

  lemma SameOutputs(body: TxId -> Body, before: map<Outpoint, Output>, stored: set<TxId>, a: map<Outpoint, Output>, b: map<Outpoint, Output>)
    requires HasOutputs(body, before, stored, a) && HasOutputs(body, before, stored, b)
    ensures a == b
  {
    assert a.Keys == b.Keys;
  }

  lemma SameInputs(body: TxId -> Body, resolve: bool, before: map<InputId, Input>, stored: set<TxId>, known: map<Outpoint, Output>,
                   a: map<InputId, Input>, b: map<InputId, Input>)
    requires HasInputs(body, resolve, before, stored, known, a) && HasInputs(body, resolve, before, stored, known, b)
    ensures a == b
  {
    assert a.Keys == b.Keys;
  }

  /** The rows that a pruning run takes away. */
  datatype Losses = Losses(txs: set<TxId>, inputs: set<InputId>, outputs: set<Outpoint>, blockTxs: set<(Hash, TxId)>)

  function Without(c: Content, l: Losses): Content {
    Content(c.txs - l.txs, c.inputs - l.inputs, c.outputs - l.outputs, c.blockTxs - l.blockTxs)
  }

  /** The transactions that lose a row. */
  ghost predicate Touches(l: Losses, gone: set<TxId>) {
    && l.txs <= gone
    && (forall i :: i in l.inputs ==> i.tx in gone)
    && (forall o :: o in l.outputs ==> o.tx in gone)
    && (forall bt :: bt in l.blockTxs ==> bt.1 in gone)
  }

  /** The transactions that are in the first set alone have all their rows in the tables already. */
  ghost predicate StillComplete(body: TxId -> Body, c: Content, stored: set<TxId>, stored': set<TxId>) {
    forall t :: t in stored && t !in stored' ==> Complete(body, c, t)
  }

  lemma LeftOutWasComplete(body: TxId -> Body, resolve: bool, c: Content, stored: set<TxId>, stored': set<TxId>, batch: set<(Hash, TxId)>,
                           a: Content, t: TxId)
    requires BatchStored(body, resolve, c, stored, batch, a) && BatchStored(body, resolve, c, stored', batch, a)
    requires t in stored && t !in stored'
    ensures Complete(body, c, t)
  {
    assert forall i: InputId :: i.tx == t && IsInput(body, i) ==> i in a.inputs;
    assert forall o: Outpoint :: o.tx == t && IsOutput(body, o) ==> o in a.outputs;
  }

  lemma MoreOutputs(body: TxId -> Body, c: Content, stored: set<TxId>, stored': set<TxId>, outputs: map<Outpoint, Output>)
    requires StillComplete(body, c, stored', stored) && StillComplete(body, c, stored, stored') && HasOutputs(body, c.outputs, stored, outputs)
    ensures HasOutputs(body, c.outputs, stored', outputs)
  {
  }

  lemma MoreInputs(body: TxId -> Body, resolve: bool, c: Content, stored: set<TxId>, stored': set<TxId>, known: map<Outpoint, Output>,
                   inputs: map<InputId, Input>)
    requires StillComplete(body, c, stored', stored) && StillComplete(body, c, stored, stored')
    requires HasInputs(body, resolve, c.inputs, stored, known, inputs)
    ensures HasInputs(body, resolve, c.inputs, stored', known, inputs)
  {
  }

  /**
   * Two caches that recognise different transactions of a batch leave the same tables if and only if the transactions that
   * one of them recognised alone are still complete in the tables before.
   */
  lemma CacheIsInvisibleIff(body: TxId -> Body, resolve: bool, c: Content, stored: set<TxId>, stored': set<TxId>, batch: set<(Hash, TxId)>,
                            a: Content, b: Content)
    requires BatchStored(body, resolve, c, stored, batch, a) && BatchStored(body, resolve, c, stored', batch, b)
    ensures a == b <==> StillComplete(body, c, stored, stored') && StillComplete(body, c, stored', stored)
  {
    if a == b {
      forall t | t in stored && t !in stored' ensures Complete(body, c, t) {
        LeftOutWasComplete(body, resolve, c, stored, stored', batch, a, t);
      }
      forall t | t in stored' && t !in stored ensures Complete(body, c, t) {
        LeftOutWasComplete(body, resolve, c, stored', stored, batch, a, t);
      }
    }
    if StillComplete(body, c, stored, stored') && StillComplete(body, c, stored', stored) {
      assert c.txs + stored == c.txs + stored';
      MoreOutputs(body, c, stored, stored', a.outputs);
      MoreInputs(body, resolve, c, stored, stored', a.outputs, a.inputs);
      BatchStoredIsUnique(body, resolve, c, stored', batch, a, b);
    }
  }

  // ---- What caches did, over runs ----

  /** A batch of which the transactions in stored are stored completely afterwards, or a pruning run. */
  datatype Event = Batch(stored: set<TxId>, batch: set<(Hash, TxId)>) | Prune(losses: Losses)

  ghost predicate Happens(body: TxId -> Body, resolve: bool, c: Content, e: Event, c': Content) {
    match e
    case Batch(stored, batch) => BatchStored(body, resolve, c, stored, batch, c')
    case Prune(losses) => c' == Without(c, losses)
  }

  ghost predicate Runs(body: TxId -> Body, resolve: bool, cs: seq<Content>, events: seq<Event>) {
    |cs| == |events| + 1 && forall k :: 0 <= k < |events| ==> Happens(body, resolve, cs[k], events[k], cs[k + 1])
  }

  /** The same batches and prunings, whatever the caches recognised. */
  predicate SameSchedule(es: seq<Event>, es': seq<Event>) {
    |es| == |es'| && forall k :: 0 <= k < |es| ==>
      if es[k].Batch? then es'[k].Batch? && es'[k].batch == es[k].batch else es'[k] == es[k]
  }

  /** The losses leave all rows of the transaction. */
  ghost predicate Spares(body: TxId -> Body, l: Losses, t: TxId) {
    && t !in l.txs
    && (forall i :: i in l.inputs && i.tx == t ==> !IsInput(body, i))
    && (forall o :: o in l.outputs && o.tx == t ==> !IsOutput(body, o))
  }

  /** By the schedule alone: the transaction was complete at the start or stored later, and spared by every pruning since. */
  ghost predicate KeptSince(body: TxId -> Body, c: Content, events: seq<Event>, k: nat, t: TxId)
    requires k <= |events|
  {
    if k == 0 then Complete(body, c, t) else
      match events[k - 1]
      case Batch(stored, _) => t in stored || KeptSince(body, c, events, k - 1, t)
      case Prune(losses) => Spares(body, losses, t) && KeptSince(body, c, events, k - 1, t)
  }

  lemma CompleteAfter(body: TxId -> Body, resolve: bool, c: Content, e: Event, c': Content, t: TxId)
    requires Happens(body, resolve, c, e, c')
    ensures Complete(body, c', t) <==>
      match e
      case Batch(stored, _) => t in stored || Complete(body, c, t)
      case Prune(losses) => Spares(body, losses, t) && Complete(body, c, t)
  {
  }

  lemma {:induction false} KeptIsComplete(body: TxId -> Body, resolve: bool, cs: seq<Content>, events: seq<Event>, k: nat, t: TxId)
    requires Runs(body, resolve, cs, events) && k < |cs|
    ensures Complete(body, cs[k], t) <==> KeptSince(body, cs[0], events, k, t)
    decreases k
  {
    if k > 0 {
      KeptIsComplete(body, resolve, cs, events, k - 1, t);
      CompleteAfter(body, resolve, cs[k - 1], events[k - 1], cs[k], t);
    }
  }

  /** What the caches treated differently at the k-th event had been kept until then. */
  ghost predicate DifferenceKept(body: TxId -> Body, c: Content, es: seq<Event>, es': seq<Event>, k: nat)
    requires SameSchedule(es, es') && k < |es|
  {
    es[k].Batch? ==> forall t :: (t in es[k].stored) != (t in es'[k].stored) ==> KeptSince(body, c, es, k, t)
  }

  lemma EventAgrees(body: TxId -> Body, resolve: bool, cs: seq<Content>, es: seq<Event>, cs': seq<Content>, es': seq<Event>, k: nat)
    requires Runs(body, resolve, cs, es) && Runs(body, resolve, cs', es') && SameSchedule(es, es') && k < |es| && cs[k] == cs'[k]
    ensures cs[k + 1] == cs'[k + 1] <==> DifferenceKept(body, cs[0], es, es', k)
  {
    assert Happens(body, resolve, cs[k], es[k], cs[k + 1]) && Happens(body, resolve, cs'[k], es'[k], cs'[k + 1]);
    if es[k].Batch? {
      CacheIsInvisibleIff(body, resolve, cs[k], es[k].stored, es'[k].stored, es[k].batch, cs[k + 1], cs'[k + 1]);
      forall t ensures Complete(body, cs[k], t) <==> KeptSince(body, cs[0], es, k, t) {
        KeptIsComplete(body, resolve, cs, es, k, t);
      }
    }
  }

  lemma {:induction false} AgreeUpTo(body: TxId -> Body, resolve: bool, cs: seq<Content>, es: seq<Event>, cs': seq<Content>, es': seq<Event>, n: nat)
    requires Runs(body, resolve, cs, es) && Runs(body, resolve, cs', es') && SameSchedule(es, es') && cs[0] == cs'[0] && n < |cs|
    requires forall k :: 0 <= k < |es| ==> DifferenceKept(body, cs[0], es, es', k)
    ensures cs[n] == cs'[n]
    decreases n
  {
    if n > 0 {
      AgreeUpTo(body, resolve, cs, es, cs', es', n - 1);
      EventAgrees(body, resolve, cs, es, cs', es', n - 1);
    }
  }

  /**
   * Two runs over the same batches and prunings leave the same tables after each event, if and only if every transaction that
   * the caches treated differently had been stored before and spared by every pruning since.
   */
  lemma EvictionIsInvisibleIff(body: TxId -> Body, resolve: bool, cs: seq<Content>, es: seq<Event>, cs': seq<Content>, es': seq<Event>)
    requires Runs(body, resolve, cs, es) && Runs(body, resolve, cs', es') && SameSchedule(es, es') && cs[0] == cs'[0]
    ensures cs == cs' <==> forall k :: 0 <= k < |es| ==> DifferenceKept(body, cs[0], es, es', k)
  {
    if cs == cs' {
      forall k | 0 <= k < |es| ensures DifferenceKept(body, cs[0], es, es', k) {
        EventAgrees(body, resolve, cs, es, cs', es', k);
      }
    }
    if forall k :: 0 <= k < |es| ==> DifferenceKept(body, cs[0], es, es', k) {
      forall n | 0 <= n < |cs| ensures cs[n] == cs'[n] {
        AgreeUpTo(body, resolve, cs, es, cs', es', n);
      }
    }
  }

  // ---- What batches and prunings keep ----

  lemma BatchKeepsGenuine(body: TxId -> Body, resolve: bool, c: Content, stored: set<TxId>, batch: set<(Hash, TxId)>, c': Content)
    requires Genuine(body, c) && BatchStored(body, resolve, c, stored, batch, c')
    ensures Genuine(body, c')
  {
  }

  lemma BatchCompletes(body: TxId -> Body, resolve: bool, c: Content, stored: set<TxId>, batch: set<(Hash, TxId)>, c': Content, t: TxId)
    requires BatchStored(body, resolve, c, stored, batch, c')
    requires Complete(body, c, t) || t in stored
    ensures Complete(body, c', t)
  {
  }

  lemma PruneKeepsGenuine(body: TxId -> Body, c: Content, l: Losses)
    requires Genuine(body, c)
    ensures Genuine(body, Without(c, l))
  {
  }

  lemma UntouchedStaysComplete(body: TxId -> Body, c: Content, l: Losses, gone: set<TxId>, t: TxId)
    requires Touches(l, gone) && t !in gone && Complete(body, c, t)
    ensures Complete(body, Without(c, l), t)
  {
  }

  // ---- The address index ----

  ghost predicate PaysTo(body: TxId -> Body, t: TxId, a: Address) {
    exists k :: 0 <= k < |body(t).outputs| && body(t).outputs[k].address == Some(a)
  }

  predicate OwnedBy(body: TxId -> Body, p: Outpoint, a: Address) {
    IsOutput(body, p) && body(p.tx).outputs[p.index].address == Some(a)
  }

  /** The transaction spends one of the known outputs of the address. */
  ghost predicate SpendsFrom(body: TxId -> Body, known: set<Outpoint>, t: TxId, a: Address) {
    exists p :: p in body(t).inputs && p in known && OwnedBy(body, p, a)
  }

  /** The join: a stored input of t spends a stored output of a. */
  ghost predicate SpendsOf(c: Content, t: TxId, a: Address) {
    exists i :: i in c.inputs && i.tx == t && c.inputs[i].previous in c.outputs && c.outputs[c.inputs[i].previous].address == Some(a)
  }

  lemma JoinIsSpends(body: TxId -> Body, c: Content, t: TxId, a: Address)
    requires Genuine(body, c) && Complete(body, c, t)
    ensures SpendsOf(c, t, a) <==> SpendsFrom(body, c.outputs.Keys, t, a)
  {
    if i :| i in c.inputs && i.tx == t && c.inputs[i].previous in c.outputs && c.outputs[c.inputs[i].previous].address == Some(a) {
      assert c.inputs[i].previous == body(t).inputs[i.index];
      assert OwnedBy(body, c.inputs[i].previous, a);
    }
    if p :| p in body(t).inputs && p in c.outputs.Keys && OwnedBy(body, p, a) {
      var k :| 0 <= k < |body(t).inputs| && body(t).inputs[k] == p;
      assert IsInput(body, InputId(t, k));
      assert c.inputs[InputId(t, k)].previous == p;
    }
  }

  /**
   * The index is the view: the addresses that a processed transaction pays to, and those whose outputs it spends, as far
   * as these are known: stored now, or stored once and pruned since.
   */
  ghost predicate IndexIsView(body: TxId -> Body, known: set<Outpoint>, processed: set<TxId>, index: set<(Address, TxId)>) {
    forall a: Address, t: TxId :: (a, t) in index <==> t in processed && (PaysTo(body, t, a) || SpendsFrom(body, known, t, a))
  }

  /** What a commit adds to the index for the transactions it inserts. */
  ghost predicate IndexGrows(body: TxId -> Body, c': Content, inserted: set<TxId>, index: set<(Address, TxId)>, index': set<(Address, TxId)>) {
    forall a: Address, t: TxId :: (a, t) in index' <==> (a, t) in index || (t in inserted && (PaysTo(body, t, a) || SpendsOf(c', t, a)))
  }

  /** The output is in the table, or comes with the batch. */
  ghost predicate Available(body: TxId -> Body, c: Content, stored: set<TxId>, p: Outpoint) {
    p in c.outputs || (p.tx in stored && IsOutput(body, p))
  }

  /** An earlier transaction spends an output that was never known and comes with this batch. */
  ghost predicate LatePair(body: TxId -> Body, known: set<Outpoint>, stored: set<TxId>, earlier: set<TxId>, a: Address, t: TxId) {
    t in earlier && exists p :: p in body(t).inputs && p !in known && p.tx in stored && OwnedBy(body, p, a)
  }

  /** A transaction of the batch spends an output of the address that was pruned, and is related to the address in no other way. */
  ghost predicate LostPair(body: TxId -> Body, c: Content, known: set<Outpoint>, stored: set<TxId>, inserted: set<TxId>, a: Address, t: TxId) {
    && t in inserted && !PaysTo(body, t, a) && SpendsFrom(body, known, t, a)
    && forall p :: p in body(t).inputs && OwnedBy(body, p, a) ==> !Available(body, c, stored, p)
  }

  lemma EarlierSpends(body: TxId -> Body, resolve: bool, c: Content, known: set<Outpoint>, stored: set<TxId>, batch: set<(Hash, TxId)>, c': Content,
                      earlier: set<TxId>, t: TxId, a: Address)
    requires BatchStored(body, resolve, c, stored, batch, c') && c.outputs.Keys <= known && t in earlier
    ensures SpendsFrom(body, known + c'.outputs.Keys, t, a) <==>
            SpendsFrom(body, known, t, a) || LatePair(body, known, stored, earlier, a, t)
  {
    if p :| p in body(t).inputs && p in known + c'.outputs.Keys && OwnedBy(body, p, a) {
      assert p in known || p.tx in stored;
    }
    if p :| p in body(t).inputs && p !in known && p.tx in stored && OwnedBy(body, p, a) {
      assert p in c'.outputs.Keys;
    }
  }

  lemma InsertedSpends(body: TxId -> Body, resolve: bool, c: Content, known: set<Outpoint>, stored: set<TxId>, batch: set<(Hash, TxId)>, c': Content,
                       inserted: set<TxId>, t: TxId, a: Address)
    requires BatchStored(body, resolve, c, stored, batch, c') && c.outputs.Keys <= known && t in inserted
    ensures PaysTo(body, t, a) || SpendsFrom(body, known + c'.outputs.Keys, t, a) <==>
            PaysTo(body, t, a) || SpendsFrom(body, c'.outputs.Keys, t, a) || LostPair(body, c, known, stored, inserted, a, t)
  {
    assert forall p :: p in c'.outputs <==> Available(body, c, stored, p);
  }

  /**
   * After a commit the index is the view again, if and only if every pair whose source comes too late, or was pruned too
   * early, is in the index already.
   */
  lemma IndexStaysViewIff(body: TxId -> Body, resolve: bool, c: Content, known: set<Outpoint>, stored: set<TxId>, batch: set<(Hash, TxId)>, c': Content,
                          processed: set<TxId>, inserted: set<TxId>, index: set<(Address, TxId)>, index': set<(Address, TxId)>)
    requires Genuine(body, c) && BatchStored(body, resolve, c, stored, batch, c') && c.outputs.Keys <= known && inserted <= stored
    requires IndexIsView(body, known, processed, index) && IndexGrows(body, c', inserted, index, index')
    ensures IndexIsView(body, known + c'.outputs.Keys, processed + inserted, index') <==>
      forall a: Address, t: TxId ::
        LatePair(body, known, stored, processed - inserted, a, t) || LostPair(body, c, known, stored, inserted, a, t) ==> (a, t) in index
  {
    BatchKeepsGenuine(body, resolve, c, stored, batch, c');
    forall a: Address, t: TxId
      ensures ((a, t) in index' <==>
                t in processed + inserted && (PaysTo(body, t, a) || SpendsFrom(body, known + c'.outputs.Keys, t, a))) <==>
              (LatePair(body, known, stored, processed - inserted, a, t) || LostPair(body, c, known, stored, inserted, a, t) ==>
                (a, t) in index)
    {
      if t in inserted {
        BatchCompletes(body, resolve, c, stored, batch, c', t);
        JoinIsSpends(body, c', t, a);
        InsertedSpends(body, resolve, c, known, stored, batch, c', inserted, t, a);
      } else if t in processed {
        EarlierSpends(body, resolve, c, known, stored, batch, c', processed - inserted, t, a);
      }
    }
  }

  // ---- The index over runs ----

  /** A moment of a run: the tables, the outputs that are or were in them, the transactions processed so far, and the index. */
  datatype Moment = Moment(content: Content, known: set<Outpoint>, processed: set<TxId>, index: set<(Address, TxId)>)

  datatype Action = Commit(stored: set<TxId>, batch: set<(Hash, TxId)>, inserted: set<TxId>) | Pruning(losses: Losses)

  ghost predicate Step(body: TxId -> Body, resolve: bool, m: Moment, action: Action, m': Moment) {
    match action
    case Commit(stored, batch, inserted) =>
      && BatchStored(body, resolve, m.content, stored, batch, m'.content)
      && inserted <= stored <= TxsOf(batch) <= m.processed + inserted
      && m'.known == m.known + m'.content.outputs.Keys
      && m'.processed == m.processed + inserted
      && IndexGrows(body, m'.content, inserted, m.index, m'.index)
    case Pruning(losses) =>
      m' == m.(content := Without(m.content, losses))
  }

  ghost predicate Sane(body: TxId -> Body, m: Moment) {
    Genuine(body, m.content) && m.content.outputs.Keys <= m.known
  }

  /** No source comes behind its spender, and none is pruned before its spender comes. */
  ghost predicate NothingMissed(body: TxId -> Body, m: Moment, action: Action) {
    action.Commit? ==>
      && (forall t, p :: t in m.processed - action.inserted && p in body(t).inputs && p.tx in action.stored && IsOutput(body, p) ==> p in m.known)
      && (forall t, p :: t in action.inserted && p in body(t).inputs && p in m.known ==> Available(body, m.content, action.stored, p))
  }

  lemma StepKeepsView(body: TxId -> Body, resolve: bool, m: Moment, action: Action, m': Moment)
    requires Sane(body, m) && Step(body, resolve, m, action, m') && NothingMissed(body, m, action)
    requires IndexIsView(body, m.known, m.processed, m.index)
    ensures Sane(body, m') && IndexIsView(body, m'.known, m'.processed, m'.index)
  {
    if action.Commit? {
      BatchKeepsGenuine(body, resolve, m.content, action.stored, action.batch, m'.content);
      IndexStaysViewIff(body, resolve, m.content, m.known, action.stored, action.batch, m'.content, m.processed, action.inserted,
                        m.index, m'.index);
    } else {
      PruneKeepsGenuine(body, m.content, action.losses);
    }
  }

  /** Over every run of commits and prunings in which no source is missed, the index is the view. */
  lemma {:induction false} IndexIsAlwaysView(body: TxId -> Body, resolve: bool, ms: seq<Moment>, actions: seq<Action>, n: nat)
    requires |ms| == |actions| + 1 && n < |ms|
    requires forall k :: 0 <= k < |actions| ==> Step(body, resolve, ms[k], actions[k], ms[k + 1])
    requires forall k :: 0 <= k < |actions| ==> NothingMissed(body, ms[k], actions[k])
    requires Sane(body, ms[0]) && IndexIsView(body, ms[0].known, ms[0].processed, ms[0].index)
    ensures Sane(body, ms[n]) && IndexIsView(body, ms[n].known, ms[n].processed, ms[n].index)
  {
    if n > 0 {
      IndexIsAlwaysView(body, resolve, ms, actions, n - 1);
      StepKeepsView(body, resolve, ms[n - 1], actions[n - 1], ms[n]);
    }
  }

  // ---- A spender before its source ----

  /** Transaction 1 pays to "a", and transaction 2 spends that. */
  function TwoBodies(t: TxId): Body {
    if t == 1 then Body([], [Output(Some(5), None, Some("a"))])
    else if t == 2 then Body([Outpoint(1, 0)], [])
    else Body([], [])
  }

  const NOTHING_YET: Moment := Moment(Content({}, map[], map[], {}), {}, {}, {})

  function SpenderCommitted(): Moment {
    Moment(Content({2}, map[InputId(2, 0) := Input(Outpoint(1, 0), None, None)], map[], {(10, 2)}), {}, {2}, {})
  }

  function BothCommitted(): Moment {
    Moment(Content({1, 2}, map[InputId(2, 0) := Input(Outpoint(1, 0), None, None)],
                   map[Outpoint(1, 0) := Output(Some(5), None, Some("a"))], {(10, 2), (11, 1)}),
           {Outpoint(1, 0)}, {1, 2}, {("a", 1)})
  }

  lemma SpenderIsCommitted()
    ensures Step(TwoBodies, false, NOTHING_YET, Commit({2}, {(10, 2)}, {2}), SpenderCommitted())
  {
    var c, c' := NOTHING_YET.content, SpenderCommitted().content;
    assert TxsOf({(10, 2)}) == {2} by {
      assert (10, 2) in {(10, 2)};
    }
    assert HasOutputs(TwoBodies, c.outputs, {2}, c'.outputs);
    assert HasInputs(TwoBodies, false, c.inputs, {2}, c'.outputs, c'.inputs);
    assert IndexGrows(TwoBodies, c', {2}, {}, {});
  }

  lemma SourceIsCommitted()
    ensures Step(TwoBodies, false, SpenderCommitted(), Commit({1}, {(11, 1)}, {1}), BothCommitted())
  {
    var c, c' := SpenderCommitted().content, BothCommitted().content;
    assert TxsOf({(11, 1)}) == {1} by {
      assert (11, 1) in {(11, 1)};
    }
    assert HasOutputs(TwoBodies, c.outputs, {1}, c'.outputs);
    assert HasInputs(TwoBodies, false, c.inputs, {1}, c'.outputs, c'.inputs);
    assert PaysTo(TwoBodies, 1, "a") by {
      assert TwoBodies(1).outputs[0].address == Some("a");
    }
    assert IndexGrows(TwoBodies, c', {1}, {}, {("a", 1)});
  }

  /** Committed before its source, the spender is never related to the address that it spends from. */
  lemma LateSourceIsMissed()
    ensures IndexIsView(TwoBodies, SpenderCommitted().known, SpenderCommitted().processed, SpenderCommitted().index)
    ensures Step(TwoBodies, false, SpenderCommitted(), Commit({1}, {(11, 1)}, {1}), BothCommitted())
    ensures !IndexIsView(TwoBodies, BothCommitted().known, BothCommitted().processed, BothCommitted().index)
  {
    SpenderIsCommitted();
    SourceIsCommitted();
    assert OwnedBy(TwoBodies, Outpoint(1, 0), "a");
    assert SpendsFrom(TwoBodies, BothCommitted().known, 2, "a") by {
      assert TwoBodies(2).inputs[0] == Outpoint(1, 0);
    }
    assert ("a", 2) !in BothCommitted().index;
  }
}
