/**
 * Resolving the outputs that inputs spend: first from the batch in memory, then by a join with whatever outputs are
 * visible when a chunk of inputs is inserted, while chunks of the batch's outputs are inserted concurrently.
 */
module InputResolution {
  import opened Database
  import opened Inserts

  type InputRow = (InputId, Input)
  type OutputRow = (Outpoint, Output)

  function Coalesce<T>(a: Option<T>, b: Option<T>): Option<T> {
    if a.Some? then a else b
  }

  /** LEFT JOIN transactions_outputs with COALESCE. */
  function Join(row: Input, outputs: map<Outpoint, Output>): Input {
    if row.previous in outputs then
      var o := outputs[row.previous];
      Input(row.previous, Coalesce(row.script, o.script), Coalesce(row.amount, o.amount))
    else row
  }

  /** The reference: what the known outputs say about the outpoint, NULL when they do not know it. */
  function Lookup(previous: Outpoint, known: map<Outpoint, Output>): Input {
    if previous in known then Input(previous, known[previous].script, known[previous].amount)
    else Input(previous, None, None)
  }

  predicate Unresolved(row: Input) {
    row.script == None && row.amount == None
  }

  function LookupAll(rows: seq<InputRow>, known: map<Outpoint, Output>): seq<InputRow> {
    seq(|rows|, i requires 0 <= i < |rows| => (rows[i].0, Lookup(rows[i].1.previous, known)))
  }

  /** Equal outpoints carry equal rows, in the table and in the batch. */
  ghost predicate Consistent(outputs: map<Outpoint, Output>, batch: seq<OutputRow>) {
    && (forall r, r' :: r in batch && r' in batch && r.0 == r'.0 ==> r == r')
    && (forall r :: r in batch && r.0 in outputs ==> outputs[r.0] == r.1)
  }

  /** Some of the batch is visible. */
  ghost predicate Visible(outputs: map<Outpoint, Output>, batch: seq<OutputRow>, visible: map<Outpoint, Output>) {
    && (forall o :: o in outputs ==> o in visible && visible[o] == outputs[o])
    && (forall o :: o in visible && o !in outputs ==> (o, visible[o]) in batch)
  }

  // ---- Resolving from memory ----

  /** HashMap collected from the batch's outputs. */
  method OutputsMap(batch: seq<OutputRow>) returns (m: map<Outpoint, Output>)
    ensures forall r :: r in batch ==> r.0 in m
    ensures forall o :: o in m ==> (o, m[o]) in batch
  {
    m := map[];
    for i := 0 to |batch|
      invariant forall r :: r in batch[..i] ==> r.0 in m
      invariant forall o :: o in m ==> (o, m[o]) in batch[..i]
    {
      m := m[batch[i].0 := batch[i].1];
      assert batch[..i + 1] == batch[..i] + [batch[i]];
    }
    assert batch[..|batch|] == batch;
  }

  /** Each input that spends an output of the batch, edited in place. */
  method PreResolve(rows: seq<InputRow>, batch: seq<OutputRow>) returns (resolved: seq<InputRow>, m: map<Outpoint, Output>)
    requires forall i :: 0 <= i < |rows| ==> Unresolved(rows[i].1)
    ensures forall r :: r in batch ==> r.0 in m
    ensures forall o :: o in m ==> (o, m[o]) in batch
    ensures resolved == LookupAll(rows, m)
  {
    m := OutputsMap(batch);
    resolved := rows;
    for i := 0 to |rows|
      invariant |resolved| == |rows|
      invariant forall j :: 0 <= j < i ==> resolved[j] == (rows[j].0, Lookup(rows[j].1.previous, m))
      invariant forall j :: i <= j < |rows| ==> resolved[j] == rows[j]
    {
      var row := resolved[i].1;
      if row.previous in m {
        var o := m[row.previous];
        resolved := resolved[i := (resolved[i].0, row.(script := o.script, amount := o.amount))];
      }
    }
  }

  /** Joining a pre-resolved input gives the same row whatever part of the batch is visible. */
  lemma JoinIsLookup(previous: Outpoint, outputs: map<Outpoint, Output>, batch: seq<OutputRow>, m: map<Outpoint, Output>,
                     visible: map<Outpoint, Output>, known: map<Outpoint, Output>)
    requires Consistent(outputs, batch)
    requires forall r :: r in batch ==> r.0 in m
    requires forall o :: o in m ==> (o, m[o]) in batch
    requires Visible(outputs, batch, visible) && Inserted(outputs, batch, known)
    ensures Join(Lookup(previous, m), visible) == Lookup(previous, known)
  {
  }

  // ---- Chunks of inputs and outputs in any order ----

  function JoinAll(rows: seq<InputRow>, visible: map<Outpoint, Output>): seq<InputRow> {
    seq(|rows|, i requires 0 <= i < |rows| => (rows[i].0, Join(rows[i].1, visible)))
  }

  /** The rows that the chunks stand for once all outputs are known. */
  function LookupChunks(chunks: seq<seq<InputRow>>, known: map<Outpoint, Output>): seq<seq<InputRow>> {
    seq(|chunks|, i requires 0 <= i < |chunks| => LookupAll(chunks[i], known))
  }

  /** Each row is what the batch in memory says about some outpoint. */
  ghost predicate PreResolved(rows: seq<InputRow>, m: map<Outpoint, Output>) {
    forall row :: row in rows ==> row.1 == Lookup(row.1.previous, m)
  }

  lemma JoinedChunk(rows: seq<InputRow>, outputs: map<Outpoint, Output>, batch: seq<OutputRow>, m: map<Outpoint, Output>,
                    visible: map<Outpoint, Output>, known: map<Outpoint, Output>)
    requires Consistent(outputs, batch) && PreResolved(rows, m)
    requires forall r :: r in batch ==> r.0 in m
    requires forall o :: o in m ==> (o, m[o]) in batch
    requires Visible(outputs, batch, visible) && Inserted(outputs, batch, known)
    ensures JoinAll(rows, visible) == LookupAll(rows, known)
  {
  }

  lemma LookupWithout(chunks: seq<seq<InputRow>>, known: map<Outpoint, Output>, i: nat)
    requires i < |chunks|
    ensures LookupChunks(chunks[..i] + chunks[i + 1..], known) == LookupChunks(chunks, known)[..i] + LookupChunks(chunks, known)[i + 1..]
  {
  }

  lemma LookupMembers(rows: seq<InputRow>, known: map<Outpoint, Output>, row: InputRow)
    ensures row in LookupAll(rows, known) <==> exists r :: r in rows && row == (r.0, Lookup(r.1.previous, known))
  {
    var all := LookupAll(rows, known);
    if row in all {
      var i :| 0 <= i < |all| && all[i] == row;
      assert rows[i] in rows;
    }
    if r :| r in rows && row == (r.0, Lookup(r.1.previous, known)) {
      var i :| 0 <= i < |rows| && rows[i] == r;
      assert all[i] == row;
    }
  }

  lemma MidwayAtFirst(table: map<InputId, Input>, rows: seq<InputRow>, known: map<Outpoint, Output>, size: nat)
    requires 0 < size
    ensures Midway(table, LookupAll(rows, known), LookupChunks(Chunks(rows, size), known), table)
  {
    var chunks, all := Chunks(rows, size), LookupChunks(Chunks(rows, size), known);
    ChunksCover(rows, size);
    forall c, row: InputRow | c in all && row in c ensures row in LookupAll(rows, known) {
      var i :| 0 <= i < |all| && all[i] == c;
      LookupMembers(chunks[i], known, row);
      LookupMembers(rows, known, row);
      assert chunks[i] in chunks;
    }
    forall row | row in LookupAll(rows, known) ensures exists c :: c in all && row in c {
      LookupMembers(rows, known, row);
      var r :| r in rows && row == (r.0, Lookup(r.1.previous, known));
      var chunk :| chunk in chunks && r in chunk;
      var i :| 0 <= i < |chunks| && chunks[i] == chunk;
      LookupMembers(chunk, known, row);
      assert all[i] in all;
    }
  }

  predicate InputOrder(a: InputRow, b: InputRow) {
    a.0.tx < b.0.tx || (a.0.tx == b.0.tx && a.0.index <= b.0.index)
  }

  predicate OutputOrder(a: OutputRow, b: OutputRow) {
    a.0.tx < b.0.tx || (a.0.tx == b.0.tx && a.0.index <= b.0.index)
  }

  lemma SameRowsResolve(table: map<InputId, Input>, rows: seq<InputRow>, rows': seq<InputRow>, known: map<Outpoint, Output>,
                        after: map<InputId, Input>)
    requires forall r :: r in rows <==> r in rows'
    requires Inserted(table, LookupAll(rows, known), after)
    ensures Inserted(table, LookupAll(rows', known), after)
  {
    forall row ensures row in LookupAll(rows, known) <==> row in LookupAll(rows', known) {
      LookupMembers(rows, known, row);
      LookupMembers(rows', known, row);
    }
  }

  /** The two concurrent insertions: in each round a chunk of inputs or a chunk of outputs completes. */
  method Interleave(table: map<InputId, Input>, inputs: seq<InputRow>, outputs: map<Outpoint, Output>, batch: seq<OutputRow>,
                    size: nat, ghost m: map<Outpoint, Output>, ghost known: map<Outpoint, Output>)
    returns (inputs': map<InputId, Input>, outputs': map<Outpoint, Output>)
    requires 0 < size && Consistent(outputs, batch) && PreResolved(inputs, m) && Inserted(outputs, batch, known)
    requires forall r :: r in batch ==> r.0 in m
    requires forall o :: o in m ==> (o, m[o]) in batch
    ensures Inserted(outputs, batch, outputs')
    ensures Inserted(table, LookupAll(inputs, known), inputs')
  {
    var pending, pendingOutputs := Chunks(inputs, size), Chunks(batch, size);
    ghost var rows := LookupAll(inputs, known);
    ChunksCover(inputs, size);
    ChunksCover(batch, size);
    MidwayAtFirst(table, inputs, known, size);
    inputs', outputs' := table, outputs;
    while pending != [] || pendingOutputs != []
      invariant forall c, row: InputRow :: c in pending && row in c ==> row in inputs
      invariant Midway(table, rows, LookupChunks(pending, known), inputs')
      invariant Midway(outputs, batch, pendingOutputs, outputs')
      decreases |pending| + |pendingOutputs|
    {
      var outputsFirst: bool :| true;
      if pending == [] || (outputsFirst && pendingOutputs != []) {
        var i :| 0 <= i < |pendingOutputs|;
        ChunkCompletes(outputs, batch, pendingOutputs, outputs', i);
        outputs' := InsertAll(outputs', pendingOutputs[i]);
        pendingOutputs := pendingOutputs[..i] + pendingOutputs[i + 1..];
      } else {
        var i :| 0 <= i < |pending|;
        JoinedChunk(pending[i], outputs, batch, m, outputs', known);
        ChunkCompletes(table, rows, LookupChunks(pending, known), inputs', i);
        LookupWithout(pending, known, i);
        inputs' := InsertAll(inputs', JoinAll(pending[i], outputs'));
        pending := pending[..i] + pending[i + 1..];
      }
    }
  }

  lemma LookupTwice(rows: seq<InputRow>, m: map<Outpoint, Output>, known: map<Outpoint, Output>)
    ensures PreResolved(LookupAll(rows, m), m)
    ensures LookupAll(LookupAll(rows, m), known) == LookupAll(rows, known)
  {
  }

  /**
   * Resolves the inputs in memory and inserts inputs and outputs concurrently. Every stored input gets what the outputs
   * table and the batch say together about the outpoint it spends, whichever chunks its join could see.
   */
  method InsertResolved(db: Db, txInputs: seq<InputRow>, txOutputs: seq<OutputRow>, batchSize: nat)
    requires 0 < batchSize && Consistent(db.outputs, txOutputs)
    requires forall i :: 0 <= i < |txInputs| ==> Unresolved(txInputs[i].1)
    modifies db`inputs, db`outputs
    ensures Inserted(old(db.outputs), txOutputs, db.outputs)
    ensures Inserted(old(db.inputs), LookupAll(txInputs, db.outputs), db.inputs)
  {
    var resolved, m := PreResolve(txInputs, txOutputs);
    var inputs := SortBy(resolved, InputOrder);
    var outputs := SortBy(txOutputs, OutputOrder);
    PermutationKeepsRows(resolved, inputs);
    PermutationKeepsRows(txOutputs, outputs);
    LookupTwice(txInputs, m, InsertAll(db.outputs, outputs));
    InsertAllInserts(db.outputs, outputs);
    ghost var known := InsertAll(db.outputs, outputs);
    var inputs', outputs' := Interleave(db.inputs, inputs, db.outputs, outputs, batchSize, m, known);
    InsertedIsUnique(db.outputs, outputs, outputs, known, outputs');
    SameRowsResolve(db.inputs, inputs, resolved, known, inputs');
    db.inputs, db.outputs := inputs', outputs';
  }
}
