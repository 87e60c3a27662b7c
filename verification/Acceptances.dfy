/** The statements on transactions_acceptances that the chain processor and the block processor share. */
module Acceptances {
  import opened Database
  import opened Inserts

  function WithoutBlocks(acceptances: map<TxId, Option<Hash>>, blocks: set<Hash>): map<TxId, Option<Hash>> {
    map t | t in acceptances && !(acceptances[t].Some? && acceptances[t].value in blocks) :: acceptances[t]
  }

  /** Every row that names one of the blocks is gone, the other rows are untouched. */
  ghost predicate Cleared(acceptances: map<TxId, Option<Hash>>, chainBlocks: multiset<Hash>, blocks: set<Hash>,
                          acceptances': map<TxId, Option<Hash>>, chainBlocks': multiset<Hash>) {
    && acceptances' == WithoutBlocks(acceptances, blocks)
    && forall b :: chainBlocks'[b] == if b in blocks then 0 else chainBlocks[b]
  }

  lemma ClearedTwice(a: map<TxId, Option<Hash>>, c: multiset<Hash>, a': map<TxId, Option<Hash>>, c': multiset<Hash>,
                     a'': map<TxId, Option<Hash>>, c'': multiset<Hash>, blocks: set<Hash>, more: set<Hash>)
    requires Cleared(a, c, blocks, a', c') && Cleared(a', c', more, a'', c'')
    ensures Cleared(a, c, blocks + more, a'', c'')
  {
  }

  /** Some row names one of the blocks. */
  ghost predicate Hit(acceptances: map<TxId, Option<Hash>>, chainBlocks: multiset<Hash>, blocks: set<Hash>) {
    || (exists t :: t in acceptances && acceptances[t].Some? && acceptances[t].value in blocks)
    || (exists b :: b in blocks && b in chainBlocks)
  }

  /** Rows are counted as deleted exactly when some row was there to delete. */
  lemma HitCounts(a: map<TxId, Option<Hash>>, c: multiset<Hash>, blocks: set<Hash>, a': map<TxId, Option<Hash>>, c': multiset<Hash>)
    requires Cleared(a, c, blocks, a', c')
    ensures |a'| <= |a| && |c'| <= |c|
    ensures |a| - |a'| + |c| - |c'| > 0 <==> Hit(a, c, blocks)
    ensures a' == a && c' == c <==> !Hit(a, c, blocks)
  {
    var gone, rest := a.Keys - a'.Keys, c - c';
    assert a.Keys == a'.Keys + gone && a'.Keys !! gone && c == c' + rest;
    MapSize(a);
    MapSize(a');
    if t :| t in a && a[t].Some? && a[t].value in blocks {
      assert t in gone && |gone| > 0;
    } else {
      assert gone == {};
    }
    if b :| b in blocks && b in c {
      assert b in rest && |rest| > 0;
    } else {
      assert rest == multiset{};
    }
  }

  function HashSet(hashes: seq<Hash>): set<Hash> {
    set h | h in hashes
  }

  /** DELETE ... WHERE block_hash = ANY(hashes) */
  method DeleteTransactionAcceptances(db: Db, hashes: seq<Hash>) returns (rows: nat)
    modifies db`acceptances, db`chainBlocks
    ensures Cleared(old(db.acceptances), old(db.chainBlocks), HashSet(hashes), db.acceptances, db.chainBlocks)
    ensures rows == |old(db.acceptances)| - |db.acceptances| + |old(db.chainBlocks)| - |db.chainBlocks|
  {
    ghost var rows0 := db.chainBlocks;
    var kept := WithoutBlocks(db.acceptances, HashSet(hashes));
    SubmapSize(kept, db.acceptances);
    rows := |db.acceptances| - |kept|;
    db.acceptances := kept;
    for i := 0 to |hashes|
      invariant db.acceptances == kept
      invariant forall b :: db.chainBlocks[b] == if b in hashes[..i] then 0 else rows0[b]
      invariant rows == |old(db.acceptances)| - |kept| + |rows0| - |db.chainBlocks|
    {
      var h := hashes[i];
      assert hashes[..i + 1] == hashes[..i] + [h];
      ghost var before := db.chainBlocks;
      rows := rows + db.chainBlocks[h];
      db.chainBlocks := db.chainBlocks[h := 0];
      assert before == db.chainBlocks + multiset{}[h := before[h]];
    }
    assert hashes[..|hashes|] == hashes;
  }

  /** The chunk loops of remove_chain_blocks and of the block processor's clean-up. */
  method DeleteByBlocks(db: Db, hashes: seq<Hash>, batchSize: nat) returns (rowsAffected: nat)
    requires 0 < batchSize
    modifies db`acceptances, db`chainBlocks
    ensures Cleared(old(db.acceptances), old(db.chainBlocks), HashSet(hashes), db.acceptances, db.chainBlocks)
    ensures rowsAffected == |old(db.acceptances)| - |db.acceptances| + |old(db.chainBlocks)| - |db.chainBlocks|
  {
    var done := 0;
    rowsAffected := 0;
    ghost var a, c := db.acceptances, db.chainBlocks;
    while done < |hashes|
      invariant done <= |hashes|
      invariant Cleared(a, c, HashSet(hashes[..done]), db.acceptances, db.chainBlocks)
      invariant rowsAffected == |a| - |db.acceptances| + |c| - |db.chainBlocks|
    {
      var m := if done + batchSize <= |hashes| then done + batchSize else |hashes|;
      ghost var a', c' := db.acceptances, db.chainBlocks;
      var rows := DeleteTransactionAcceptances(db, hashes[done..m]);
      ClearedTwice(a, c, a', c', db.acceptances, db.chainBlocks, HashSet(hashes[..done]), HashSet(hashes[done..m]));
      assert hashes[..m] == hashes[..done] + hashes[done..m];
      assert HashSet(hashes[..m]) == HashSet(hashes[..done]) + HashSet(hashes[done..m]);
      rowsAffected, done := rowsAffected + rows, m;
    }
    assert hashes[..done] == hashes;
  }

  // ---- Inserting ----

  datatype AcceptedIds = AcceptedIds(block: Hash, txs: seq<TxId>)

  type Acceptance = (TxId, Option<Hash>)

  /** The rows that a list of accepted transaction ids stands for. */
  ghost predicate RowsOf(accepted: seq<AcceptedIds>, rows: seq<Acceptance>) {
    forall row :: row in rows <==> exists a :: a in accepted && row.0 in a.txs && row.1 == Some(a.block)
  }

  lemma RowsOfMore(accepted: seq<AcceptedIds>, rows: seq<Acceptance>, a: AcceptedIds, more: seq<Acceptance>)
    requires RowsOf(accepted, rows)
    requires forall row :: row in more <==> row.0 in a.txs && row.1 == Some(a.block)
    ensures RowsOf(accepted + [a], rows + more)
  {
  }

  method RowsOfBlock(a: AcceptedIds) returns (rows: seq<Acceptance>)
    ensures forall row :: row in rows <==> row.0 in a.txs && row.1 == Some(a.block)
  {
    rows := [];
    for i := 0 to |a.txs|
      invariant forall row :: row in rows <==> row.0 in a.txs[..i] && row.1 == Some(a.block)
    {
      rows := rows + [(a.txs[i], Some(a.block))];
    }
    assert a.txs[..|a.txs|] == a.txs;
  }

  predicate IdOrder(a: Acceptance, b: Acceptance) {
    a.0 <= b.0
  }

  method Flatten(accepted: seq<AcceptedIds>) returns (rows: seq<Acceptance>)
    ensures RowsOf(accepted, rows)
  {
    rows := [];
    for i := 0 to |accepted|
      invariant RowsOf(accepted[..i], rows)
    {
      var more := RowsOfBlock(accepted[i]);
      RowsOfMore(accepted[..i], rows, accepted[i], more);
      assert accepted[..i + 1] == accepted[..i] + [accepted[i]];
      rows := rows + more;
    }
    assert accepted[..|accepted|] == accepted;
  }

  /** Sorts, splits into chunks and inserts the chunks concurrently; a transaction that has a row keeps it. */
  method InsertAcceptances(table: map<TxId, Option<Hash>>, rows: seq<Acceptance>, batchSize: nat)
    returns (after: map<TxId, Option<Hash>>, rowsAdded: nat)
    requires 0 < batchSize
    ensures Inserted(table, rows, after)
    ensures rowsAdded == |after| - |table|
  {
    var sorted := SortBy(rows, IdOrder);
    PermutationKeepsRows(rows, sorted);
    after, rowsAdded := InsertUnordered(table, sorted, batchSize);
  }

  /** Stored rows stay, every listed transaction has a row, and the rows that are new name a block that lists them. */
  ghost predicate InsertedFor(table: map<TxId, Option<Hash>>, accepted: seq<AcceptedIds>, after: map<TxId, Option<Hash>>) {
    && (forall t :: t in table ==> t in after && after[t] == table[t])
    && (forall a, t :: a in accepted && t in a.txs ==> t in after)
    && (forall t :: t in after && t !in table ==> exists a :: a in accepted && t in a.txs && after[t] == Some(a.block))
  }

  lemma RowsInserted(table: map<TxId, Option<Hash>>, accepted: seq<AcceptedIds>, rows: seq<Acceptance>, after: map<TxId, Option<Hash>>)
    requires RowsOf(accepted, rows) && Inserted(table, rows, after)
    ensures InsertedFor(table, accepted, after)
  {
    forall a, t | a in accepted && t in a.txs ensures t in after {
      assert (t, Some(a.block)) in rows;
    }
    forall t | t in after && t !in table ensures exists a :: a in accepted && t in a.txs && after[t] == Some(a.block) {
      assert (t, after[t]) in rows;
    }
  }

  method AcceptTransactions(db: Db, accepted: seq<AcceptedIds>, batchSize: nat) returns (rowsAdded: nat)
    requires 0 < batchSize
    modifies db`acceptances
    ensures InsertedFor(old(db.acceptances), accepted, db.acceptances)
    ensures rowsAdded == |db.acceptances| - |old(db.acceptances)|
  {
    var acceptedTransactions := Flatten(accepted);
    var after;
    after, rowsAdded := InsertAcceptances(db.acceptances, acceptedTransactions, batchSize);
    RowsInserted(db.acceptances, accepted, acceptedTransactions, after);
    db.acceptances := after;
  }

  /** Blocks-only mode: a row without a transaction per block. Such rows never conflict, as NULL keys are distinct. */
  method AddChainBlocks(db: Db, added: seq<Hash>, batchSize: nat) returns (rowsAdded: nat)
    requires 0 < batchSize
    modifies db`chainBlocks
    ensures db.chainBlocks == old(db.chainBlocks) + multiset(added)
    ensures rowsAdded == |added|
  {
    var done := 0;
    rowsAdded := 0;
    while done < |added|
      invariant done <= |added| && rowsAdded == done
      invariant db.chainBlocks == old(db.chainBlocks) + multiset(added[..done])
    {
      var m := if done + batchSize <= |added| then done + batchSize else |added|;
      assert added[..m] == added[..done] + added[done..m];
      db.chainBlocks := db.chainBlocks + multiset(added[done..m]);
      rowsAdded, done := rowsAdded + |added[done..m]|, m;
    }
    assert added[..done] == added;
  }
}
