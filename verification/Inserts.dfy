/** INSERT ... ON CONFLICT DO NOTHING, and the sort, chunk and insert-in-any-order helpers built on it. */
module Inserts {
  import opened Database

  /** Rows are tried in order; a row whose key is already stored is skipped. */
  function InsertAll<K, V>(table: map<K, V>, rows: seq<(K, V)>): map<K, V> {
    if rows == [] then table else
      var before := InsertAll(table, rows[..|rows| - 1]);
      var row := rows[|rows| - 1];
      if row.0 in before then before else before[row.0 := row.1]
  }

  /** What every order of insertion guarantees: stored rows stay, every key arrives, every new row is one of rows. */
  ghost predicate Inserted<K(!new), V(!new)>(table: map<K, V>, rows: seq<(K, V)>, after: map<K, V>) {
    && (forall k :: k in table ==> k in after && after[k] == table[k])
    && (forall row :: row in rows ==> row.0 in after)
    && (forall k :: k in after && k !in table ==> (k, after[k]) in rows)
  }

  /** Rows with the same new key carry the same values. */
  ghost predicate Agree<K(!new), V(!new)>(table: map<K, V>, rows: seq<(K, V)>) {
    forall r, r' :: r in rows && r' in rows && r.0 == r'.0 && r.0 !in table ==> r == r'
  }

  lemma {:induction false} InsertAllInserts<K(!new), V(!new)>(table: map<K, V>, rows: seq<(K, V)>)
    ensures Inserted(table, rows, InsertAll(table, rows))
  {
    if rows != [] {
      var last := |rows| - 1;
      InsertAllInserts(table, rows[..last]);
      assert rows == rows[..last] + [rows[last]];
    }
  }

  /** When equal keys carry equal rows, the resulting table depends on the rows alone. */
  lemma InsertedIsUnique<K(!new), V(!new)>(table: map<K, V>, rows: seq<(K, V)>, rows': seq<(K, V)>,
                                           after: map<K, V>, after': map<K, V>)
    requires Agree(table, rows)
    requires forall row :: row in rows <==> row in rows'
    requires Inserted(table, rows, after) && Inserted(table, rows', after')
    ensures after == after'
  {
  }

  lemma {:induction false} FirstRowWins<K(!new), V(!new)>(table: map<K, V>, row: (K, V), rest: seq<(K, V)>)
    requires row.0 !in table
    ensures row.0 in InsertAll(table, [row] + rest) && InsertAll(table, [row] + rest)[row.0] == row.1
  {
    var rows := [row] + rest;
    if rest == [] {
      assert rows[..0] == [];
      assert InsertAll(table, rows[..0]) == table;
    } else {
      var last := |rest| - 1;
      FirstRowWins(table, row, rest[..last]);
      assert rows[..|rows| - 1] == [row] + rest[..last];
    }
  }

  function MoveToFront<T>(s: seq<T>, i: nat): (moved: seq<T>)
    requires i < |s|
    ensures multiset(moved) == multiset(s)
  {
    assert s == s[..i] + [s[i]] + s[i + 1..];
    [s[i]] + (s[..i] + s[i + 1..])
  }

  /** Inserting rows in any order gives one and the same table exactly when rows with the same new key agree. */
  lemma OrderIsIrrelevantIff<K(!new), V(!new)>(table: map<K, V>, rows: seq<(K, V)>)
    ensures (forall rows' :: multiset(rows') == multiset(rows) ==> InsertAll(table, rows') == InsertAll(table, rows))
       <==> Agree(table, rows)
  {
    if Agree(table, rows) {
      forall rows' | multiset(rows') == multiset(rows) ensures InsertAll(table, rows') == InsertAll(table, rows) {
        forall row ensures row in rows <==> row in rows' {
          assert row in rows <==> row in multiset(rows);
          assert row in rows' <==> row in multiset(rows');
        }
        InsertAllInserts(table, rows);
        InsertAllInserts(table, rows');
        InsertedIsUnique(table, rows, rows', InsertAll(table, rows), InsertAll(table, rows'));
      }
    } else {
      var i, j :| 0 <= i < |rows| && 0 <= j < |rows| && rows[i].0 == rows[j].0 && rows[i].0 !in table && rows[i] != rows[j];
      FirstRowWins(table, rows[i], rows[..i] + rows[i + 1..]);
      FirstRowWins(table, rows[j], rows[..j] + rows[j + 1..]);
      assert InsertAll(table, MoveToFront(rows, i)) != InsertAll(table, MoveToFront(rows, j));
    }
  }

  // ---- Chunks ----

  /** slice::chunks */
  function Chunks<T>(s: seq<T>, size: nat): (chunks: seq<seq<T>>)
    requires 0 < size
    ensures forall c :: c in chunks ==> 0 < |c| <= size
  {
    if s == [] then [] else if |s| <= size then [s] else [s[..size]] + Chunks(s[size..], size)
  }

  lemma {:induction false} ChunksCover<T(!new)>(s: seq<T>, size: nat)
    requires 0 < size
    ensures forall x :: x in s <==> exists c :: c in Chunks(s, size) && x in c
  {
    if |s| <= size {
    } else {
      ChunksCover(s[size..], size);
      assert s == s[..size] + s[size..];
      assert Chunks(s, size)[0] == s[..size] && Chunks(s, size)[1..] == Chunks(s[size..], size);
      forall x ensures x in s <==> exists c :: c in Chunks(s, size) && x in c {
        assert x in s <==> x in s[..size] || x in s[size..];
        assert forall c :: c in Chunks(s, size) <==> c == s[..size] || c in Chunks(s[size..], size);
      }
    }
  }

  /** Part of the chunks is inserted and the others are pending. */
  ghost predicate Midway<K(!new), V(!new)>(table: map<K, V>, rows: seq<(K, V)>, pending: seq<seq<(K, V)>>, after: map<K, V>) {
    && (forall k :: k in table ==> k in after && after[k] == table[k])
    && (forall k :: k in after && k !in table ==> (k, after[k]) in rows)
    && (forall c, row: (K, V) :: c in pending && row in c ==> row in rows)
    && (forall row :: row in rows ==> row.0 in after || exists c :: c in pending && row in c)
  }

  lemma ChunkCompletes<K(!new), V(!new)>(table: map<K, V>, rows: seq<(K, V)>, pending: seq<seq<(K, V)>>, before: map<K, V>, i: nat)
    requires Midway(table, rows, pending, before) && i < |pending|
    ensures Midway(table, rows, pending[..i] + pending[i + 1..], InsertAll(before, pending[i]))
    ensures before.Keys <= InsertAll(before, pending[i]).Keys
  {
    InsertAllInserts(before, pending[i]);
    var after, rest := InsertAll(before, pending[i]), pending[..i] + pending[i + 1..];
    assert forall c :: c in pending <==> c == pending[i] || c in rest by {
      assert pending == pending[..i] + [pending[i]] + pending[i + 1..];
    }
    forall row | row in rows ensures row.0 in after || exists c :: c in rest && row in c {
      if row.0 !in after {
        assert row.0 !in before;
        var c :| c in pending && row in c;
        assert c in rest;
      }
    }
  }

  /** Splits the sorted rows into chunks and inserts them concurrently: the statements complete in any order. */
  method InsertUnordered<K(!new, ==), V(!new, ==)>(table: map<K, V>, rows: seq<(K, V)>, batchSize: nat)
    returns (after: map<K, V>, rowsAffected: nat)
    requires 0 < batchSize
    ensures Inserted(table, rows, after)
    ensures rowsAffected == |after| - |table|
  {
    var pending := Chunks(rows, batchSize);
    ChunksCover(rows, batchSize);
    after, rowsAffected := table, 0;
    while pending != []
      invariant Midway(table, rows, pending, after)
      invariant rowsAffected == |after| - |table|
      decreases |pending|
    {
      var i :| 0 <= i < |pending|;
      var before := after;
      after := InsertAll(before, pending[i]);
      ChunkCompletes(table, rows, pending, before, i);
      SubmapSize(before, after);
      rowsAffected := rowsAffected + (|after| - |before|);
      pending := pending[..i] + pending[i + 1..];
    }
  }

  lemma {:induction false} InsertAllConcat<K(!new), V(!new)>(table: map<K, V>, rows: seq<(K, V)>, more: seq<(K, V)>)
    ensures InsertAll(table, rows + more) == InsertAll(InsertAll(table, rows), more)
  {
    if more == [] {
      assert rows + more == rows;
    } else {
      assert (rows + more)[..|rows + more| - 1] == rows + more[..|more| - 1];
      InsertAllConcat(table, rows, more[..|more| - 1]);
    }
  }

  /** Inserts chunk after chunk: the same as one statement. */
  method InsertInOrder<K(!new, ==), V(!new, ==)>(table: map<K, V>, rows: seq<(K, V)>, batchSize: nat) returns (after: map<K, V>)
    requires 0 < batchSize
    ensures after == InsertAll(table, rows)
  {
    var done := 0;
    after := table;
    while done < |rows|
      invariant done <= |rows| && after == InsertAll(table, rows[..done])
    {
      var m := if done + batchSize <= |rows| then done + batchSize else |rows|;
      assert rows[..m] == rows[..done] + rows[done..m];
      InsertAllConcat(table, rows[..done], rows[done..m]);
      after, done := InsertAll(after, rows[done..m]), m;
    }
    assert rows[..done] == rows;
  }

  // ---- Sorting ----

  ghost predicate TotalOrder<K(!new)>(le: (K, K) -> bool) {
    && (forall a, b :: le(a, b) || le(b, a))
    && (forall a, b, c :: le(a, b) && le(b, c) ==> le(a, c))
  }

  ghost predicate SortedBy<T>(le: (T, T) -> bool, s: seq<T>) {
    forall i, j :: 0 <= i < j < |s| ==> le(s[i], s[j])
  }

  /** Vec::sort_by, stable: a row goes behind the rows that it does not precede. */
  method SortBy<T(!new, ==)>(rows: seq<T>, le: (T, T) -> bool) returns (sorted: seq<T>)
    requires TotalOrder(le)
    ensures multiset(sorted) == multiset(rows)
    ensures forall i, j :: 0 <= i < j < |sorted| ==> le(sorted[i], sorted[j])
  {
    sorted := [];
    for n := 0 to |rows|
      invariant multiset(sorted) == multiset(rows[..n])
      invariant SortedBy(le, sorted)
    {
      assert rows[..n + 1] == rows[..n] + [rows[n]];
      sorted := InsertSorted(sorted, rows[n], le);
    }
    assert rows[..|rows|] == rows;
  }

  method InsertSorted<T(!new, ==)>(s: seq<T>, x: T, le: (T, T) -> bool) returns (sorted: seq<T>)
    requires TotalOrder(le) && SortedBy(le, s)
    ensures multiset(sorted) == multiset(s) + multiset{x}
    ensures SortedBy(le, sorted)
  {
    var p := 0;
    while p < |s| && le(s[p], x)
      invariant p <= |s|
      invariant forall i :: 0 <= i < p ==> le(s[i], x)
    {
      p := p + 1;
    }
    InsertKeepsSorted(le, s, p, x);
    assert s == s[..p] + s[p..];
    sorted := s[..p] + [x] + s[p..];
  }

  lemma InsertKeepsSorted<T(!new)>(le: (T, T) -> bool, s: seq<T>, p: nat, x: T)
    requires TotalOrder(le) && SortedBy(le, s) && p <= |s|
    requires forall i :: 0 <= i < p ==> le(s[i], x)
    requires p < |s| ==> !le(s[p], x)
    ensures SortedBy(le, s[..p] + [x] + s[p..])
  {
  }

  lemma PermutationKeepsRows<T>(s: seq<T>, s': seq<T>)
    requires multiset(s) == multiset(s')
    ensures |s| == |s'| && forall x :: x in s <==> x in s'
  {
    assert |multiset(s)| == |s| && |multiset(s')| == |s'|;
    assert forall x :: x in s <==> x in multiset(s);
    assert forall x :: x in s' <==> x in multiset(s');
  }
}
