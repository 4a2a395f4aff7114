/** Rows of a table: selecting, inserting and amending them under a key. */
module Rows {
  function Select<R(!new)>(rows: seq<R>, keep: R -> bool): (r: seq<R>)
    ensures forall x :: x in r <==> x in rows && keep(x)
  {
    if rows == [] then []
    else if keep(rows[0]) then [rows[0]] + Select(rows[1..], keep)
    else Select(rows[1..], keep)
  }

  ghost predicate Unique<R(!new), K(!new)>(rows: seq<R>, key: R -> K) {
    forall i, j :: 0 <= i < j < |rows| ==> key(rows[i]) != key(rows[j])
  }

  // INSERT ... ON CONFLICT DO UPDATE.
  function Upsert<R(!new), K(!new, ==)>(rows: seq<R>, key: R -> K, row: R): (r: seq<R>)
    ensures forall x :: x in r ==> x == row || x in rows
    ensures row in r
  {
    if rows == [] then [row]
    else if key(rows[0]) == key(row) then [row] + rows[1..]
    else [rows[0]] + Upsert(rows[1..], key, row)
  }

  // UPDATE over every row.
  function Amend<R(!new)>(rows: seq<R>, change: R -> R): (r: seq<R>)
    ensures |r| == |rows| && forall i :: 0 <= i < |r| ==> r[i] == change(rows[i])
  {
    seq(|rows|, i requires 0 <= i < |rows| => change(rows[i]))
  }

  lemma {:induction false} UpsertKeys<R(!new), K(!new)>(rows: seq<R>, key: R -> K, row: R, i: nat)
    requires i < |Upsert(rows, key, row)|
    ensures i < |rows| ==> key(Upsert(rows, key, row)[i]) == key(rows[i])
    ensures i >= |rows| ==> i == |rows| && Upsert(rows, key, row)[i] == row
                            && forall x :: x in rows ==> key(x) != key(row)
  {
    if rows != [] && key(rows[0]) != key(row) && i > 0 {
      UpsertKeys(rows[1..], key, row, i - 1);
    }
  }

  lemma UpsertUnique<R(!new), K(!new)>(rows: seq<R>, key: R -> K, row: R)
    requires Unique(rows, key)
    ensures Unique(Upsert(rows, key, row), key)
  {
    var after := Upsert(rows, key, row);
    forall i, j | 0 <= i < j < |after| ensures key(after[i]) != key(after[j]) {
      UpsertKeys(rows, key, row, i);
      UpsertKeys(rows, key, row, j);
    }
  }

  lemma {:induction false} SelectUnique<R(!new), K(!new)>(rows: seq<R>, key: R -> K, keep: R -> bool)
    requires Unique(rows, key)
    ensures Unique(Select(rows, keep), key)
  {
    if rows != [] {
      SelectUnique(rows[1..], key, keep);
      forall x | x in Select(rows[1..], keep) ensures key(rows[0]) != key(x) {
        var j :| 0 <= j < |rows[1..]| && rows[1..][j] == x;
        assert rows[j + 1] == x;
      }
    }
  }

  lemma {:induction false} SelectAll<R(!new)>(rows: seq<R>, keep: R -> bool)
    requires forall x :: x in rows ==> keep(x)
    ensures Select(rows, keep) == rows
  {
    if rows != [] {
      SelectAll(rows[1..], keep);
    }
  }

  lemma {:induction false} SelectSame<R(!new)>(rows: seq<R>, keep: R -> bool, other: R -> bool)
    requires forall x :: x in rows ==> keep(x) == other(x)
    ensures Select(rows, keep) == Select(rows, other)
  {
    if rows != [] {
      SelectSame(rows[1..], keep, other);
    }
  }

  lemma AppendUnique<R(!new), K(!new)>(rows: seq<R>, key: R -> K, row: R)
    requires Unique(rows, key) && forall x :: x in rows ==> key(x) != key(row)
    ensures Unique(rows + [row], key)
  {
  }

  lemma AmendUnique<R(!new), K(!new)>(rows: seq<R>, key: R -> K, change: R -> R)
    requires Unique(rows, key) && forall x :: x in rows ==> key(change(x)) == key(x)
    ensures Unique(Amend(rows, change), key)
  {
    var after := Amend(rows, change);
    forall i, j | 0 <= i < j < |after| ensures key(after[i]) != key(after[j]) {
      assert rows[i] in rows && rows[j] in rows;
    }
  }
}
