/** Sorted copies of lists of strings, in byte order. */
module Sorting {
  import opened Strings

  function Insert(s: string, sorted: seq<string>): (r: seq<string>)
    ensures multiset(r) == multiset(sorted) + multiset{s}
  {
    if sorted == [] || !Less(sorted[0], s) then [s] + sorted
    else
      assert sorted == [sorted[0]] + sorted[1..];
      [sorted[0]] + Insert(s, sorted[1..])
  }

  function Sort(lines: seq<string>): (r: seq<string>)
    ensures multiset(r) == multiset(lines) && |r| == |lines|
  {
    if lines == [] then [] else
    assert lines == [lines[0]] + lines[1..];
    var r := Insert(lines[0], Sort(lines[1..]));
    assert |multiset(r)| == |multiset(lines)|;
    r
  }

  ghost predicate Sorted(lines: seq<string>) {
    forall i, j :: 0 <= i < j < |lines| ==> !Less(lines[j], lines[i])
  }

  lemma {:induction false} InsertSorted(s: string, sorted: seq<string>)
    requires Sorted(sorted)
    ensures Sorted(Insert(s, sorted))
  {
    if sorted != [] {
      if Less(sorted[0], s) {
        InsertSorted(s, sorted[1..]);
        var rest := Insert(s, sorted[1..]);
        forall j | 0 <= j < |rest|
          ensures !Less(rest[j], sorted[0])
        {
          assert rest[j] in multiset(rest);
          LessAsymmetric(sorted[0], s);
        }
      } else {
        forall j | 0 <= j < |sorted|
          ensures !Less(sorted[j], s)
        {
          if Less(sorted[j], s) {
            LessTotal(sorted[0], s);
            if sorted[0] != s { LessTransitive(sorted[j], s, sorted[0]); }
          }
        }
      }
    }
  }

  lemma {:induction false} SortSorted(lines: seq<string>)
    ensures Sorted(Sort(lines))
  {
    if lines != [] {
      SortSorted(lines[1..]);
      InsertSorted(lines[0], Sort(lines[1..]));
    }
  }

  lemma SmallestFirst(a: seq<string>, b: seq<string>)
    requires Sorted(a) && Sorted(b) && multiset(a) == multiset(b) && a != [] && b != []
    ensures !Less(b[0], a[0])
  {
    assert b[0] in multiset(a);
    var j :| 0 <= j < |a| && a[j] == b[0];
    if j == 0 { LessIrreflexive(a[0]); }
  }

  lemma SameTail(a: seq<string>, b: seq<string>)
    requires multiset(a) == multiset(b) && a != [] && b != [] && a[0] == b[0]
    ensures multiset(a[1..]) == multiset(b[1..])
  {
    assert a == [a[0]] + a[1..] && b == [b[0]] + b[1..];
    assert multiset(a[1..]) == multiset(a) - multiset{a[0]};
    assert multiset(b[1..]) == multiset(b) - multiset{b[0]};
  }

  // A sorted list is determined by what it holds.
  lemma {:induction false} SortedUnique(a: seq<string>, b: seq<string>)
    requires Sorted(a) && Sorted(b) && multiset(a) == multiset(b)
    ensures a == b
  {
    assert |a| == |multiset(a)| == |multiset(b)| == |b|;
    if a != [] {
      SmallestFirst(a, b);
      SmallestFirst(b, a);
      LessTotal(a[0], b[0]);
      SameTail(a, b);
      SortedUnique(a[1..], b[1..]);
      assert a == [a[0]] + a[1..] && b == [b[0]] + b[1..];
    }
  }
}
