/** Go's order on strings, and sorting by it. */
module Sorting {

  /** Byte-wise lexicographic order. */
  predicate Leq(a: string, b: string) {
    a == "" || (b != "" && (a[0] < b[0] || (a[0] == b[0] && Leq(a[1..], b[1..]))))
  }

  lemma {:induction false} LeqTotal(a: string, b: string)
    ensures Leq(a, b) || Leq(b, a)
    ensures Leq(a, b) && Leq(b, a) ==> a == b
  {
    if a != "" && b != "" && a[0] == b[0] {
      LeqTotal(a[1..], b[1..]);
      assert a == [a[0]] + a[1..] && b == [b[0]] + b[1..];
    }
  }

  lemma {:induction false} LeqTransitive(a: string, b: string, c: string)
    requires Leq(a, b) && Leq(b, c)
    ensures Leq(a, c)
  {
    if a != "" && a[0] == b[0] == c[0] {
      LeqTransitive(a[1..], b[1..], c[1..]);
    }
  }

  /** Strings are ordered by the first byte in which they differ, and a prefix comes first. */
  lemma {:induction false} LeqExact(a: string, b: string, i: nat)
    requires i <= |a| && i <= |b| && a[..i] == b[..i] && (i < |a| && i < |b| ==> a[i] != b[i])
    ensures Leq(a, b) <==> i == |a| || (i < |b| && a[i] < b[i])
  {
    if i > 0 {
      assert a[..i][0] == b[..i][0];
      assert a[1..][..i - 1] == a[..i][1..] && b[1..][..i - 1] == b[..i][1..];
      LeqExact(a[1..], b[1..], i - 1);
    }
  }

  predicate Sorted(s: seq<string>) {
    forall i, j :: 0 <= i < j < |s| ==> Leq(s[i], s[j])
  }

  function Inserted(x: string, s: seq<string>): (r: seq<string>)
    ensures multiset(r) == multiset(s) + multiset{x}
  {
    if s == [] then [x]
    else if Leq(x, s[0]) then [x] + s
    else
      assert s == [s[0]] + s[1..];
      [s[0]] + Inserted(x, s[1..])
  }

  /** sort.Strings. */
  function SortStrings(s: seq<string>): (r: seq<string>)
    ensures multiset(r) == multiset(s)
  {
    if s == [] then []
    else
      assert s == [s[0]] + s[1..];
      Inserted(s[0], SortStrings(s[1..]))
  }

  lemma {:induction false} InsertedSorted(x: string, s: seq<string>)
    requires Sorted(s)
    ensures Sorted(Inserted(x, s))
  {
    if s != [] {
      var r := Inserted(x, s);
      LeqTotal(x, s[0]);
      if Leq(x, s[0]) {
        forall j | 0 <= j < |s|
          ensures Leq(x, s[j])
        {
          if j > 0 {
            LeqTransitive(x, s[0], s[j]);
          }
        }
      } else {
        InsertedSorted(x, s[1..]);
        forall j | 1 <= j < |r|
          ensures Leq(s[0], r[j])
        {
          assert r[j] in multiset(r[1..]);
          assert r[1..] == Inserted(x, s[1..]);
        }
      }
    }
  }

  lemma {:induction false} SortStringsSorted(s: seq<string>)
    ensures Sorted(SortStrings(s))
  {
    if s != [] {
      SortStringsSorted(s[1..]);
      InsertedSorted(s[0], SortStrings(s[1..]));
    }
  }

  lemma WithoutFirst(s: seq<string>)
    requires s != []
    ensures multiset(s[1..]) == multiset(s) - multiset{s[0]}
  {
    assert s == [s[0]] + s[1..];
  }

  /** The first of sorted strings is the least. */
  lemma FirstIsLeast(s: seq<string>, x: string)
    requires s != [] && Sorted(s) && x in multiset(s)
    ensures Leq(s[0], x)
  {
    LeqTotal(x, x);
  }

  /** Sorted arrangements of the same strings begin with the same one. */
  lemma SameFirst(s: seq<string>, r: seq<string>)
    requires Sorted(s) && Sorted(r) && multiset(s) == multiset(r) && s != [] && r != []
    ensures s[0] == r[0]
  {
    assert s[0] in multiset(s) && r[0] in multiset(r);
    FirstIsLeast(s, r[0]);
    FirstIsLeast(r, s[0]);
    LeqTotal(s[0], r[0]);
  }

  /** There is one sorted arrangement of given strings. */
  lemma {:induction false} SortedUnique(s: seq<string>, r: seq<string>)
    requires Sorted(s) && Sorted(r) && multiset(s) == multiset(r)
    ensures s == r
  {
    assert |s| == |multiset(s)| == |r|;
    if s != [] {
      SameFirst(s, r);
      WithoutFirst(s);
      WithoutFirst(r);
      SortedUnique(s[1..], r[1..]);
      assert s == [s[0]] + s[1..] && r == [r[0]] + r[1..];
    }
  }
}
