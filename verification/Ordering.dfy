/** Byte-wise string order and sorting, as the go standard library provides them. */
module Ordering {

  function Leq(a: string, b: string): bool {
    a == [] || (b != [] && (a[0] < b[0] || (a[0] == b[0] && Leq(a[1..], b[1..]))))
  }

  lemma {:induction false} LeqReflexive(a: string)
    ensures Leq(a, a)
  {
    if a != [] {
      LeqReflexive(a[1..]);
    }
  }

  lemma {:induction false} LeqTotal(a: string, b: string)
    ensures Leq(a, b) || Leq(b, a)
  {
    if a != [] && b != [] {
      LeqTotal(a[1..], b[1..]);
    }
  }

  lemma {:induction false} LeqAntisymmetric(a: string, b: string)
    requires Leq(a, b) && Leq(b, a)
    ensures a == b
  {
    if a != [] {
      LeqAntisymmetric(a[1..], b[1..]);
      assert a == [a[0]] + a[1..] && b == [b[0]] + b[1..];
    }
  }

  lemma {:induction false} LeqTransitive(a: string, b: string, c: string)
    requires Leq(a, b) && Leq(b, c)
    ensures Leq(a, c)
  {
    if a != [] && a[0] == b[0] == c[0] {
      LeqTransitive(a[1..], b[1..], c[1..]);
    }
  }

  ghost predicate Sorted(s: seq<string>) {
    forall i, j :: 0 <= i < j < |s| ==> Leq(s[i], s[j])
  }

  ghost predicate Distinct<T>(s: seq<T>) {
    forall i, j :: 0 <= i < j < |s| ==> s[i] != s[j]
  }

  function Insert(x: string, s: seq<string>): (r: seq<string>)
    requires Sorted(s)
    ensures Sorted(r) && multiset(r) == multiset(s) + multiset{x}
  {
    if s == [] then [x]
    else if Leq(x, s[0]) then
      assert forall j :: 0 <= j < |s| ==> Leq(x, s[j]) by {
        forall j | 0 <= j < |s| ensures Leq(x, s[j]) {
          if j > 0 { LeqTransitive(x, s[0], s[j]); }
        }
      }
      [x] + s
    else
      var rest := Insert(x, s[1..]);
      assert s == [s[0]] + s[1..];
      assert forall j :: 0 <= j < |rest| ==> Leq(s[0], rest[j]) by {
        LeqTotal(x, s[0]);
        forall j | 0 <= j < |rest| ensures Leq(s[0], rest[j]) {
          assert rest[j] in multiset(rest);
        }
      }
      [s[0]] + rest
  }

  /** sort.Strings. */
  function Sort(s: seq<string>): (r: seq<string>)
    ensures Sorted(r) && multiset(r) == multiset(s)
  {
    if s == [] then [] else
      assert s == [s[0]] + s[1..];
      Insert(s[0], Sort(s[1..]))
  }

  lemma SameMembers<T>(s: seq<T>, t: seq<T>)
    requires multiset(s) == multiset(t)
    ensures |s| == |t| && forall x :: x in s <==> x in t
  {
    assert |multiset(s)| == |s| && |multiset(t)| == |t|;
    forall x ensures x in s <==> x in t {
      assert x in s <==> x in multiset(s);
      assert x in t <==> x in multiset(t);
    }
  }

  lemma {:induction false} DistinctCounts<T>(s: seq<T>, x: T)
    requires Distinct(s)
    ensures multiset(s)[x] <= 1
  {
    if s != [] {
      var n := |s| - 1;
      assert s == s[..n] + [s[n]];
      DistinctCounts(s[..n], x);
      assert s[n] !in s[..n];
    }
  }

  lemma {:induction false} CountsDistinct<T>(s: seq<T>)
    requires forall x :: multiset(s)[x] <= 1
    ensures Distinct(s)
  {
    if s != [] {
      var n := |s| - 1;
      assert s == s[..n] + [s[n]];
      forall x ensures multiset(s[..n])[x] <= 1 {
        assert multiset(s)[x] <= 1;
      }
      CountsDistinct(s[..n]);
      assert multiset(s)[s[n]] <= 1;
      assert s[n] !in multiset(s[..n]);
      assert forall i :: 0 <= i < n ==> s[..n][i] in multiset(s[..n]);
    }
  }

  lemma SortDistinct(s: seq<string>)
    requires Distinct(s)
    ensures Distinct(Sort(s))
  {
    forall x ensures multiset(Sort(s))[x] <= 1 {
      DistinctCounts(s, x);
    }
    CountsDistinct(Sort(s));
  }

  /** A duplicate-free sorted sequence is determined by its elements. */
  lemma {:induction false} SortedUnique(s: seq<string>, t: seq<string>)
    requires Sorted(s) && Sorted(t) && Distinct(s) && Distinct(t)
    requires forall x :: x in s <==> x in t
    ensures s == t
  {
    if s == [] {
      assert forall i :: 0 <= i < |t| ==> t[i] in s;
    } else {
      assert s[0] in t && t != [];
      var i :| 0 <= i < |t| && t[i] == s[0];
      assert t[0] in s;
      var j :| 0 <= j < |s| && s[j] == t[0];
      LeqReflexive(s[0]);
      LeqAntisymmetric(s[0], t[0]);
      forall x ensures x in s[1..] <==> x in t[1..] {
        assert x in s <==> x == s[0] || x in s[1..];
        assert x in t <==> x == t[0] || x in t[1..];
        if x == s[0] {
          assert x !in s[1..] && x !in t[1..];
        }
      }
      SortedUnique(s[1..], t[1..]);
      assert s == [s[0]] + s[1..] && t == [t[0]] + t[1..];
    }
  }
}
