/** Go's order on strings and sort.Slice, seen as "some sorted permutation". */
module Ordering {

  /** Go's `<` on strings. */
  predicate Less(a: string, b: string) {
    |b| > 0 && (|a| == 0 || a[0] < b[0] || (a[0] == b[0] && Less(a[1..], b[1..])))
  }

  lemma {:induction false} LessTotal(a: string, b: string)
    ensures Less(a, b) || a == b || Less(b, a)
    ensures !(Less(a, b) && Less(b, a))
    ensures !Less(a, a)
  {
    if |a| > 0 && |b| > 0 {
      LessTotal(a[1..], b[1..]);
      LessTotal(a[1..], a[1..]);
      assert a == [a[0]] + a[1..] && b == [b[0]] + b[1..];
    } else if |a| > 0 {
      LessTotal(a[1..], a[1..]);
    }
  }

  lemma {:induction false} LessTransitive(a: string, b: string, c: string)
    requires Less(a, b) && Less(b, c)
    ensures Less(a, c)
  {
    if |a| > 0 && a[0] == b[0] == c[0] {
      LessTransitive(a[1..], b[1..], c[1..]);
    }
  }

  /** What sort.Slice requires of its comparison. */
  ghost predicate StrictWeakOrder<T(!new)>(less: (T, T) -> bool) {
    && (forall x :: !less(x, x))
    && (forall x, y :: less(x, y) ==> !less(y, x))
    && (forall x, y, z :: less(x, z) ==> less(x, y) || less(y, z))
  }

  ghost predicate SortedBy<T(!new)>(s: seq<T>, less: (T, T) -> bool) {
    forall i, j :: 0 <= i < j < |s| ==> !less(s[j], s[i])
  }

  ghost predicate IsSorting<T(!new)>(s: seq<T>, less: (T, T) -> bool, r: seq<T>) {
    multiset(r) == multiset(s) && SortedBy(r, less)
  }

  /** Puts x after every element that is not greater. */
  function InsertLate<T>(s: seq<T>, x: T, less: (T, T) -> bool): seq<T> {
    if |s| == 0 || !less(x, s[|s| - 1]) then s + [x]
    else InsertLate(s[..|s| - 1], x, less) + [s[|s| - 1]]
  }

  function SortLate<T>(s: seq<T>, less: (T, T) -> bool): seq<T> {
    if |s| == 0 then [] else InsertLate(SortLate(s[..|s| - 1], less), s[|s| - 1], less)
  }

  lemma {:induction false} InsertLateMultiset<T>(s: seq<T>, x: T, less: (T, T) -> bool)
    ensures multiset(InsertLate(s, x, less)) == multiset(s) + multiset{x}
  {
    if |s| > 0 && less(x, s[|s| - 1]) {
      InsertLateMultiset(s[..|s| - 1], x, less);
      assert s == s[..|s| - 1] + [s[|s| - 1]];
    }
  }

  lemma {:induction false} InsertLateSorted<T(!new)>(s: seq<T>, x: T, less: (T, T) -> bool)
    requires StrictWeakOrder(less) && SortedBy(s, less)
    ensures SortedBy(InsertLate(s, x, less), less)
  {
    if |s| == 0 || !less(x, s[|s| - 1]) {
      forall i | 0 <= i < |s| ensures !less(x, s[i]) {
        var y, z := s[i], s[|s| - 1];
        assert less(x, y) ==> less(x, z) || less(z, y);
      }
    } else {
      var front, z := s[..|s| - 1], s[|s| - 1];
      InsertLateSorted(front, x, less);
      InsertLateMultiset(front, x, less);
      var r := InsertLate(front, x, less);
      forall i | 0 <= i < |r| ensures !less(z, r[i]) {
        assert r[i] in multiset(r);
        assert r[i] in multiset(front) || r[i] == x;
        if r[i] in front {
          var k :| 0 <= k < |front| && front[k] == r[i];
        }
      }
    }
  }

  lemma {:induction false} SortLateIsSorting<T(!new)>(s: seq<T>, less: (T, T) -> bool)
    requires StrictWeakOrder(less)
    ensures IsSorting(s, less, SortLate(s, less))
  {
    if |s| > 0 {
      var front := s[..|s| - 1];
      SortLateIsSorting(front, less);
      InsertLateSorted(SortLate(front, less), s[|s| - 1], less);
      InsertLateMultiset(SortLate(front, less), s[|s| - 1], less);
      assert s == front + [s[|s| - 1]];
    }
  }

  /** sort.Slice: callers learn only that the result is some sorted permutation. */
  method SortSlice<T(!new)>(s: seq<T>, less: (T, T) -> bool) returns (r: seq<T>)
    requires StrictWeakOrder(less)
    ensures IsSorting(s, less, r)
  {
    r := SortLate(s, less);
    SortLateIsSorting(s, less);
  }

  lemma {:induction false} StringOrderIsStrictWeak()
    ensures StrictWeakOrder(Less)
  {
    forall x: string ensures !Less(x, x) { LessTotal(x, x); }
    forall x: string, y: string | Less(x, y) ensures !Less(y, x) { LessTotal(x, y); }
    forall x: string, y: string, z: string | Less(x, z) ensures Less(x, y) || Less(y, z) {
      LessTotal(x, y);
      LessTotal(y, z);
      if !Less(x, y) && Less(y, x) { LessTransitive(y, x, z); }
    }
  }

  // ---- Strictly ascending name lists ----

  ghost predicate Ascending(s: seq<string>) {
    forall i, j :: 0 <= i < j < |s| ==> Less(s[i], s[j])
  }

  /** A set of strings has exactly one ascending enumeration. */
  lemma {:induction false} AscendingUnique(a: seq<string>, b: seq<string>)
    requires Ascending(a) && Ascending(b)
    requires forall x :: x in a <==> x in b
    ensures a == b
  {
    var first := if |b| > 0 then b[0] else "";
    assert |b| > 0 ==> first in b;
    if |a| > 0 {
      assert a[0] in b;
      assert b != [] && b[0] in a;
      var i :| 0 <= i < |b| && b[i] == a[0];
      var j :| 0 <= j < |a| && a[j] == b[0];
      LessTotal(a[0], b[0]);
      assert a[0] == b[0];
      forall x ensures x in a[1..] <==> x in b[1..] {
        LessTotal(a[0], a[0]);
        if x in a[1..] { assert x in a; assert Less(a[0], x); assert x in b; }
        if x in b[1..] { assert x in b; assert Less(b[0], x); assert x in a; }
      }
      AscendingUnique(a[1..], b[1..]);
    }
  }

  // ---- Distinctness ----

  ghost predicate Distinct<T>(s: seq<T>) {
    forall i, j :: 0 <= i < j < |s| ==> s[i] != s[j]
  }

  lemma {:induction false} DistinctCounts<T>(s: seq<T>)
    ensures Distinct(s) <==> forall x :: multiset(s)[x] <= 1
  {
    if |s| > 0 {
      var front, z := s[..|s| - 1], s[|s| - 1];
      assert s == front + [z];
      DistinctCounts(front);
      if z in front {
        var i :| 0 <= i < |front| && front[i] == z;
        assert s[i] == s[|s| - 1];
        assert multiset(s)[z] >= 2;
      } else {
        assert multiset(front)[z] == 0;
        assert forall x :: multiset(s)[x] == multiset(front)[x] + multiset{z}[x];
      }
    }
  }

  lemma {:induction false} PermutationKeepsDistinct<T>(s: seq<T>, r: seq<T>)
    requires multiset(r) == multiset(s) && Distinct(s)
    ensures Distinct(r)
  {
    DistinctCounts(s);
    DistinctCounts(r);
  }

  /** Inserting late puts x right before a suffix of strictly greater elements. */
  lemma {:induction false} InsertLateShape<T>(s: seq<T>, x: T, less: (T, T) -> bool) returns (k: nat)
    ensures k <= |s| && InsertLate(s, x, less) == s[..k] + [x] + s[k..]
    ensures forall i :: k <= i < |s| ==> less(x, s[i])
  {
    if |s| == 0 || !less(x, s[|s| - 1]) {
      k := |s|;
    } else {
      k := InsertLateShape(s[..|s| - 1], x, less);
      assert s[..|s| - 1][..k] == s[..k];
      assert s[..|s| - 1][k..] + [s[|s| - 1]] == s[k..];
    }
  }

  /** Every finite set has an enumeration. */
  ghost function Enumeration<T(!new)>(s: set<T>): (r: seq<T>)
    ensures forall x :: x in r <==> x in s
    ensures Distinct(r)
  {
    if s == {} then []
    else var x :| x in s; [x] + Enumeration(s - {x})
  }

  // ---- Filtering ----

  /** The elements that satisfy p, in order. */
  function Filter<T>(s: seq<T>, p: T -> bool): seq<T> {
    if |s| == 0 then []
    else Filter(s[..|s| - 1], p) + if p(s[|s| - 1]) then [s[|s| - 1]] else []
  }

  lemma {:induction false} FilterMembers<T>(s: seq<T>, p: T -> bool)
    ensures forall x :: x in Filter(s, p) <==> x in s && p(x)
    ensures |Filter(s, p)| <= |s|
  {
    if |s| > 0 {
      FilterMembers(s[..|s| - 1], p);
      assert s == s[..|s| - 1] + [s[|s| - 1]];
    }
  }

  lemma {:induction false} FilterAppend<T>(a: seq<T>, b: seq<T>, p: T -> bool)
    ensures Filter(a + b, p) == Filter(a, p) + Filter(b, p)
  {
    if |b| == 0 {
      assert a + b == a;
    } else {
      FilterAppend(a, b[..|b| - 1], p);
      assert (a + b)[..|a + b| - 1] == a + b[..|b| - 1];
    }
  }

  lemma {:induction false} FilterAll<T>(s: seq<T>, p: T -> bool)
    requires forall i :: 0 <= i < |s| ==> p(s[i])
    ensures Filter(s, p) == s
  {
    if |s| > 0 { FilterAll(s[..|s| - 1], p); }
  }

  lemma {:induction false} FilterNone<T>(s: seq<T>, p: T -> bool)
    requires forall i :: 0 <= i < |s| ==> !p(s[i])
    ensures Filter(s, p) == []
  {
    if |s| > 0 { FilterNone(s[..|s| - 1], p); }
  }

  lemma {:induction false} FilterMore<T>(s: seq<T>, z: T, p: T -> bool)
    ensures Filter(s + [z], p) == if p(z) then Filter(s, p) + [z] else Filter(s, p)
  {
    assert (s + [z])[..|s|] == s;
  }

  lemma {:induction false} FilterCommutes<T>(s: seq<T>, p: T -> bool, q: T -> bool)
    ensures Filter(Filter(s, p), q) == Filter(Filter(s, q), p)
  {
    if |s| > 0 {
      var front, z := s[..|s| - 1], s[|s| - 1];
      FilterCommutes(front, p, q);
      assert s == front + [z];
      FilterMore(front, z, p);
      FilterMore(front, z, q);
      FilterMore(Filter(front, p), z, q);
      FilterMore(Filter(front, q), z, p);
    }
  }

  lemma {:induction false} FilterCounts<T>(s: seq<T>, p: T -> bool, x: T)
    ensures multiset(Filter(s, p))[x] == if p(x) then multiset(s)[x] else 0
  {
    if |s| > 0 {
      FilterCounts(s[..|s| - 1], p, x);
      assert s == s[..|s| - 1] + [s[|s| - 1]];
    }
  }

  lemma {:induction false} SameLength<T>(a: seq<T>, b: seq<T>)
    requires multiset(a) == multiset(b)
    ensures |a| == |b|
  {
    assert |multiset(a)| == |a|;
  }

  lemma {:induction false} FilterPermutes<T(!new)>(a: seq<T>, b: seq<T>, p: T -> bool)
    requires multiset(a) == multiset(b)
    ensures multiset(Filter(a, p)) == multiset(Filter(b, p))
    ensures |Filter(a, p)| == |Filter(b, p)|
  {
    forall x ensures multiset(Filter(a, p))[x] == multiset(Filter(b, p))[x] {
      FilterCounts(a, p, x);
      FilterCounts(b, p, x);
    }
    SameLength(Filter(a, p), Filter(b, p));
  }

  lemma {:induction false} SameElements<T>(a: seq<T>, b: seq<T>)
    requires multiset(a) == multiset(b)
    ensures forall x :: x in a <==> x in b
  {
    forall x ensures x in a <==> x in b {
      assert x in a <==> x in multiset(a);
      assert x in b <==> x in multiset(b);
    }
  }
}
