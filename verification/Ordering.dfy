/** Python's stable sort by a key comparison, and the comparison of strings. */
module Ordering {
  import opened Prelude

  ghost predicate TotalPreorder<T(!new)>(leq: (T, T) -> bool) {
    && (forall x, y :: leq(x, y) || leq(y, x))
    && (forall x, y, z :: leq(x, y) && leq(y, z) ==> leq(x, z))
  }

  ghost predicate Antisymmetric<T(!new)>(leq: (T, T) -> bool) {
    forall x, y :: leq(x, y) && leq(y, x) ==> x == y
  }

  predicate Sorted<T>(leq: (T, T) -> bool, s: seq<T>) {
    forall i, j :: 0 <= i < j < |s| ==> leq(s[i], s[j])
  }

  /** `x` placed in `s` behind every element it is not smaller than. */
  function Insert<T>(leq: (T, T) -> bool, x: T, s: seq<T>): seq<T> {
    if s == [] then [x]
    else if leq(s[|s| - 1], x) then s + [x]
    else Insert(leq, x, s[..|s| - 1]) + [s[|s| - 1]]
  }

  /** sorted(s, key=...): elements that compare equal keep their order. */
  function Sort<T>(leq: (T, T) -> bool, s: seq<T>): seq<T> {
    if s == [] then [] else Insert(leq, s[|s| - 1], Sort(leq, s[..|s| - 1]))
  }

  lemma {:induction false} InsertKeepsBag<T>(leq: (T, T) -> bool, x: T, s: seq<T>)
    ensures multiset(Insert(leq, x, s)) == multiset(s) + multiset{x}
  {
    if s != [] {
      var init, last := s[..|s| - 1], s[|s| - 1];
      assert s == init + [last];
      if !leq(last, x) {
        InsertKeepsBag(leq, x, init);
      }
    }
  }

  /** Below the last element of a sorted list lies everything else in it. */
  lemma FrontIsBelow<T>(leq: (T, T) -> bool, s: seq<T>, y: T)
    requires s != [] && Sorted(leq, s) && y in s[..|s| - 1]
    ensures leq(y, s[|s| - 1])
  {
    var k :| 0 <= k < |s| - 1 && s[k] == y;
  }

  lemma {:induction false} InsertSorts<T(!new)>(leq: (T, T) -> bool, x: T, s: seq<T>)
    requires TotalPreorder(leq) && Sorted(leq, s)
    ensures Sorted(leq, Insert(leq, x, s))
  {
    if s != [] {
      var init, last := s[..|s| - 1], s[|s| - 1];
      if leq(last, x) {
        forall y | y in init
          ensures leq(y, x)
        {
          FrontIsBelow(leq, s, y);
        }
      } else {
        InsertSorts(leq, x, init);
        InsertKeepsBag(leq, x, init);
        var r := Insert(leq, x, init);
        forall y | y in r
          ensures leq(y, last)
        {
          assert y in multiset(r);
          if y != x {
            assert y in multiset(init);
            FrontIsBelow(leq, s, y);
          }
        }
      }
    }
  }

  /** The result is sorted and holds the same elements. */
  lemma {:induction false} SortSorts<T(!new)>(leq: (T, T) -> bool, s: seq<T>)
    requires TotalPreorder(leq)
    ensures Sorted(leq, Sort(leq, s))
    ensures multiset(Sort(leq, s)) == multiset(s)
    ensures |Sort(leq, s)| == |s|
  {
    if s != [] {
      var init := s[..|s| - 1];
      SortSorts(leq, init);
      InsertSorts(leq, s[|s| - 1], Sort(leq, init));
      InsertKeepsBag(leq, s[|s| - 1], Sort(leq, init));
      assert s == init + [s[|s| - 1]];
    }
    assert |multiset(Sort(leq, s))| == |multiset(s)|;
  }

  /** A sorted list is left as it is. */
  lemma {:induction false} SortOfSorted<T>(leq: (T, T) -> bool, s: seq<T>)
    requires Sorted(leq, s)
    ensures Sort(leq, s) == s
  {
    if s != [] {
      var init := s[..|s| - 1];
      SortOfSorted(leq, init);
      assert s == init + [s[|s| - 1]];
      if init != [] {
        assert leq(init[|init| - 1], s[|s| - 1]);
      }
    }
  }

  lemma GreatestIsLast<T(!new)>(leq: (T, T) -> bool, s: seq<T>, x: T)
    requires Sorted(leq, s) && TotalPreorder(leq) && x in s
    ensures leq(x, s[|s| - 1])
  {
    var i :| 0 <= i < |s| && s[i] == x;
    assert leq(x, x) || leq(x, x);
    if i < |s| - 1 {
      assert leq(s[i], s[|s| - 1]);
    }
  }

  lemma SortedFront<T>(leq: (T, T) -> bool, s: seq<T>)
    requires s != [] && Sorted(leq, s)
    ensures Sorted(leq, s[..|s| - 1]) && s == s[..|s| - 1] + [s[|s| - 1]]
  {
  }

  lemma SameBagSameLast<T(!new)>(leq: (T, T) -> bool, s: seq<T>, t: seq<T>)
    requires TotalPreorder(leq) && Antisymmetric(leq) && Sorted(leq, s) && Sorted(leq, t)
    requires s != [] && t != [] && multiset(s) == multiset(t)
    ensures s[|s| - 1] == t[|t| - 1]
  {
    var a, b := s[|s| - 1], t[|t| - 1];
    assert a in multiset(t) && b in multiset(s);
    GreatestIsLast(leq, t, a);
    GreatestIsLast(leq, s, b);
  }

  /** Under an antisymmetric order the sorted list of a bag is unique. */
  lemma {:induction false} SortedIsUnique<T(!new)>(leq: (T, T) -> bool, s: seq<T>, t: seq<T>)
    requires TotalPreorder(leq) && Antisymmetric(leq) && Sorted(leq, s) && Sorted(leq, t)
    requires multiset(s) == multiset(t)
    ensures s == t
  {
    SameBagSameSize(s, t);
    if s != [] {
      SameBagSameLast(leq, s, t);
      FrontOfBag(s);
      FrontOfBag(t);
      SortedFront(leq, s);
      SortedFront(leq, t);
      SortedIsUnique(leq, s[..|s| - 1], t[..|t| - 1]);
    }
  }

  lemma {:induction false} DistinctBag<T>(s: seq<T>, x: T)
    requires Distinct(s)
    ensures multiset(s)[x] == if x in s then 1 else 0
  {
    if s != [] {
      var init, last := s[..|s| - 1], s[|s| - 1];
      DistinctBag(init, x);
      assert s == init + [last] && last !in init;
    }
  }

  lemma TwiceInBag<T>(s: seq<T>, i: nat, j: nat)
    requires i < j < |s| && s[i] == s[j]
    ensures multiset(s)[s[i]] >= 2
  {
    assert s == s[..j] + s[j..];
    assert s[..j][i] in s[..j] && s[j..][0] in s[j..];
  }

  /** Sorting neither adds, drops nor repeats elements. */
  lemma SortKeepsDistinct<T(!new)>(leq: (T, T) -> bool, s: seq<T>)
    requires TotalPreorder(leq) && Distinct(s)
    ensures Distinct(Sort(leq, s))
    ensures forall x :: x in Sort(leq, s) <==> x in s
  {
    SortSorts(leq, s);
    var t := Sort(leq, s);
    forall x
      ensures x in t <==> x in s
    {
      assert x in t <==> x in multiset(t);
      assert x in s <==> x in multiset(s);
    }
    forall i, j | 0 <= i < j < |t|
      ensures t[i] != t[j]
    {
      if t[i] == t[j] {
        TwiceInBag(t, i, j);
        DistinctBag(s, t[i]);
      }
    }
  }

  // ---- Strings --------------------------------------------------------------------------------

  /** Python's comparison a <= b of strings, by code point. */
  predicate TextLeq(a: string, b: string) {
    a == "" || (b != "" && (a[0] < b[0] || (a[0] == b[0] && TextLeq(a[1..], b[1..]))))
  }

  lemma {:induction false} TextLeqTotal(a: string, b: string)
    ensures TextLeq(a, b) || TextLeq(b, a)
    ensures TextLeq(a, b) && TextLeq(b, a) ==> a == b
  {
    if a != "" && b != "" && a[0] == b[0] {
      TextLeqTotal(a[1..], b[1..]);
      assert a == [a[0]] + a[1..] && b == [b[0]] + b[1..];
    }
  }

  lemma {:induction false} TextLeqTransitive(a: string, b: string, c: string)
    requires TextLeq(a, b) && TextLeq(b, c)
    ensures TextLeq(a, c)
  {
    if a != "" && a[0] == b[0] && b[0] == c[0] {
      TextLeqTransitive(a[1..], b[1..], c[1..]);
    }
  }
}
