/** Small generic definitions shared by the other modules. */
module Prelude {

  datatype Option<+T> = None | Some(value: T) {
    function GetOr(default: T): T {
      if Some? then value else default
    }
  }

  /** The number of elements of `s` that satisfy `p`. */
  function CountIf<T>(p: T -> bool, s: seq<T>): nat {
    if s == [] then 0 else CountIf(p, s[..|s| - 1]) + (if p(s[|s| - 1]) then 1 else 0)
  }

  lemma {:induction false} CountIfAppend<T>(p: T -> bool, s: seq<T>, t: seq<T>)
    ensures CountIf(p, s + t) == CountIf(p, s) + CountIf(p, t)
    decreases |t|
  {
    if t == [] {
      assert s + t == s;
    } else {
      var init := t[..|t| - 1];
      assert (s + t)[..|s + t| - 1] == s + init;
      CountIfAppend(p, s, init);
    }
  }

  lemma {:induction false} CountIfBounded<T>(p: T -> bool, s: seq<T>)
    ensures CountIf(p, s) <= |s|
    ensures CountIf(p, s) == 0 <==> forall i :: 0 <= i < |s| ==> !p(s[i])
    ensures CountIf(p, s) == |s| <==> forall i :: 0 <= i < |s| ==> p(s[i])
  {
    if s != [] {
      var init := s[..|s| - 1];
      CountIfBounded(p, init);
      assert forall i :: 0 <= i < |init| ==> init[i] == s[i];
      if forall i :: 0 <= i < |s| ==> !p(s[i]) {
        assert !p(s[|s| - 1]);
      }
    }
  }

  lemma CountIfMiddle<T>(p: T -> bool, left: seq<T>, x: T, right: seq<T>)
    ensures CountIf(p, left + ([x] + right)) == CountIf(p, left + right) + (if p(x) then 1 else 0)
  {
    CountIfAppend(p, left, right);
    CountIfAppend(p, left, [x] + right);
    CountIfAppend(p, [x], right);
    assert [x][..0] == [];
  }

  /** One occurrence of `x` taken out of `s`. */
  lemma TakeOut<T>(s: seq<T>, x: T) returns (left: seq<T>, right: seq<T>)
    requires x in multiset(s)
    ensures s == left + ([x] + right)
    ensures multiset(left + right) == multiset(s) - multiset{x}
  {
    var j :| 0 <= j < |s| && s[j] == x;
    left, right := s[..j], s[j + 1..];
    assert s == left + ([x] + right);
    assert multiset(s) == multiset(left) + (multiset{x} + multiset(right));
  }

  lemma FrontOfBag<T>(s: seq<T>)
    requires s != []
    ensures multiset(s[..|s| - 1]) == multiset(s) - multiset{s[|s| - 1]}
    ensures s[|s| - 1] in multiset(s)
  {
    assert s == s[..|s| - 1] + [s[|s| - 1]];
  }

  lemma SameBagSameSize<T>(s: seq<T>, t: seq<T>)
    requires multiset(s) == multiset(t)
    ensures |s| == |t|
  {
    assert |multiset(s)| == |s| && |multiset(t)| == |t|;
  }

  /** Counting does not depend on the order of the elements. */
  lemma {:induction false} CountIfPermuted<T>(p: T -> bool, s: seq<T>, t: seq<T>)
    requires multiset(s) == multiset(t)
    ensures CountIf(p, s) == CountIf(p, t)
    decreases |s|
  {
    SameBagSameSize(s, t);
    if s != [] {
      var last := s[|s| - 1];
      FrontOfBag(s);
      var left, right := TakeOut(t, last);
      CountIfPermuted(p, s[..|s| - 1], left + right);
      CountIfMiddle(p, left, last, right);
    }
  }

  ghost predicate Distinct<T>(s: seq<T>) {
    forall i, j :: 0 <= i < j < |s| ==> s[i] != s[j]
  }

  /** The elements of `s` without repetitions, each kept where it first occurs (Python's dict.fromkeys). */
  function Dedupe<T(==,!new)>(s: seq<T>): (r: seq<T>)
    ensures forall x :: x in r <==> x in s
    ensures Distinct(r)
  {
    if s == [] then []
    else
      var init := Dedupe(s[..|s| - 1]);
      if s[|s| - 1] in init then init else init + [s[|s| - 1]]
  }

  function Nonblank(texts: seq<string>): (r: seq<string>)
    ensures forall c :: c in r <==> c in texts && c != ""
    ensures Distinct(texts) ==> Distinct(r)
  {
    if texts == [] then []
    else
      var n := |texts| - 1;
      assert texts == texts[..n] + [texts[n]];
      assert Distinct(texts) ==> Distinct(texts[..n]) && texts[n] !in texts[..n];
      Nonblank(texts[..n]) + (if texts[n] != "" then [texts[n]] else [])
  }

  /** The list filed under a key, empty if there is none. */
  function At<T>(m: map<string, seq<T>>, k: string): seq<T> {
    if k in m then m[k] else []
  }

  ghost predicate Monotone(round: real -> real) {
    forall x, y :: x <= y ==> round(x) <= round(y)
  }

  lemma Regroup<T>(s: seq<T>, x: T, t: seq<T>)
    ensures s + ([x] + t) == (s + [x]) + t
  {
  }

  function Last<T>(s: seq<T>): T
    requires s != []
  {
    s[|s| - 1]
  }

  /** A property of every prefix of `s` is one of every prefix of its front, and of `s` itself. */
  lemma PrefixesSplit<T>(p: seq<T> -> bool, s: seq<T>)
    requires s != []
    ensures var init := s[..|s| - 1];
            (forall i :: 0 <= i <= |s| ==> p(s[..i])) <==> (forall i :: 0 <= i <= |init| ==> p(init[..i])) && p(s)
  {
    var init := s[..|s| - 1];
    assert s[..|s|] == s;
    assert forall i :: 0 <= i <= |init| ==> init[..i] == s[..i];
    if (forall i :: 0 <= i <= |init| ==> p(init[..i])) && p(s) {
      forall i | 0 <= i <= |s|
        ensures p(s[..i])
      {
        if i <= |init| {
          assert p(init[..i]);
        }
      }
    }
  }
}
