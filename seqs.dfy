/** The array combinators the services and components are built from
    (`map`, `filter`, `some`, `find`, `flatMap` and de-duplication through a
    `Set`), each with the contract JavaScript gives it. */
module Seqs {
  import opened Results

  /** `xs` occurs in `ys` in the same order, possibly with gaps. */
  ghost predicate IsSubsequence<T>(xs: seq<T>, ys: seq<T>)
    decreases |ys|
  {
    || xs == []
    || (&& ys != []
        && (|| (xs[0] == ys[0] && IsSubsequence(xs[1..], ys[1..]))
            || IsSubsequence(xs, ys[1..])))
  }

  /** No element occurs twice. */
  ghost predicate NoDuplicates<T>(s: seq<T>)
  {
    forall i, j :: 0 <= i < j < |s| ==> s[i] != s[j]
  }

  /** `i` is the first index of `s` whose element satisfies `p`. */
  ghost predicate IsFirstMatch<T>(s: seq<T>, p: T -> bool, i: int)
  {
    && 0 <= i < |s|
    && p(s[i])
    && forall j :: 0 <= j < i ==> !p(s[j])
  }

  /** `Array.prototype.map`. */
  function Map<T, U>(s: seq<T>, f: T -> U): (r: seq<U>)
    ensures |r| == |s|
    ensures forall i :: 0 <= i < |s| ==> r[i] == f(s[i])
  {
    if s == [] then [] else [f(s[0])] + Map(s[1..], f)
  }

  /** `Array.prototype.filter`: the elements satisfying `p`, front to back. */
  function Filter<T>(s: seq<T>, p: T -> bool): (r: seq<T>)
    ensures |r| <= |s|
    ensures forall i :: 0 <= i < |r| ==> r[i] in s && p(r[i])
    ensures forall i :: 0 <= i < |s| && p(s[i]) ==> s[i] in r
  {
    if s == [] then [] else (if p(s[0]) then [s[0]] else []) + Filter(s[1..], p)
  }

  /** `Array.prototype.some`. */
  function Any<T>(s: seq<T>, p: T -> bool): (b: bool)
    ensures b <==> exists i :: 0 <= i < |s| && p(s[i])
  {
    if s == [] then false
    else if p(s[0]) then true
    else
      var rest := Any(s[1..], p);
      assert forall i :: 1 <= i < |s| ==> s[i] == s[1..][i - 1];
      rest
  }

  /** `Array.prototype.find`: the first element satisfying `p`, if any. */
  function Find<T>(s: seq<T>, p: T -> bool): (r: Option<T>)
    ensures r.Some? ==> exists i :: IsFirstMatch(s, p, i) && s[i] == r.value
    ensures r.None? <==> forall i :: 0 <= i < |s| ==> !p(s[i])
  {
    if s == [] then None
    else if p(s[0]) then
      assert IsFirstMatch(s, p, 0);
      Some(s[0])
    else
      var r := Find(s[1..], p);
      assert forall i :: 1 <= i < |s| ==> s[i] == s[1..][i - 1];
      assert r.Some? ==> exists i :: IsFirstMatch(s, p, i) && s[i] == r.value by {
        if r.Some? {
          var k :| IsFirstMatch(s[1..], p, k) && s[1..][k] == r.value;
          assert IsFirstMatch(s, p, k + 1);
        }
      }
      r
  }

  /** `Array.prototype.flatMap`. */
  function FlatMap<T, U>(s: seq<T>, f: T -> seq<U>): (r: seq<U>)
    ensures forall k :: 0 <= k < |r| ==> exists i :: 0 <= i < |s| && r[k] in f(s[i])
    ensures forall i, j :: 0 <= i < |s| && 0 <= j < |f(s[i])| ==> f(s[i])[j] in r
  {
    if s == [] then []
    else
      var rest := FlatMap(s[1..], f);
      assert forall i :: 1 <= i < |s| ==> s[i] == s[1..][i - 1];
      f(s[0]) + rest
  }

  /** The elements of `s` not in `seen`, each once, in order of first
      occurrence: what `Array.from(new Set(s))` yields when `seen` is empty. */
  function DistinctExcept<T(==)>(s: seq<T>, seen: set<T>): (r: seq<T>)
    ensures forall i :: 0 <= i < |r| ==> r[i] in s && r[i] !in seen
    ensures forall i :: 0 <= i < |s| && s[i] !in seen ==> s[i] in r
    ensures NoDuplicates(r)
  {
    if s == [] then []
    else if s[0] in seen then DistinctExcept(s[1..], seen)
    else [s[0]] + DistinctExcept(s[1..], seen + {s[0]})
  }

  /** `Array.from(new Set(s))`. */
  function Distinct<T(==)>(s: seq<T>): seq<T>
  {
    DistinctExcept(s, {})
  }

  /** `filter` keeps the order of what it keeps. */
  lemma {:induction false} FilterIsSubsequence<T>(s: seq<T>, p: T -> bool)
    ensures IsSubsequence(Filter(s, p), s)
  {
    if s != [] {
      FilterIsSubsequence(s[1..], p);
      if p(s[0]) {
        assert ([s[0]] + Filter(s[1..], p))[1..] == Filter(s[1..], p);
      } else {
        assert Filter(s, p) == Filter(s[1..], p);
      }
    }
  }

  /** `filter` keeps every copy of what satisfies `p` and no copy of the rest. */
  lemma {:induction false} FilterMultiplicity<T>(s: seq<T>, p: T -> bool, x: T)
    ensures multiset(Filter(s, p))[x] == if p(x) then multiset(s)[x] else 0
  {
    if s != [] {
      FilterMultiplicity(s[1..], p, x);
      assert s == [s[0]] + s[1..];
      assert multiset(s) == multiset([s[0]]) + multiset(s[1..]);
      var head := if p(s[0]) then [s[0]] else [];
      assert multiset(Filter(s, p)) == multiset(head) + multiset(Filter(s[1..], p));
    }
  }

  /** A filter every element passes returns its input. */
  lemma {:induction false} FilterAllPass<T>(s: seq<T>, p: T -> bool)
    requires forall i :: 0 <= i < |s| ==> p(s[i])
    ensures Filter(s, p) == s
  {
    if s != [] {
      FilterAllPass(s[1..], p);
    }
  }

  /** The set de-duplication keeps the order of first occurrences. */
  lemma {:induction false} DistinctExceptIsSubsequence<T>(s: seq<T>, seen: set<T>)
    ensures IsSubsequence(DistinctExcept(s, seen), s)
  {
    if s != [] {
      if s[0] in seen {
        DistinctExceptIsSubsequence(s[1..], seen);
      } else {
        DistinctExceptIsSubsequence(s[1..], seen + {s[0]});
        assert ([s[0]] + DistinctExcept(s[1..], seen + {s[0]}))[1..]
            == DistinctExcept(s[1..], seen + {s[0]});
      }
    }
  }

  /** `Array.from(new Set(s))` holds each element of `s` exactly once, in
      order of first occurrence. */
  lemma DistinctSpec<T>(s: seq<T>)
    ensures forall i :: 0 <= i < |Distinct(s)| ==> Distinct(s)[i] in s
    ensures forall i :: 0 <= i < |s| ==> s[i] in Distinct(s)
    ensures NoDuplicates(Distinct(s))
    ensures IsSubsequence(Distinct(s), s)
  {
    DistinctExceptIsSubsequence(s, {});
  }
}
