/**
 * Order-preserving selection over sequences, the shape shared by Rust's
 * `retain`, `partition` and the result loops that `push` only some items:
 * `FilterMap` keeps the items a function maps to `Some` (and keeps the
 * mapped value), `Filter` keeps the items a predicate accepts. Both
 * recurse on the last item, so a loop that extends its result one input at
 * a time follows them step by step.
 */
module Sequences {
  import opened Wrappers

  /** The mapped values of the items `f` maps to `Some`, in input order. */
  function FilterMap<T, U>(s: seq<T>, f: T -> Option<U>): (r: seq<U>)
    ensures |r| <= |s|
  {
    if s == [] then []
    else
      var init := FilterMap(s[..|s| - 1], f);
      match f(s[|s| - 1])
      case None => init
      case Some(u) => init + [u]
  }

  /** The positions of the items `f` maps to `Some`, in increasing order. */
  function Hits<T, U>(s: seq<T>, f: T -> Option<U>): (r: seq<nat>)
    ensures forall k :: 0 <= k < |r| ==> r[k] < |s| && f(s[r[k]]).Some?
    ensures forall k, l :: 0 <= k < l < |r| ==> r[k] < r[l]
    ensures forall i :: 0 <= i < |s| && f(s[i]).Some? ==> i in r
  {
    if s == [] then []
    else
      var init := Hits(s[..|s| - 1], f);
      assert forall k :: 0 <= k < |init| ==> s[init[k]] == s[..|s| - 1][init[k]];
      if f(s[|s| - 1]).Some? then init + [|s| - 1] else init
  }

  /**
   * `FilterMap` is exactly the values at the hit positions: one output per
   * hit, in the order of the hits, so what it keeps is a subsequence of the
   * input and nothing that maps to `Some` is lost.
   */
  lemma {:induction false} FilterMapAtHits<T, U>(s: seq<T>, f: T -> Option<U>)
    ensures |FilterMap(s, f)| == |Hits(s, f)|
    ensures forall k :: 0 <= k < |Hits(s, f)| ==> FilterMap(s, f)[k] == f(s[Hits(s, f)[k]]).value
  {
    if s != [] {
      var t := s[..|s| - 1];
      FilterMapAtHits(t, f);
      var h, m := Hits(t, f), FilterMap(t, f);
      var hs, ms := Hits(s, f), FilterMap(s, f);
      match f(s[|s| - 1])
      case None =>
        assert hs == h && ms == m;
        forall k | 0 <= k < |hs| ensures ms[k] == f(s[hs[k]]).value {
          assert s[h[k]] == t[h[k]];
        }
      case Some(u) =>
        assert hs == h + [|s| - 1] && ms == m + [u];
        forall k | 0 <= k < |hs| ensures ms[k] == f(s[hs[k]]).value {
          if k < |h| {
            assert s[h[k]] == t[h[k]];
          }
        }
    }
  }

  /** Nothing is kept exactly when `f` keeps no item. */
  lemma {:induction false} FilterMapEmpty<T, U>(s: seq<T>, f: T -> Option<U>)
    ensures FilterMap(s, f) == [] <==> forall i :: 0 <= i < |s| ==> f(s[i]).None?
  {
    FilterMapAtHits(s, f);
    var h := Hits(s, f);
    if h != [] {
      assert f(s[h[0]]).Some?;
    }
  }

  /** One more item extends the selection by that item's value, if it has one. */
  lemma FilterMapSnoc<T, U>(s: seq<T>, x: T, f: T -> Option<U>)
    ensures FilterMap(s + [x], f) == FilterMap(s, f) + (if f(x).Some? then [f(x).value] else [])
  {
    assert (s + [x])[..|s|] == s;
  }

  lemma FilterMapSingleton<T, U>(x: T, f: T -> Option<U>)
    ensures FilterMap([x], f) == if f(x).Some? then [f(x).value] else []
  {
    assert [x][..0] == [];
  }

  lemma AppendAssoc<T>(a: seq<T>, b: seq<T>, c: seq<T>)
    ensures a + b + c == a + (b + c)
  {
  }

  /** `f` as a selector that keeps an item, unchanged, when `p` holds. */
  function KeepIf<T>(p: T -> bool): T -> Option<T> {
    x => if p(x) then Some(x) else None
  }

  /** `Vec::retain` and either half of `Iterator::partition`: the items satisfying `p`, in order. */
  function Filter<T>(s: seq<T>, p: T -> bool): (r: seq<T>)
    ensures |r| <= |s|
    ensures forall k :: 0 <= k < |r| ==> p(r[k])
  {
    if s == [] then []
    else
      var init := Filter(s[..|s| - 1], p);
      if p(s[|s| - 1]) then init + [s[|s| - 1]] else init
  }

  /** `Filter` is `FilterMap` with the selector `KeepIf(p)`, so the facts about `FilterMap` carry over. */
  lemma {:induction false} FilterIsFilterMap<T>(s: seq<T>, p: T -> bool)
    ensures Filter(s, p) == FilterMap(s, KeepIf(p))
  {
    if s != [] {
      FilterIsFilterMap(s[..|s| - 1], p);
    }
  }

  /**
   * The kept items are exactly the satisfying items: each item of `s` is
   * kept as often as it occurs in `s` when it satisfies `p`, and not at all otherwise.
   */
  lemma {:induction false} FilterMultiset<T>(s: seq<T>, p: T -> bool)
    ensures forall x :: multiset(Filter(s, p))[x] == if p(x) then multiset(s)[x] else 0
  {
    if s != [] {
      var t := s[..|s| - 1];
      FilterMultiset(t, p);
      assert s == t + [s[|s| - 1]];
    }
  }

  lemma FilterSingleton<T>(x: T, p: T -> bool)
    ensures Filter([x], p) == if p(x) then [x] else []
  {
    assert [x][..0] == [];
  }

  /** A property every item has is kept by what filtering returns. */
  lemma {:induction false} FilterKeepsProperty<T>(s: seq<T>, p: T -> bool, q: T -> bool)
    requires forall i :: 0 <= i < |s| ==> q(s[i])
    ensures forall k :: 0 <= k < |Filter(s, p)| ==> q(Filter(s, p)[k])
  {
    if s != [] {
      FilterKeepsProperty(s[..|s| - 1], p, q);
    }
  }

  /** Filtering again with the same predicate changes nothing. */
  lemma {:induction false} FilterIdempotent<T>(s: seq<T>, p: T -> bool)
    ensures Filter(Filter(s, p), p) == Filter(s, p)
  {
    FilterAllKept(Filter(s, p), p);
  }

  /** When every item satisfies the predicate, filtering returns the input. */
  lemma {:induction false} FilterAllKept<T>(s: seq<T>, p: T -> bool)
    requires forall k :: 0 <= k < |s| ==> p(s[k])
    ensures Filter(s, p) == s
  {
    if s != [] {
      FilterAllKept(s[..|s| - 1], p);
    }
  }

  /** Nothing is kept exactly when no item satisfies the predicate. */
  lemma FilterEmpty<T>(s: seq<T>, p: T -> bool)
    ensures Filter(s, p) == [] <==> forall i :: 0 <= i < |s| ==> !p(s[i])
  {
    FilterIsFilterMap(s, p);
    FilterMapEmpty(s, KeepIf(p));
  }
}
