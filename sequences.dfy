/**
 * The shape shared by every visibility pass: walk a list of candidates in order
 * and push the ones that pass a test onto a fresh result array.
 * `Filter` is that result; the lemmas say what it contains and in which order.
 */
module Sequences {

  /** `[0, 1, ..., n - 1]`. */
  function Range(n: nat): seq<nat>
  {
    seq(n, k => k)
  }

  /** The elements of `s` that satisfy `keep`, in their original order. */
  function Filter<T>(s: seq<T>, keep: T -> bool): (r: seq<T>)
    ensures |r| <= |s|
  {
    if s == [] then []
    else
      var init := Filter(s[..|s| - 1], keep);
      if keep(s[|s| - 1]) then init + [s[|s| - 1]] else init
  }

  /** The positions of `s` whose element satisfies `keep`, ascending. */
  function KeptPositions<T>(s: seq<T>, keep: T -> bool): (pos: seq<nat>)
    ensures forall k :: 0 <= k < |pos| ==> pos[k] < |s| && keep(s[pos[k]])
    ensures forall a, b :: 0 <= a < b < |pos| ==> pos[a] < pos[b]
    ensures forall j :: 0 <= j < |s| && keep(s[j]) ==> j in pos
  {
    if s == [] then []
    else
      var init := KeptPositions(s[..|s| - 1], keep);
      if keep(s[|s| - 1]) then init + [|s| - 1] else init
  }

  /** One more step of the push loop: the next element is appended iff it passes. */
  lemma FilterStep<T>(s: seq<T>, k: nat, keep: T -> bool)
    requires k < |s|
    ensures Filter(s[..k + 1], keep) ==
              if keep(s[k]) then Filter(s[..k], keep) + [s[k]] else Filter(s[..k], keep)
  {
    assert s[..k + 1][..k] == s[..k];
  }

  /**
   * The filter result is exactly the input read at the kept positions: an
   * order-preserving selection of the input that leaves out no element that
   * passes the test and takes none that fails it.
   */
  lemma {:induction false} FilterIsSelection<T>(s: seq<T>, keep: T -> bool)
    ensures |Filter(s, keep)| == |KeptPositions(s, keep)|
    ensures forall k :: 0 <= k < |KeptPositions(s, keep)| ==>
              Filter(s, keep)[k] == s[KeptPositions(s, keep)[k]]
  {
    if s != [] {
      FilterIsSelection(s[..|s| - 1], keep);
    }
  }

  /** An element is in the result iff it is in the input and passes the test. */
  lemma {:induction false} FilterMembership<T>(s: seq<T>, keep: T -> bool, x: T)
    ensures x in Filter(s, keep) <==> x in s && keep(x)
  {
    if s != [] {
      var init := s[..|s| - 1];
      FilterMembership(init, keep, x);
      assert s == init + [s[|s| - 1]];
    }
  }

  /** Each element that passes occurs as often as in the input; others never occur. */
  lemma {:induction false} FilterCount<T>(s: seq<T>, keep: T -> bool, x: T)
    ensures multiset(Filter(s, keep))[x] == if keep(x) then multiset(s)[x] else 0
  {
    if s != [] {
      var init := s[..|s| - 1];
      FilterCount(init, keep, x);
      assert s == init + [s[|s| - 1]];
    }
  }

  /** A filter over a strictly increasing input yields a strictly increasing result. */
  lemma {:induction false} FilterKeepsIncreasing(s: seq<nat>, keep: nat -> bool)
    requires forall a, b :: 0 <= a < b < |s| ==> s[a] < s[b]
    ensures forall a, b :: 0 <= a < b < |Filter(s, keep)| ==> Filter(s, keep)[a] < Filter(s, keep)[b]
  {
    FilterIsSelection(s, keep);
  }

  /** Two tests that agree on every element of `s` select the same result. */
  lemma {:induction false} FilterCongruent<T>(s: seq<T>, p: T -> bool, q: T -> bool)
    requires forall k :: 0 <= k < |s| ==> p(s[k]) == q(s[k])
    ensures Filter(s, p) == Filter(s, q)
  {
    if s != [] {
      FilterCongruent(s[..|s| - 1], p, q);
    }
  }

  /** A test that gives one verdict on every element keeps all of `s` or none of it. */
  lemma {:induction false} FilterUniform<T>(s: seq<T>, keep: T -> bool, verdict: bool)
    requires forall k :: 0 <= k < |s| ==> keep(s[k]) == verdict
    ensures Filter(s, keep) == if verdict then s else []
  {
    if s != [] {
      FilterUniform(s[..|s| - 1], keep, verdict);
      assert s == s[..|s| - 1] + [s[|s| - 1]];
    }
  }
}
