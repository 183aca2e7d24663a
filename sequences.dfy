/**
 * Order-preserving selection from a sequence: the model of a boolean-mask
 * filter over a table or a list comprehension with a condition.
 */
module Sequences {

  /** Positions listed in strictly increasing order, as a selection keeps them. */
  ghost predicate StrictlyIncreasing(idx: seq<nat>)
  {
    forall i, j :: 0 <= i < j < |idx| ==> idx[i] < idx[j]
  }

  /** The positions, in increasing order, of exactly those elements of `s` that satisfy `p`. */
  function Positions<T>(s: seq<T>, p: T -> bool): (idx: seq<nat>)
    ensures |idx| <= |s|
    ensures StrictlyIncreasing(idx)
    ensures forall k :: 0 <= k < |idx| ==> idx[k] < |s| && p(s[idx[k]])
    ensures forall i :: 0 <= i < |s| && p(s[i]) ==> i in idx
    decreases |s|
  {
    if s == [] then []
    else
      var prev := Positions(s[..|s| - 1], p);
      if p(s[|s| - 1]) then prev + [|s| - 1] else prev
  }

  /** The elements of `s` at the positions `idx`, in the order of `idx`. */
  function Select<T>(s: seq<T>, idx: seq<nat>): (r: seq<T>)
    requires forall k :: 0 <= k < |idx| ==> idx[k] < |s|
    ensures |r| == |idx|
    ensures forall k :: 0 <= k < |idx| ==> r[k] == s[idx[k]]
  {
    seq(|idx|, k requires 0 <= k < |idx| => s[idx[k]])
  }

  /** The elements of `s` that satisfy `p`, in their order in `s`. */
  function Filter<T>(s: seq<T>, p: T -> bool): (r: seq<T>)
    ensures |r| <= |s|
    ensures forall k :: 0 <= k < |r| ==> p(r[k])
    decreases |s|
  {
    if s == [] then []
    else
      var init := Filter(s[..|s| - 1], p);
      if p(s[|s| - 1]) then init + [s[|s| - 1]] else init
  }

  /** Filtering picks the elements of `s` at `Positions(s, p)`. */
  lemma {:induction false} FilterIsSelect<T>(s: seq<T>, p: T -> bool)
    ensures Filter(s, p) == Select(s, Positions(s, p))
    decreases |s|
  {
    if s != [] {
      var init := s[..|s| - 1];
      FilterIsSelect(init, p);
      var idx := Positions(init, p);
      assert Select(init, idx) == Select(s, idx);
    }
  }

  /** `r` lists exactly the elements of `s` that satisfy `p`, each once per occurrence, in the order they occur in `s`. */
  ghost predicate SelectsInOrder<T>(r: seq<T>, s: seq<T>, p: T -> bool)
  {
    exists idx: seq<nat> ::
      && |idx| == |r|
      && StrictlyIncreasing(idx)
      && (forall k :: 0 <= k < |idx| ==> idx[k] < |s| && r[k] == s[idx[k]] && p(s[idx[k]]))
      && (forall i :: 0 <= i < |s| && p(s[i]) ==> i in idx)
  }

  lemma FilterSelectsInOrder<T>(s: seq<T>, p: T -> bool)
    ensures SelectsInOrder(Filter(s, p), s, p)
  {
    FilterIsSelect(s, p);
    var idx := Positions(s, p);
    var r := Filter(s, p);
    assert |idx| == |r|;
    assert forall k :: 0 <= k < |idx| ==> idx[k] < |s| && r[k] == s[idx[k]] && p(s[idx[k]]);
  }

  /** Every element of `s` that satisfies `p` is kept. */
  lemma FilterKeeps<T>(s: seq<T>, p: T -> bool, i: nat)
    requires i < |s| && p(s[i])
    ensures s[i] in Filter(s, p)
  {
    FilterIsSelect(s, p);
    var idx := Positions(s, p);
    var k :| 0 <= k < |idx| && idx[k] == i;
    assert Filter(s, p)[k] == s[i];
  }

  /** An element is in the filtered sequence exactly when it is in `s` and satisfies `p`. */
  lemma FilterMembers<T>(s: seq<T>, p: T -> bool)
    ensures forall x :: x in Filter(s, p) <==> x in s && p(x)
  {
    FilterIsSelect(s, p);
    forall x | x in s && p(x)
      ensures x in Filter(s, p)
    {
      var i :| 0 <= i < |s| && s[i] == x;
      FilterKeeps(s, p, i);
    }
  }

  /** Filtering one more element appends it when it qualifies: the step of a loop that appends matches. */
  lemma FilterSnoc<T>(s: seq<T>, x: T, p: T -> bool)
    ensures Filter(s + [x], p) == Filter(s, p) + (if p(x) then [x] else [])
  {
    assert (s + [x])[..|s|] == s;
  }
}
