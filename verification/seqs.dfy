/** Order-preserving filtering, as `Array.prototype.filter` does it, and the
    positions of the elements a filter keeps. */
module Seqs {

  /** The elements of `s` satisfying `p`, in their original order. */
  function Filter<T>(p: T -> bool, s: seq<T>): (r: seq<T>)
    ensures |r| <= |s|
    ensures forall i :: 0 <= i < |r| ==> p(r[i])
  {
    if s == [] then [] else
      Filter(p, s[..|s| - 1]) + (if p(s[|s| - 1]) then [s[|s| - 1]] else [])
  }

  /** The positions in `s` of the elements `Filter(p, s)` keeps: strictly
      increasing, each pointing at the element kept at the same place, and
      covering exactly the positions whose element satisfies `p`. */
  function KeptIndices<T>(p: T -> bool, s: seq<T>): (idx: seq<nat>)
    ensures |idx| == |Filter(p, s)|
    ensures forall j :: 0 <= j < |idx| ==> idx[j] < |s| && Filter(p, s)[j] == s[idx[j]]
    ensures forall j, k :: 0 <= j < k < |idx| ==> idx[j] < idx[k]
    ensures forall i :: 0 <= i < |s| ==> (i in idx <==> p(s[i]))
  {
    if s == [] then [] else
      var n := |s| - 1;
      var prev := KeptIndices(p, s[..n]);
      var idx := prev + (if p(s[n]) then [n] else []);
      assert forall j :: 0 <= j < |prev| ==> prev[j] < n;
      idx
  }

  /** Filtering one more element keeps it exactly when it satisfies `p`. */
  lemma FilterSnoc<T>(p: T -> bool, s: seq<T>, x: T)
    ensures p(x) ==> Filter(p, s + [x]) == Filter(p, s) + [x]
    ensures !p(x) ==> Filter(p, s + [x]) == Filter(p, s)
  {
    assert (s + [x])[..|s|] == s;
  }

  /** A filter whose predicate every element satisfies keeps everything. */
  lemma {:induction false} FilterKeepsAll<T>(p: T -> bool, s: seq<T>)
    requires forall i :: 0 <= i < |s| ==> p(s[i])
    ensures Filter(p, s) == s
  {
    if s != [] {
      FilterKeepsAll(p, s[..|s| - 1]);
      assert s[..|s| - 1] + [s[|s| - 1]] == s;
    }
  }
}
