// `score_array` from the particle-filter utilities (utils.py): the rank of
// each element of an array, obtained by inverting the permutation that
// sorts it.
module ParticleUtils {

  /** Some position of `p` holds `i`. */
  predicate Covers(p: seq<int>, i: int)
  {
    exists k :: 0 <= k < |p| && p[k] == i
  }

  /** `p` lists every index of `0..n` exactly once. */
  predicate IsPermutation(p: seq<int>, n: nat)
  {
    |p| == n &&
    (forall k :: 0 <= k < n ==> 0 <= p[k] < n) &&
    (forall k, l :: 0 <= k < l < n ==> p[k] != p[l]) &&
    (forall i :: 0 <= i < n ==> Covers(p, i))
  }

  /** What `np.argsort(a)` returns: a permutation of the indices of `a`
      that visits its elements from lowest to highest. */
  predicate IsArgsort(a: seq<int>, p: seq<int>)
  {
    IsPermutation(p, |a|) &&
    forall k, l :: 0 <= k < l < |a| ==> a[p[k]] <= a[p[l]]
  }

  /** `score_array`: `argsortIndices` is the result of `np.argsort(a)`,
      which is not part of this model. Position `argsortIndices[i]` gets
      score `i`, so the lowest element scores 0, the next 1, and so on. */
  method ScoreArray(a: seq<int>, argsortIndices: seq<int>) returns (scores: array<int>)
    requires IsArgsort(a, argsortIndices)
    ensures scores.Length == |a|
    // the scores invert the sorting permutation
    ensures forall i :: 0 <= i < |a| ==> scores[argsortIndices[i]] == i
    ensures IsPermutation(scores[..], |a|)
    // a lower element gets a lower score
    ensures forall i, j :: 0 <= i < |a| && 0 <= j < |a| && a[i] < a[j] ==> scores[i] < scores[j]
  {
    scores := new int[|a|];
    var i := 0;
    while i < |a|
      invariant 0 <= i <= |a|
      invariant forall k :: 0 <= k < i ==> scores[argsortIndices[k]] == k
    {
      scores[argsortIndices[i]] := i;
      i := i + 1;
    }
    InverseIsPermutation(argsortIndices, scores[..]);
    InverseOrdersElements(a, argsortIndices, scores[..]);
  }

  /** A sequence that undoes a permutation is itself one. */
  lemma InverseIsPermutation(p: seq<int>, s: seq<int>)
    requires IsPermutation(p, |p|) && |s| == |p|
    requires forall k :: 0 <= k < |p| ==> s[p[k]] == k
    ensures IsPermutation(s, |p|)
    ensures forall i :: 0 <= i < |p| ==> p[s[i]] == i
  {
    var n := |p|;
    forall i | 0 <= i < n
      ensures 0 <= s[i] < n && p[s[i]] == i
    {
      assert Covers(p, i);
      var k :| 0 <= k < n && p[k] == i;
    }
    forall k | 0 <= k < n
      ensures Covers(s, k)
    {
      assert s[p[k]] == k;
    }
  }

  /** Inverting the sorting permutation orders the elements: an element
      below another gets a lower score. */
  lemma InverseOrdersElements(a: seq<int>, p: seq<int>, s: seq<int>)
    requires IsArgsort(a, p) && |s| == |a|
    requires forall i :: 0 <= i < |a| ==> 0 <= s[i] < |a| && p[s[i]] == i
    ensures forall i, j :: 0 <= i < |a| && 0 <= j < |a| && a[i] < a[j] ==> s[i] < s[j]
  {
  }

  /** The documented example: the scores of (2, 5, 3, 1), sorted by the
      indices (3, 0, 2, 1), are (1, 3, 2, 0). */
  lemma DocumentedExample(scores: seq<int>)
    requires |scores| == 4
    requires forall i :: 0 <= i < 4 ==> scores[[3, 0, 2, 1][i]] == i
    ensures IsArgsort([2, 5, 3, 1], [3, 0, 2, 1])
    ensures scores == [1, 3, 2, 0]
  {
    var p := [3, 0, 2, 1];
    assert forall i :: 0 <= i < 4 ==> p[[1, 3, 2, 0][i]] == i;
    assert scores[p[0]] == 0 && scores[p[1]] == 1 && scores[p[2]] == 2 && scores[p[3]] == 3;
  }
}
