/** Index permutations: the order in which a shuffle leaves `n` items.

    The planner and the quest page shuffle the places returned by the search
    with `sort(() => 0.5 - Math.random())`. Whatever order the random
    comparator produces, the sort returns a rearrangement of the same array;
    it is described here by the sequence `p` of original positions, so that
    the item now at position `i` is the one that was at `p[i]`. */
module Permutations {

  /** No position is listed twice. */
  predicate Injective(p: seq<nat>) {
    forall i, j :: 0 <= i < j < |p| ==> p[i] != p[j]
  }

  /** `p` lists each of the positions `0 .. n-1` exactly once. */
  predicate IsPermutation(p: seq<nat>, n: nat) {
    |p| == n && (forall i :: 0 <= i < n ==> p[i] < n) && Injective(p)
  }

  /** `s` rearranged by `p`. */
  function Apply<T>(s: seq<T>, p: seq<nat>): (r: seq<T>)
    requires IsPermutation(p, |s|)
    ensures |r| == |s|
    ensures forall i :: 0 <= i < |r| ==> r[i] == s[p[i]]
  {
    seq(|p|, i requires 0 <= i < |p| => s[p[i]])
  }

  /** `p` without its entry at position `k`. */
  function RemoveAt(p: seq<nat>, k: nat): (q: seq<nat>)
    requires k < |p|
    ensures |q| == |p| - 1
    ensures forall i :: 0 <= i < k ==> q[i] == p[i]
    ensures forall i :: k <= i < |q| ==> q[i] == p[i + 1]
  {
    p[..k] + p[k + 1..]
  }

  /** More than `n` positions, all below `n`, cannot all be different. */
  lemma {:induction false} PigeonHole(p: seq<nat>, n: nat)
    requires 1 <= n < |p|
    requires forall i :: 0 <= i < |p| ==> p[i] < n
    ensures !Injective(p)
  {
    if n == 1 {
      assert p[0] == 0 == p[1];
    } else if k :| 0 <= k < |p| && p[k] == n - 1 {
      if l :| 0 <= l < |p| && l != k && p[l] == n - 1 {
        if k < l { assert p[k] == p[l]; } else { assert p[l] == p[k]; }
      } else {
        var q := RemoveAt(p, k);
        forall i | 0 <= i < |q| ensures q[i] < n - 1 {
          if i < k { assert p[i] != n - 1; } else { assert p[i + 1] != n - 1; }
        }
        PigeonHole(q, n - 1);
        var i, j :| 0 <= i < j < |q| && q[i] == q[j];
        var i', j' := if i < k then i else i + 1, if j < k then j else j + 1;
        assert i' < j' && p[i'] == p[j'];
      }
    } else {
      forall i | 0 <= i < |p| ensures p[i] < n - 1 {
        assert p[i] != n - 1;
      }
      PigeonHole(p, n - 1);
    }
  }

  /** Every position below `n` occurs in a permutation of `n` positions. */
  lemma {:induction false} PermutationCovers(p: seq<nat>, n: nat, v: nat)
    requires IsPermutation(p, n)
    requires v < n
    ensures exists k :: 0 <= k < n && p[k] == v
  {
    if n == 1 {
      assert p[0] == v;
    } else if k :| 0 <= k < n && p[k] == v {
    } else {
      // Close the gap at `v`: the result is `n` different positions below `n - 1`.
      var q := seq(n, i requires 0 <= i < n => if p[i] > v then p[i] - 1 else p[i]);
      forall i, j | 0 <= i < j < n ensures q[i] != q[j] {
        assert p[i] != p[j] && p[i] != v && p[j] != v;
      }
      forall i | 0 <= i < n ensures q[i] < n - 1 {
        assert p[i] != v;
      }
      PigeonHole(q, n - 1);
      assert false;
    }
  }

  /** Removing the entry that holds the last position leaves a permutation
      of the positions below it. */
  lemma RemoveLast(p: seq<nat>, n: nat, k: nat)
    requires IsPermutation(p, n)
    requires k < n && p[k] == n - 1
    ensures IsPermutation(RemoveAt(p, k), n - 1)
  {
  }

  /** Shuffling `s` puts its last item at `k` and shuffles the rest around it. */
  lemma ApplySplit<T>(s: seq<T>, p: seq<nat>, k: nat)
    requires |s| > 0 && IsPermutation(p, |s|)
    requires k < |s| && p[k] == |s| - 1
    requires IsPermutation(RemoveAt(p, k), |s| - 1)
    ensures Apply(s, p) == Apply(s[..|s| - 1], RemoveAt(p, k))[..k] + [s[|s| - 1]]
                         + Apply(s[..|s| - 1], RemoveAt(p, k))[k..]
  {
  }

  /** Inserting `x` anywhere into a rearrangement of `s'` rearranges `s' + [x]`. */
  lemma InsertKeepsMultiset<T>(a': seq<T>, s': seq<T>, x: T, k: nat)
    requires k <= |a'| && multiset(a') == multiset(s')
    ensures multiset(a'[..k] + [x] + a'[k..]) == multiset(s' + [x])
  {
    assert a' == a'[..k] + a'[k..];
  }

  /** A shuffle keeps every item, each as often as before. */
  lemma {:induction false} ApplyPreservesMultiset<T>(s: seq<T>, p: seq<nat>)
    requires IsPermutation(p, |s|)
    ensures multiset(Apply(s, p)) == multiset(s)
  {
    var n := |s|;
    if n == 0 {
      assert Apply(s, p) == [];
    } else {
      PermutationCovers(p, n, n - 1);
      var k :| 0 <= k < n && p[k] == n - 1;
      var p', s' := RemoveAt(p, k), s[..n - 1];
      RemoveLast(p, n, k);
      ApplyPreservesMultiset(s', p');
      var a' := Apply(s', p');
      ApplySplit(s, p, k);
      InsertKeepsMultiset(a', s', s[n - 1], k);
      assert s == s' + [s[n - 1]];
    }
  }
}
