/**
 * The shuffle-index generator `get_shuffle`. Large playlists do not fit in
 * the session cookie, so only a shuffling pattern is stored: the list
 * 0, 1, ..., n-1 rearranged by the standard library's `random.shuffle`.
 *
 * The random source is not modelled: each swap partner is chosen
 * nondeterministically, so what is proved holds for every outcome.
 */
module Shuffle {

  /** The positions 0, 1, ..., n-1 in ascending order (`list(range(n))`). */
  function Iota(n: nat): seq<nat>
  {
    if n == 0 then [] else Iota(n - 1) + [n - 1]
  }

  /** p holds each of the positions 0 .. n-1, and nothing else, exactly once. */
  ghost predicate IsPermutation(p: seq<nat>, n: nat)
  {
    multiset(p) == multiset(Iota(n))
  }

  lemma {:induction false} IotaAt(n: nat)
    ensures |Iota(n)| == n
    ensures forall i :: 0 <= i < n ==> Iota(n)[i] == i
  {
    if n > 0 {
      IotaAt(n - 1);
    }
  }

  /** Each position below n occurs once in Iota(n); no other value occurs. */
  lemma {:induction false} IotaCount(n: nat, k: nat)
    ensures multiset(Iota(n))[k] == if k < n then 1 else 0
  {
    if n > 0 {
      IotaCount(n - 1, k);
    }
  }

  /**
   * A permutation of 0 .. n-1 has length n, its entries are valid
   * positions, every position occurs exactly once, and no two entries agree.
   */
  lemma PermutationFacts(p: seq<nat>, n: nat)
    requires IsPermutation(p, n)
    ensures |p| == n
    ensures forall i :: 0 <= i < |p| ==> p[i] < n
    ensures forall k :: 0 <= k < n ==> multiset(p)[k] == 1
    ensures forall i, j :: 0 <= i < j < |p| ==> p[i] != p[j]
  {
    IotaAt(n);
    assert |p| == |multiset(p)| == |multiset(Iota(n))| == n;
    forall i | 0 <= i < |p|
      ensures p[i] < n
    {
      assert p[i] in multiset(p);
      IotaCount(n, p[i]);
    }
    forall k | 0 <= k < n
      ensures multiset(p)[k] == 1
    {
      IotaCount(n, k);
    }
    forall i, j | 0 <= i < j < |p|
      ensures p[i] != p[j]
    {
      assert p == p[..j] + p[j..];
      assert p[i] in multiset(p[..j]);
      assert p[j] in multiset(p[j..]);
      assert multiset(p)[p[j]] == multiset(p[..j])[p[j]] + multiset(p[j..])[p[j]];
    }
  }

  /**
   * `random.shuffle`: for i from the last position down to 1, swap the item
   * at i with the item at a position j chosen from 0 .. i.
   */
  method ShuffleInPlace<T>(a: array<T>)
    modifies a
    ensures multiset(a[..]) == multiset(old(a[..]))
  {
    var i := a.Length;
    while i > 1
      invariant 0 <= i <= a.Length
      invariant multiset(a[..]) == multiset(old(a[..]))
    {
      i := i - 1;
      var j :| 0 <= j <= i;
      a[i], a[j] := a[j], a[i];
    }
  }

  /**
   * `get_shuffle`: the shuffling pattern for a list of tracks; only the
   * list's length matters.
   */
  method GetShuffle<T>(tracks: seq<T>) returns (perm: seq<nat>)
    ensures IsPermutation(perm, |tracks|)
    ensures |perm| == |tracks|
    ensures forall i :: 0 <= i < |perm| ==> perm[i] < |tracks|
    ensures forall k :: 0 <= k < |tracks| ==> multiset(perm)[k] == 1
    ensures |tracks| == 0 ==> perm == []
    ensures |tracks| == 1 ==> perm == [0]
  {
    var sequence := new nat[|tracks|](i => i);
    IotaAt(|tracks|);
    assert sequence[..] == Iota(|tracks|);
    ShuffleInPlace(sequence);
    perm := sequence[..];
    PermutationFacts(perm, |tracks|);
  }
}
