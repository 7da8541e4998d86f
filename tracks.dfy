/**
 * Tracks, and the index maps that apply a shuffling pattern to them:
 * `[track_names[i] for i in session["shuffled"]]` (the shuffled view),
 * `[track_names[i][1] for i in session["shuffled"]]` (the identifiers
 * written back) and `get_names` (the display names).
 */
module Tracks {
  import opened Wrappers
  import opened Shuffle

  /**
   * A playlist entry as the service reports it: display name and track
   * identifier. The identifier is None for tracks withdrawn from the
   * catalogue; it is passed along unchanged.
   */
  datatype Track = Track(name: string, id: TrackId)

  /** A track identifier as the service reports it; None for a withdrawn track. */
  type TrackId = Option<string>

  /** Every entry of perm is a valid position in a list of length n. */
  predicate InRange(perm: seq<nat>, n: nat)
  {
    forall i :: 0 <= i < |perm| ==> perm[i] < n
  }

  /** xs read through perm: the i-th result is xs[perm[i]]. */
  function Gather<T>(xs: seq<T>, perm: seq<nat>): (r: seq<T>)
    requires InRange(perm, |xs|)
    ensures |r| == |perm|
    ensures forall i :: 0 <= i < |perm| ==> r[i] == xs[perm[i]]
  {
    seq(|perm|, i requires 0 <= i < |perm| => xs[perm[i]])
  }

  /**
   * `[xs[i] for i in perm]`: None where Python raises IndexError, which
   * happens exactly when some entry of perm is not a position of xs.
   * Stored patterns come only from `get_shuffle`, so their entries are
   * never negative and Python's negative indexing does not arise.
   */
  function Dereference<T>(xs: seq<T>, perm: seq<nat>): (r: Option<seq<T>>)
    ensures r.Some? <==> InRange(perm, |xs|)
    ensures r.Some? ==> |r.value| == |perm|
    ensures r.Some? ==> forall i :: 0 <= i < |perm| ==> r.value[i] == xs[perm[i]]
  {
    if InRange(perm, |xs|) then Some(Gather(xs, perm)) else None
  }

  /** `get_names`: the first component of each pair, in order. */
  function Names(tracks: seq<Track>): (r: seq<string>)
    ensures |r| == |tracks|
    ensures forall i :: 0 <= i < |tracks| ==> r[i] == tracks[i].name
  {
    seq(|tracks|, i requires 0 <= i < |tracks| => tracks[i].name)
  }

  /** The second component of each pair, in order. */
  function Ids(tracks: seq<Track>): (r: seq<TrackId>)
    ensures |r| == |tracks|
    ensures forall i :: 0 <= i < |tracks| ==> r[i] == tracks[i].id
  {
    seq(|tracks|, i requires 0 <= i < |tracks| => tracks[i].id)
  }

  /**
   * The identifiers handed to the batcher when saving:
   * `[track_names[item][1] for item in session["shuffled"]]`.
   */
  function WriteBackIds(trackNames: seq<Track>, shuffled: seq<nat>): (r: Option<seq<TrackId>>)
    ensures r.Some? <==> InRange(shuffled, |trackNames|)
    ensures r.Some? ==> |r.value| == |shuffled|
    ensures r.Some? ==> forall i :: 0 <= i < |shuffled| ==> r.value[i] == trackNames[shuffled[i]].id
  {
    if InRange(shuffled, |trackNames|) then
      Some(seq(|shuffled|, i requires 0 <= i < |shuffled| => trackNames[shuffled[i]].id))
    else
      None
  }

  lemma {:induction false} GatherIota<T>(xs: seq<T>)
    ensures InRange(Iota(|xs|), |xs|)
    ensures Gather(xs, Iota(|xs|)) == xs
  {
    IotaAt(|xs|);
  }

  lemma GatherConcat<T>(xs: seq<T>, p: seq<nat>, q: seq<nat>)
    requires InRange(p, |xs|) && InRange(q, |xs|)
    ensures InRange(p + q, |xs|)
    ensures Gather(xs, p + q) == Gather(xs, p) + Gather(xs, q)
  {
  }

  /** Taking the same value out of two equal multisets leaves equal multisets. */
  lemma RemoveMatching(p: seq<nat>, q: seq<nat>, j: nat)
    requires p != [] && j < |q| && q[j] == p[0]
    requires multiset(p) == multiset(q)
    ensures multiset(p[1..]) == multiset(q[..j] + q[j + 1..])
  {
    var x := p[0];
    assert p == [x] + p[1..];
    assert q == q[..j] + [x] + q[j + 1..];
    assert multiset(p[1..]) == multiset(p) - multiset{x};
    assert multiset(q[..j] + q[j + 1..]) == multiset(q) - multiset{x};
  }

  /** Rearranging the pattern rearranges the result the same way. */
  lemma {:induction false} GatherMultiset<T>(xs: seq<T>, p: seq<nat>, q: seq<nat>)
    requires InRange(p, |xs|)
    requires multiset(p) == multiset(q)
    ensures InRange(q, |xs|)
    ensures multiset(Gather(xs, p)) == multiset(Gather(xs, q))
    decreases |p|
  {
    forall i | 0 <= i < |q|
      ensures q[i] < |xs|
    {
      assert q[i] in multiset(p);
    }
    if p != [] {
      var x := p[0];
      assert x in multiset(q);
      var j :| 0 <= j < |q| && q[j] == x;
      var before, after := q[..j], q[j + 1..];
      assert q == before + [x] + after;
      RemoveMatching(p, q, j);
      GatherMultiset(xs, p[1..], before + after);
      GatherConcat(xs, before, after);
      GatherConcat(xs, before, [x]);
      GatherConcat(xs, before + [x], after);
      assert p == [x] + p[1..];
      GatherConcat(xs, [x], p[1..]);
    } else {
      assert |q| == |multiset(q)| == 0;
    }
  }

  /**
   * Reading a list through a permutation of its positions never fails and
   * gives a rearrangement of the list: same length, nothing lost or
   * duplicated.
   */
  lemma DereferencePermutation<T>(xs: seq<T>, perm: seq<nat>)
    requires IsPermutation(perm, |xs|)
    ensures Dereference(xs, perm).Some?
    ensures |Dereference(xs, perm).value| == |xs|
    ensures multiset(Dereference(xs, perm).value) == multiset(xs)
  {
    PermutationFacts(perm, |xs|);
    GatherIota(xs);
    GatherMultiset(xs, perm, Iota(|xs|));
  }

  /** Projecting names after dereferencing equals dereferencing the projected names. */
  lemma NamesCommute(trackNames: seq<Track>, perm: seq<nat>)
    requires InRange(perm, |trackNames|)
    ensures Dereference(Names(trackNames), perm) == Some(Names(Dereference(trackNames, perm).value))
  {
    var viaNames := Gather(Names(trackNames), perm);
    var viaTracks := Names(Gather(trackNames, perm));
    assert |viaNames| == |viaTracks|;
    forall i | 0 <= i < |perm|
      ensures viaNames[i] == viaTracks[i]
    {
    }
    assert viaNames == viaTracks;
  }

  /** The write-back identifiers are the identifiers of the shuffled view, in the same order. */
  lemma WriteBackIdsCommute(trackNames: seq<Track>, perm: seq<nat>)
    ensures WriteBackIds(trackNames, perm) == Dereference(Ids(trackNames), perm)
    ensures InRange(perm, |trackNames|) ==>
              WriteBackIds(trackNames, perm) == Some(Ids(Dereference(trackNames, perm).value))
  {
    if InRange(perm, |trackNames|) {
      var written := WriteBackIds(trackNames, perm).value;
      var viaIds := Gather(Ids(trackNames), perm);
      var viaTracks := Ids(Gather(trackNames, perm));
      assert |written| == |viaIds| == |viaTracks|;
      forall i | 0 <= i < |perm|
        ensures written[i] == viaIds[i] == viaTracks[i]
      {
      }
      assert written == viaIds;
      assert written == viaTracks;
    }
  }

  /**
   * The shuffled view lists the same names as the playlist, rearranged:
   * the names shown side by side by the view cover each other exactly.
   */
  lemma ShuffledNamesRearrange(trackNames: seq<Track>, perm: seq<nat>)
    requires IsPermutation(perm, |trackNames|)
    ensures Dereference(trackNames, perm).Some?
    ensures multiset(Names(Dereference(trackNames, perm).value)) == multiset(Names(trackNames))
  {
    PermutationFacts(perm, |trackNames|);
    NamesCommute(trackNames, perm);
    DereferencePermutation(Names(trackNames), perm);
  }

  /** The identifiers written back are the playlist's identifiers, rearranged. */
  lemma WriteBackIdsRearrange(trackNames: seq<Track>, perm: seq<nat>)
    requires IsPermutation(perm, |trackNames|)
    ensures WriteBackIds(trackNames, perm).Some?
    ensures |WriteBackIds(trackNames, perm).value| == |trackNames|
    ensures multiset(WriteBackIds(trackNames, perm).value) == multiset(Ids(trackNames))
  {
    PermutationFacts(perm, |trackNames|);
    WriteBackIdsCommute(trackNames, perm);
    DereferencePermutation(Ids(trackNames), perm);
  }
}
