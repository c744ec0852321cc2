/** The glyph assignment of `generateNameText`: after the text has been
    rasterised into a list of pixel points, the particles are shuffled and
    the first `|pixels|` of the shuffled order take one pixel each and become
    text particles; the rest take a point on a distant sphere shell and stop
    being text particles. The shuffle is an arbitrary permutation and the
    shell points arbitrary values. */
module Glyph {
  import opened Geometry
  import opened Formation

  /** `order[i]` is the position, in the particle list, of the `i`-th
      particle after shuffling: every position occurs exactly once. */
  predicate IsPermutation(order: seq<nat>, n: nat) {
    && |order| == n
    && (forall i :: 0 <= i < n ==> order[i] < n)
    && (forall i, j :: 0 <= i < j < n ==> order[i] != order[j])
  }

  /** What the `i`-th shuffled particle becomes: text particle on pixel `i`
      while pixels remain, otherwise a non-member on its shell point. */
  function Assigned(p: Particle, i: nat, pixels: seq<Vec3>, shell: seq<Vec3>): (r: Particle)
    requires i < |shell|
    ensures r.isText <==> i < |pixels|
    ensures r.posText == (if i < |pixels| then pixels[i] else shell[i])
    ensures r.(posText := p.posText, isText := p.isText) == p
  {
    if i < |pixels| then p.(posText := pixels[i], isText := true)
    else p.(posText := shell[i], isText := false)
  }

  /** How many particles end up on the glyph: one per pixel, as long as
      particles last. */
  function MemberCount(pixels: nat, particles: nat): nat {
    if pixels <= particles then pixels else particles
  }

  /** The positions of the text particles. */
  function TextIndices(ps: seq<Particle>): set<nat> {
    set k: nat | k < |ps| && ps[k].isText
  }

  /** The positions the first `m` shuffled particles occupy. */
  function Image(order: seq<nat>, m: nat): set<nat>
    requires m <= |order|
  {
    set i | 0 <= i < m :: order[i]
  }

  /** The assignment loop. `shell[i]` is the random shell point the `i`-th
      shuffled particle would receive. */
  method AssignGlyph(ps: seq<Particle>, order: seq<nat>, pixels: seq<Vec3>, shell: seq<Vec3>)
    returns (out: seq<Particle>)
    requires IsPermutation(order, |ps|) && |shell| == |ps|
    ensures |out| == |ps|
    ensures forall i :: 0 <= i < |ps| ==> out[order[i]] == Assigned(ps[order[i]], i, pixels, shell)
    ensures forall k :: 0 <= k < |ps| ==> out[k].(posText := ps[k].posText, isText := ps[k].isText) == ps[k]
    ensures forall k :: 0 <= k < |ps| && out[k].isText ==> out[k].posText in pixels
    ensures TextIndices(out) == Image(order, MemberCount(|pixels|, |ps|))
    ensures |TextIndices(out)| == MemberCount(|pixels|, |ps|)
  {
    out := ps;
    var i := 0;
    while i < |ps|
      invariant 0 <= i <= |ps| && |out| == |ps|
      invariant forall j :: 0 <= j < i ==> out[order[j]] == Assigned(ps[order[j]], j, pixels, shell)
      invariant forall k :: 0 <= k < |ps| && k !in Image(order, i) ==> out[k] == ps[k]
    {
      out := out[order[i] := Assigned(ps[order[i]], i, pixels, shell)];
      i := i + 1;
    }
    Covers(order, |ps|);
    forall k | 0 <= k < |ps|
      ensures out[k].(posText := ps[k].posText, isText := ps[k].isText) == ps[k]
      ensures out[k].isText ==> out[k].posText in pixels
      ensures out[k].isText <==> k in Image(order, MemberCount(|pixels|, |ps|))
    {
      assert k in Image(order, |ps|);
      var j :| 0 <= j < |ps| && order[j] == k;
      assert out[k] == Assigned(ps[k], j, pixels, shell);
      if k in Image(order, MemberCount(|pixels|, |ps|)) {
        var j' :| 0 <= j' < MemberCount(|pixels|, |ps|) && order[j'] == k;
        assert j' == j;
      }
    }
    assert TextIndices(out) == Image(order, MemberCount(|pixels|, |ps|));
    ImageSize(order, |ps|, MemberCount(|pixels|, |ps|));
  }

  /** Distinct positions give an image as large as the prefix. */
  lemma {:induction false} ImageSize(order: seq<nat>, n: nat, m: nat)
    requires IsPermutation(order, n) && m <= n
    ensures |Image(order, m)| == m
  {
    if m > 0 {
      ImageSize(order, n, m - 1);
      assert Image(order, m) == Image(order, m - 1) + {order[m - 1]};
      assert order[m - 1] !in Image(order, m - 1);
    }
  }

  /** `{0, ..., n-1}`. */
  function Below(n: nat): (r: set<nat>)
    ensures forall k :: k in r <==> 0 <= k < n
  {
    if n == 0 then {} else Below(n - 1) + {n - 1}
  }

  lemma {:induction false} BelowSize(n: nat)
    ensures |Below(n)| == n
  {
    if n > 0 {
      BelowSize(n - 1);
    }
  }

  /** A permutation reaches every position: its image is all of
      `{0, ..., n-1}`, by counting. */
  lemma Covers(order: seq<nat>, n: nat)
    requires IsPermutation(order, n)
    ensures Image(order, n) == Below(n)
  {
    ImageSize(order, n, n);
    BelowSize(n);
    assert Image(order, n) <= Below(n);
    assert Below(n) * Image(order, n) == Image(order, n);
    assert |Below(n) - Image(order, n)| == 0;
    assert Below(n) <= Image(order, n) by {
      forall k | k in Below(n)
        ensures k in Image(order, n)
      {
        assert k !in Below(n) - Image(order, n);
      }
    }
  }
}
