/**
 The band table: slicing the flattened frequency axis into bands on the way in, and laying
 the bands' masks end to end on the way out.
 */
module Bands {
  import opened Arith
  import opened Layout

  /** What the first `n` of some widths cover. */
  function Upto(widths: seq<nat>, n: nat): nat
    requires n <= |widths|
  {
    if n == 0 then 0 else Upto(widths, n - 1) + widths[n - 1]
  }

  function Total(widths: seq<nat>): nat {
    Upto(widths, |widths|)
  }

  lemma {:induction false} UptoGrows(widths: seq<nat>, m: nat, n: nat)
    requires m <= n <= |widths|
    ensures Upto(widths, m) <= Upto(widths, n)
  {
    if m < n { UptoGrows(widths, m, n - 1); }
  }

  datatype Config = Config(nfft: nat, channels: nat, bands: seq<nat>) {
    function Bins(): nat {
      nfft / 2 + 1
    }

    /** Width of each band once channels and complex parts are unrolled into it. */
    function BandFeatures(): (w: seq<nat>)
      ensures |w| == |bands| && forall b :: 0 <= b < |bands| ==> w[b] == 2 * bands[b] * channels
    {
      seq(|bands|, b requires 0 <= b < |bands| => 2 * bands[b] * channels)
    }

    /** The bands cover every bin, or the model is refused. */
    predicate Check() {
      Total(bands) == Bins()
    }
  }

  lemma {:induction false} FeaturesUpto(c: Config, n: nat)
    requires n <= |c.bands|
    ensures Upto(c.BandFeatures(), n) == Upto(c.bands, n) * c.channels * 2
  {
    if n > 0 {
      FeaturesUpto(c, n - 1);
      MulDistribute(Upto(c.bands, n - 1), c.bands[n - 1], c.channels);
    }
  }

  /** A table is accepted exactly if its bands, unrolled, cover the axis of all `nfft / 2 + 1` bins. */
  lemma CheckIs(c: Config)
    requires c.channels > 0
    ensures c.Check() <==> Total(c.BandFeatures()) == (c.nfft / 2 + 1) * c.channels * 2
  {
    FeaturesUpto(c, |c.bands|);
    var n := c.nfft / 2 + 1;
    if Total(c.bands) < n { MulLe(Total(c.bands) + 1, n, c.channels); MulDistribute(Total(c.bands), 1, c.channels); }
    if n < Total(c.bands) { MulLe(n + 1, Total(c.bands), c.channels); MulDistribute(n, 1, c.channels); }
  }

  /** Band `b` of a flattened axis. */
  function Slice<T>(x: seq<T>, widths: seq<nat>, b: nat): (r: seq<T>)
    requires b < |widths| && |x| == Total(widths)
    ensures |r| == widths[b]
  {
    UptoGrows(widths, b + 1, |widths|);
    x[Upto(widths, b)..Upto(widths, b + 1)]
  }

  /** One frame's features to one projection per band. */
  method Split<T>(x: seq<real>, widths: seq<nat>, bands: seq<seq<real> -> T>) returns (out: seq<T>)
    requires |x| == Total(widths) && |bands| == |widths|
    ensures |out| == |bands|
    ensures forall b :: 0 <= b < |bands| ==> out[b] == bands[b](Slice(x, widths, b))
  {
    out := [];
    var at := 0;
    for b := 0 to |bands|
      invariant at == Upto(widths, b) && |out| == b
      invariant forall k :: 0 <= k < b ==> out[k] == bands[k](Slice(x, widths, k))
    {
      UptoGrows(widths, b + 1, |widths|);
      var width := widths[b];
      var slice := x[at..at + width];
      assert slice == Slice(x, widths, b);
      out := out + [bands[b](slice)];
      at := at + width;
    }
  }

  /** The bands laid end to end. */
  function Concat(parts: seq<seq<real>>): seq<real> {
    if parts == [] then [] else Concat(parts[..|parts| - 1]) + parts[|parts| - 1]
  }

  lemma {:induction false} ConcatIs(parts: seq<seq<real>>, widths: seq<nat>, n: nat)
    requires |parts| == |widths| && forall b :: 0 <= b < |parts| ==> |parts[b]| == widths[b]
    requires n <= |parts|
    ensures |Concat(parts[..n])| == Upto(widths, n)
  {
    if n > 0 {
      ConcatIs(parts, widths, n - 1);
      assert parts[..n][..n - 1] == parts[..n - 1];
    }
  }

  /** Cut where it was joined, the axis gives each band back. */
  lemma {:induction false} SliceOfConcat(parts: seq<seq<real>>, widths: seq<nat>, n: nat, b: nat)
    requires |parts| == |widths| && forall b :: 0 <= b < |parts| ==> |parts[b]| == widths[b]
    requires b < n <= |parts|
    ensures Upto(widths, b) <= Upto(widths, b + 1) <= |Concat(parts[..n])|
    ensures Concat(parts[..n])[Upto(widths, b)..Upto(widths, b + 1)] == parts[b]
  {
    ConcatIs(parts, widths, n);
    ConcatIs(parts, widths, n - 1);
    assert parts[..n][..n - 1] == parts[..n - 1];
    if b < n - 1 { SliceOfConcat(parts, widths, n - 1, b); }
  }

  /** A gate: the first half of a doubled vector weighted by the second. */
  function Gate(both: seq<real>, sigmoid: real -> real): (r: seq<real>)
    ensures |r| == |both| / 2
    ensures forall i :: 0 <= i < |r| ==> r[i] == both[i] * sigmoid(both[|both| / 2 + i])
  {
    var half := |both| / 2;
    seq(half, i requires 0 <= i < half => both[i] * sigmoid(both[half + i]))
  }

  /** One frame's mask: each band estimates its own features, gated, in band order. */
  method Mask<T>(x: seq<T>, widths: seq<nat>, bands: seq<T -> seq<real>>, sigmoid: real -> real)
    returns (out: seq<real>)
    requires |x| == |bands| == |widths|
    requires forall b :: 0 <= b < |bands| ==> |bands[b](x[b])| == widths[b] * 2
    ensures |out| == Total(widths)
    ensures forall b :: 0 <= b < |bands| ==> Slice(out, widths, b) == Gate(bands[b](x[b]), sigmoid)
  {
    var parts: seq<seq<real>> := [];
    for b := 0 to |bands|
      invariant |parts| == b
      invariant forall k :: 0 <= k < b ==> parts[k] == Gate(bands[k](x[k]), sigmoid) && |parts[k]| == widths[k]
    {
      var both := bands[b](x[b]);
      parts := parts + [Gate(both, sigmoid)];
    }
    out := Concat(parts);
    assert parts[..|parts|] == parts;
    ConcatIs(parts, widths, |parts|);
    forall b | 0 <= b < |parts| ensures Slice(out, widths, b) == parts[b] {
      SliceOfConcat(parts, widths, |parts|, b);
    }
  }

  /** Each place on the axis is in exactly one band. */
  lemma {:induction false} OneBandEach(widths: seq<nat>, n: nat, at: nat) returns (b: nat)
    requires n <= |widths| && at < Upto(widths, n)
    ensures b < n && Upto(widths, b) <= at < Upto(widths, b + 1)
    ensures forall k :: 0 <= k < |widths| && Upto(widths, k) <= at < Upto(widths, k + 1) ==> k == b
  {
    if at >= Upto(widths, n - 1) { b := n - 1; } else { b := OneBandEach(widths, n - 1, at); }
    forall k | 0 <= k < |widths| && k != b ensures !(Upto(widths, k) <= at < Upto(widths, k + 1)) {
      if k < b { UptoGrows(widths, k + 1, b); } else { UptoGrows(widths, b + 1, k); }
    }
  }

  lemma FeatureOffset(channels: nat, f: nat, first: nat, channel: nat, part: nat)
    requires first <= f
    ensures Feature(channels, f, channel, part)
            == first * channels * 2 + Feature(channels, f - first, channel, part)
  {
    MulDistribute(f - first, first, channels);
  }

  lemma FeatureFits(channels: nat, bins: nat, f: nat, channel: nat, part: nat)
    requires f < bins && channel < channels && part < 2
    ensures Feature(channels, f, channel, part) < bins * channels * 2
  {
    PairFits(bins, channels, f, channel);
  }

  lemma WidthIs(c: Config, b: nat)
    requires b < |c.bands|
    ensures c.BandFeatures()[b] == c.bands[b] * c.channels * 2
  {
    assert 2 * c.bands[b] * c.channels == c.bands[b] * c.channels * 2;
  }

  /**
   A table that `Check` accepts puts every part of every channel of a bin in the slice of the
   bin's own band, at the bin's offset in that band.
   */
  lemma BandHoldsItsBins<T>(c: Config, x: seq<T>, b: nat, f: nat, channel: nat, part: nat)
    requires c.Check() && |x| == c.Bins() * c.channels * 2
    requires b < |c.bands| && Upto(c.bands, b) <= f < Upto(c.bands, b + 1) && channel < c.channels && part < 2
    ensures |x| == Total(c.BandFeatures()) && f < c.Bins()
    ensures Feature(c.channels, f, channel, part) < |x|
    ensures Feature(c.channels, f - Upto(c.bands, b), channel, part) < c.BandFeatures()[b]
    ensures Slice(x, c.BandFeatures(), b)[Feature(c.channels, f - Upto(c.bands, b), channel, part)]
            == x[Feature(c.channels, f, channel, part)]
  {
    var widths, first := c.BandFeatures(), Upto(c.bands, b);
    FeaturesUpto(c, |c.bands|);
    FeaturesUpto(c, b);
    UptoGrows(c.bands, b + 1, |c.bands|);
    FeatureFits(c.channels, c.Bins(), f, channel, part);
    FeatureFits(c.channels, c.bands[b], f - first, channel, part);
    WidthIs(c, b);
    FeatureOffset(c.channels, f, first, channel, part);
    SliceAt(x, widths, b, Feature(c.channels, f - first, channel, part));
  }

  lemma SliceAt<T>(x: seq<T>, widths: seq<nat>, b: nat, i: nat)
    requires b < |widths| && |x| == Total(widths) && i < widths[b]
    ensures Upto(widths, b) + i < |x| && Slice(x, widths, b)[i] == x[Upto(widths, b) + i]
  {
    UptoGrows(widths, b + 1, |widths|);
  }
}
