/**
 Which number goes where on the way into and out of the RoFormer, and in demucs's packing of
 complex values as channels.

 A wrong axis order here has exactly the right shape, so the order is what is proved.
 */
module Layout {
  import opened Arith
  import opened Tensors
  import opened Sums

  // ----- into the flattened layout

  predicate Spectrogram(t: Tensor, batch: nat, channels: nat, bins: nat, frames: nat) {
    t.Valid() && t.shape == [batch, channels, bins, frames]
  }

  predicate Planar(t: Tensor, batch: nat, planes: nat, frames: nat) {
    t.Valid() && t.shape == [batch, planes, frames]
  }

  /** Where bin `f` of channel `c` keeps its real (0) or imaginary (1) part in one frame. */
  function Feature(channels: nat, f: nat, c: nat, part: nat): nat {
    Plane(channels, f, c) * 2 + part
  }

  /** And in the flattening of bins and channels alone. */
  function Plane(channels: nat, f: nat, c: nat): nat {
    f * channels + c
  }

  const BY_FRAME: seq<nat> := [0, 3, 2, 1, 4]
  const SWAP_MIDDLE: seq<nat> := [0, 2, 1, 3]

  lemma AxesAreOnce()
    ensures Permutation(BY_FRAME) && Permutation(SWAP_MIDDLE)
  {
    var p, q := BY_FRAME, SWAP_MIDDLE;
    assert p[0] == 0 && p[3] == 1 && p[2] == 2 && p[1] == 3 && p[4] == 4;
    assert q[0] == 0 && q[2] == 1 && q[1] == 2 && q[3] == 3;
  }

  function ByFrame(t: Tensor): (r: Tensor)
    requires |t.shape| == 5
    ensures r.Valid() && r.shape == [t.shape[0], t.shape[3], t.shape[2], t.shape[1], t.shape[4]]
  {
    AxesAreOnce();
    Transpose(t, BY_FRAME)
  }

  lemma ByFrameAt(t: Tensor, b: nat, c: nat, f: nat, n: nat, p: nat)
    requires |t.shape| == 5 && InBounds(t.shape, [b, c, f, n, p])
    ensures Elem(ByFrame(t), [b, n, f, c, p]) == Elem(t, [b, c, f, n, p])
  {
    AxesAreOnce();
    TransposeAt(t, BY_FRAME, [b, c, f, n, p]);
    assert Permute([b, c, f, n, p], BY_FRAME) == [b, n, f, c, p];
  }

  function SwapMiddle(t: Tensor): (r: Tensor)
    requires |t.shape| == 4
    ensures r.Valid() && r.shape == [t.shape[0], t.shape[2], t.shape[1], t.shape[3]]
  {
    AxesAreOnce();
    Transpose(t, SWAP_MIDDLE)
  }

  lemma SwapMiddleAt(t: Tensor, i: nat, j: nat, k: nat, l: nat)
    requires |t.shape| == 4 && InBounds(t.shape, [i, j, k, l])
    ensures Elem(SwapMiddle(t), [i, k, j, l]) == Elem(t, [i, j, k, l])
  {
    AxesAreOnce();
    TransposeAt(t, SWAP_MIDDLE, [i, j, k, l]);
    assert Permute([i, j, k, l], SWAP_MIDDLE) == [i, k, j, l];
  }

  lemma TwoAxes(m: nat, n: nat, i: nat, j: nat)
    ensures Size([m, n]) == m * n && Ravel([m, n], [i, j]) == i * n + j
  {
    RavelOne(m, i);
    assert [m, n][..1] == [m] && [i, j][..1] == [i];
  }

  lemma ThreeAxes(l: nat, m: nat, n: nat, i: nat, j: nat, k: nat)
    ensures Size([l, m, n]) == l * m * n && Ravel([l, m, n], [i, j, k]) == (i * m + j) * n + k
  {
    TwoAxes(l, m, i, j);
    assert [l, m, n][..2] == [l, m] && [i, j, k][..2] == [i, j];
  }

  /** The last three axes as one. */
  lemma MergeThree(a: nat, b: nat, l: nat, m: nat, n: nat, i: nat, j: nat, x: nat, y: nat, z: nat)
    ensures Size([a, b, l, m, n]) == Size([a, b, l * m * n])
    ensures Ravel([a, b, l, m, n], [i, j, x, y, z]) == Ravel([a, b, l * m * n], [i, j, (x * m + y) * n + z])
  {
    ThreeAxes(l, m, n, x, y, z);
    MergeLast([a, b], [l, m, n], [i, j], [x, y, z]);
    assert [a, b] + [l, m, n] == [a, b, l, m, n] && [i, j] + [x, y, z] == [i, j, x, y, z];
    assert [a, b] + [l * m * n] == [a, b, l * m * n];
    assert [i, j] + [(x * m + y) * n + z] == [i, j, (x * m + y) * n + z];
  }

  /** The two axes after the first as one. */
  lemma MergeMiddle(a: nat, m: nat, n: nat, b: nat, i: nat, x: nat, y: nat, j: nat)
    ensures Size([a, m, n, b]) == Size([a, m * n, b])
    ensures Ravel([a, m, n, b], [i, x, y, j]) == Ravel([a, m * n, b], [i, x * n + y, j])
  {
    TwoAxes(m, n, x, y);
    MergeAxes([a], [m, n], [b], [i], [x, y], [j]);
    assert [a] + [m, n] + [b] == [a, m, n, b] && [i] + [x, y] + [j] == [i, x, y, j];
    assert [a] + [m * n] + [b] == [a, m * n, b] && [i] + [x * n + y] + [j] == [i, x * n + y, j];
  }

  /** The last two axes as one. */
  lemma MergeTwo(a: nat, b: nat, m: nat, n: nat, i: nat, j: nat, x: nat, y: nat)
    ensures Size([a, b, m, n]) == Size([a, b, m * n])
    ensures Ravel([a, b, m, n], [i, j, x, y]) == Ravel([a, b, m * n], [i, j, x * n + y])
  {
    TwoAxes(m, n, x, y);
    MergeLast([a, b], [m, n], [i, j], [x, y]);
    assert [a, b] + [m, n] == [a, b, m, n] && [i, j] + [x, y] == [i, j, x, y];
    assert [a, b] + [m * n] == [a, b, m * n] && [i, j] + [x * n + y] == [i, j, x * n + y];
  }

  /** A mixed-radix digit pair is in range. */
  lemma PairFits(m: nat, n: nat, x: nat, y: nat)
    requires x < m && y < n
    ensures x * n + y < m * n
  {
    MulLe(x + 1, m, n);
    MulDistribute(x, 1, n);
  }

  /** Real and imaginary parts on a last axis. */
  function Paired(re: Tensor, im: Tensor): (r: Tensor)
    requires |re.shape| == 4
    ensures r.Valid() && r.shape == re.shape + [2]
  {
    assert re.shape[..4] == re.shape && re.shape[4..] == [];
    Stack(re, im, 4)
  }

  lemma PairedAt(re: Tensor, im: Tensor, b: nat, c: nat, f: nat, n: nat, part: nat)
    requires |re.shape| == 4 && InBounds(re.shape, [b, c, f, n]) && part < 2
    ensures Elem(Paired(re, im), [b, c, f, n, part]) == Elem(if part == 0 then re else im, [b, c, f, n])
  {
    StackAt(re, im, [b, c, f, n], part, []);
    assert [b, c, f, n] + [] == [b, c, f, n] && [b, c, f, n] + [part] + [] == [b, c, f, n, part];
  }

  /** Both parts of the spectrogram on one axis, bins outermost. */
  function Interleave(re: Tensor, im: Tensor): (r: Tensor)
    requires |re.shape| == 4
    ensures r.Valid() && r.shape == [re.shape[0], re.shape[3], re.shape[2] * re.shape[1] * 2]
  {
    var batch, channels, bins, frames := re.shape[0], re.shape[1], re.shape[2], re.shape[3];
    MergeThree(batch, frames, bins, channels, 2, 0, 0, 0, 0, 0);
    Reshape(ByFrame(Paired(re, im)), [batch, frames, bins * channels * 2])
  }

  lemma FlattenAt(t: Tensor, batch: nat, frames: nat, bins: nat, channels: nat,
                  b: nat, n: nat, f: nat, c: nat, part: nat)
    requires t.Valid() && t.shape == [batch, frames, bins, channels, 2]
    requires b < batch && n < frames && f < bins && c < channels && part < 2
    ensures Size([batch, frames, bins * channels * 2]) == Size(t.shape)
    ensures Feature(channels, f, c, part) < bins * channels * 2
    ensures Elem(Reshape(t, [batch, frames, bins * channels * 2]), [b, n, Feature(channels, f, c, part)])
            == Elem(t, [b, n, f, c, part])
  {
    PairFits(bins, channels, f, c);
    PairFits(bins * channels, 2, f * channels + c, part);
    MergeThree(batch, frames, bins, channels, 2, b, n, f, c, part);
    ReshapeAt(t, [batch, frames, bins * channels * 2], [b, n, f, c, part], [b, n, Feature(channels, f, c, part)]);
  }

  /** Bin `f` of channel `c` is found at its own feature of its own frame. */
  lemma InterleaveAt(
    re: Tensor, im: Tensor, batch: nat, channels: nat, bins: nat, frames: nat,
    b: nat, c: nat, f: nat, n: nat, part: nat)
    requires Spectrogram(re, batch, channels, bins, frames) && Spectrogram(im, batch, channels, bins, frames)
    requires b < batch && c < channels && f < bins && n < frames && part < 2
    ensures Feature(channels, f, c, part) < bins * channels * 2
    ensures Elem(Interleave(re, im), [b, n, Feature(channels, f, c, part)])
            == Elem(if part == 0 then re else im, [b, c, f, n])
  {
    var ordered := ByFrame(Paired(re, im));
    PairedAt(re, im, b, c, f, n, part);
    assert Paired(re, im).shape == [batch, channels, bins, frames, 2];
    ByFrameAt(Paired(re, im), b, c, f, n, part);
    FlattenAt(ordered, batch, frames, bins, channels, b, n, f, c, part);
  }

  // ----- a mask applied

  /** The mask with its parts on a last axis, planes before frames. */
  function MaskByPlane(mask: Tensor, batch: nat, frames: nat, planes: nat): (r: Tensor)
    requires mask.Valid() && mask.shape == [batch, frames, planes * 2]
    ensures r.Valid() && r.shape == [batch, planes, frames, 2]
  {
    MergeTwo(batch, frames, planes, 2, 0, 0, 0, 0);
    SwapMiddle(Reshape(mask, [batch, frames, planes, 2]))
  }

  lemma MaskByPlaneAt(mask: Tensor, batch: nat, frames: nat, planes: nat, b: nat, n: nat, plane: nat, part: nat)
    requires mask.Valid() && mask.shape == [batch, frames, planes * 2]
    requires b < batch && n < frames && plane < planes && part < 2
    ensures Elem(MaskByPlane(mask, batch, frames, planes), [b, plane, n, part]) == Elem(mask, [b, n, plane * 2 + part])
  {
    MergeTwo(batch, frames, planes, 2, 0, 0, 0, 0);
    MergeTwo(batch, frames, planes, 2, b, n, plane, part);
    PairFits(planes, 2, plane, part);
    ReshapeAt(mask, [batch, frames, planes, 2], [b, n, plane * 2 + part], [b, n, plane, part]);
    SwapMiddleAt(Reshape(mask, [batch, frames, planes, 2]), b, n, plane, part);
  }

  function MaskPart(mask: Tensor, batch: nat, frames: nat, planes: nat, part: nat): (r: Tensor)
    requires mask.Valid() && mask.shape == [batch, frames, planes * 2]
    ensures Planar(r, batch, planes, frames)
  {
    Pick(MaskByPlane(mask, batch, frames, planes), part)
  }

  lemma MaskPartAt(mask: Tensor, batch: nat, frames: nat, planes: nat, b: nat, n: nat, plane: nat, part: nat)
    requires mask.Valid() && mask.shape == [batch, frames, planes * 2]
    requires b < batch && n < frames && plane < planes && part < 2
    ensures Elem(MaskPart(mask, batch, frames, planes, part), [b, plane, n]) == Elem(mask, [b, n, plane * 2 + part])
  {
    MaskByPlaneAt(mask, batch, frames, planes, b, n, plane, part);
    PickAt(MaskByPlane(mask, batch, frames, planes), part, [b, plane, n]);
    assert [b, plane, n] + [part] == [b, plane, n, part];
  }

  /** So the two features of a bin and channel are its mask's two parts. */
  lemma MaskPartsAt(
    mask: Tensor, batch: nat, channels: nat, bins: nat, frames: nat, b: nat, c: nat, f: nat, n: nat)
    requires mask.Valid() && mask.shape == [batch, frames, bins * channels * 2]
    requires b < batch && c < channels && f < bins && n < frames
    ensures Elem(MaskPart(mask, batch, frames, bins * channels, 0), [b, Plane(channels, f, c), n])
            == Elem(mask, [b, n, Feature(channels, f, c, 0)])
    ensures Elem(MaskPart(mask, batch, frames, bins * channels, 1), [b, Plane(channels, f, c), n])
            == Elem(mask, [b, n, Feature(channels, f, c, 1)])
  {
    PairFits(bins, channels, f, c);
    MaskPartAt(mask, batch, frames, bins * channels, b, n, Plane(channels, f, c), 0);
    MaskPartAt(mask, batch, frames, bins * channels, b, n, Plane(channels, f, c), 1);
  }

  /** A spectrogram in the order the mask is in. */
  function InOrder(t: Tensor, batch: nat, channels: nat, bins: nat, frames: nat): (r: Tensor)
    requires Spectrogram(t, batch, channels, bins, frames)
    ensures Planar(r, batch, bins * channels, frames)
  {
    MergeMiddle(batch, bins, channels, frames, 0, 0, 0, 0);
    Reshape(SwapMiddle(t), [batch, bins * channels, frames])
  }

  lemma InOrderAt(t: Tensor, batch: nat, channels: nat, bins: nat, frames: nat, b: nat, c: nat, f: nat, n: nat)
    requires Spectrogram(t, batch, channels, bins, frames)
    requires b < batch && c < channels && f < bins && n < frames
    ensures Elem(InOrder(t, batch, channels, bins, frames), [b, Plane(channels, f, c), n]) == Elem(t, [b, c, f, n])
  {
    MergeMiddle(batch, bins, channels, frames, b, f, c, n);
    PairFits(bins, channels, f, c);
    SwapMiddleAt(t, b, c, f, n);
    ReshapeAt(SwapMiddle(t), [batch, bins * channels, frames], [b, f, c, n], [b, Plane(channels, f, c), n]);
  }

  /** And back out of it. */
  function OutOfOrder(t: Tensor, batch: nat, channels: nat, bins: nat, frames: nat): (r: Tensor)
    requires Planar(t, batch, bins * channels, frames)
    ensures Spectrogram(r, batch, channels, bins, frames)
  {
    MergeMiddle(batch, bins, channels, frames, 0, 0, 0, 0);
    SwapMiddle(Reshape(t, [batch, bins, channels, frames]))
  }

  lemma SplitPlanesAt(t: Tensor, batch: nat, channels: nat, bins: nat, frames: nat, b: nat, c: nat, f: nat, n: nat)
    requires Planar(t, batch, bins * channels, frames)
    requires b < batch && c < channels && f < bins && n < frames
    ensures Size([batch, bins, channels, frames]) == Size(t.shape)
    ensures Elem(Reshape(t, [batch, bins, channels, frames]), [b, f, c, n]) == Elem(t, [b, Plane(channels, f, c), n])
  {
    MergeMiddle(batch, bins, channels, frames, b, f, c, n);
    PairFits(bins, channels, f, c);
    ReshapeAt(t, [batch, bins, channels, frames], [b, Plane(channels, f, c), n], [b, f, c, n]);
  }

  lemma OutOfOrderAt(t: Tensor, batch: nat, channels: nat, bins: nat, frames: nat, b: nat, c: nat, f: nat, n: nat)
    requires Planar(t, batch, bins * channels, frames)
    requires b < batch && c < channels && f < bins && n < frames
    ensures Elem(OutOfOrder(t, batch, channels, bins, frames), [b, c, f, n]) == Elem(t, [b, Plane(channels, f, c), n])
  {
    SplitPlanesAt(t, batch, channels, bins, frames, b, c, f, n);
    SwapMiddleAt(Reshape(t, [batch, bins, channels, frames]), b, f, c, n);
  }

  /** Bins from 1 on. */
  function TakeBins(t: Tensor): (r: Tensor)
    requires |t.shape| == 4 && t.shape[2] > 0
    ensures r.Valid() && r.shape == t.shape[2 := t.shape[2] - 1]
  {
    Build(t.shape[2 := t.shape[2] - 1], i => if |i| == 4 then Elem(t, i[2 := i[2] + 1]) else 0.0)
  }

  /** A zero bin in front. */
  function PadBins(t: Tensor): (r: Tensor)
    requires |t.shape| == 4
    ensures r.Valid() && r.shape == t.shape[2 := t.shape[2] + 1]
  {
    Build(t.shape[2 := t.shape[2] + 1], i => if |i| == 4 && i[2] > 0 then Elem(t, i[2 := i[2] - 1]) else 0.0)
  }

  function WithoutDc(t: Tensor): (r: Tensor)
    requires |t.shape| == 4 && t.shape[2] > 0
    ensures r.Valid() && r.shape == t.shape
  {
    PadBins(TakeBins(t))
  }

  lemma WithoutDcAt(t: Tensor, index: seq<nat>)
    requires |t.shape| == 4 && t.shape[2] > 0 && InBounds(t.shape, index)
    ensures Elem(WithoutDc(t), index) == if index[2] == 0 then 0.0 else Elem(t, index)
  {
    var taken := TakeBins(t);
    BuildAt(t.shape, i => if |i| == 4 && i[2] > 0 then Elem(taken, i[2 := i[2] - 1]) else 0.0, index);
    if index[2] > 0 {
      var below := index[2 := index[2] - 1];
      BuildAt(taken.shape, i => if |i| == 4 then Elem(t, i[2 := i[2] + 1]) else 0.0, below);
      assert below[2 := below[2] + 1] == index;
    }
  }

  // ----- the product of two spectra, real and imaginary parts apart

  function Times(x: Tensor, y: Tensor): (r: Tensor)
    ensures r.Valid() && r.shape == x.shape
  {
    Zip(x, y, Product)
  }

  lemma TimesAt(x: Tensor, y: Tensor, index: seq<nat>)
    requires InBounds(x.shape, index)
    ensures Elem(Times(x, y), index) == Product(Elem(x, index), Elem(y, index))
  {
    ZipAt(x, y, Product, index);
  }

  function RealPart(a: Tensor, b: Tensor, c: Tensor, d: Tensor): (r: Tensor)
    ensures r.Valid() && r.shape == a.shape
  {
    Zip(Times(a, c), Times(b, d), (x, y) => x - y)
  }

  function ImagPart(a: Tensor, b: Tensor, c: Tensor, d: Tensor): (r: Tensor)
    ensures r.Valid() && r.shape == a.shape
  {
    Zip(Times(a, d), Times(b, c), (x, y) => x + y)
  }

  lemma RealPartAt(a: Tensor, b: Tensor, c: Tensor, d: Tensor, index: seq<nat>)
    requires a.shape == b.shape && InBounds(a.shape, index)
    ensures Elem(RealPart(a, b, c, d), index)
            == Product(Elem(a, index), Elem(c, index)) - Product(Elem(b, index), Elem(d, index))
  {
    TimesAt(a, c, index);
    TimesAt(b, d, index);
    ZipAt(Times(a, c), Times(b, d), (x, y) => x - y, index);
  }

  lemma ImagPartAt(a: Tensor, b: Tensor, c: Tensor, d: Tensor, index: seq<nat>)
    requires a.shape == b.shape && InBounds(a.shape, index)
    ensures Elem(ImagPart(a, b, c, d), index)
            == Product(Elem(a, index), Elem(d, index)) + Product(Elem(b, index), Elem(c, index))
  {
    TimesAt(a, d, index);
    TimesAt(b, c, index);
    ZipAt(Times(a, d), Times(b, c), (x, y) => x + y, index);
  }

  /** The shapes `apply` is given: a mask over the features of a spectrogram. */
  predicate Given(mask: Tensor, re: Tensor, im: Tensor, batch: nat, channels: nat, bins: nat, frames: nat) {
    && mask.Valid() && mask.shape == [batch, frames, bins * channels * 2]
    && Spectrogram(re, batch, channels, bins, frames) && Spectrogram(im, batch, channels, bins, frames)
  }

  /** The product, real or imaginary part, still in the mask's order. */
  function Masked(
    mask: Tensor, re: Tensor, im: Tensor, batch: nat, channels: nat, bins: nat, frames: nat, part: nat): (r: Tensor)
    requires Given(mask, re, im, batch, channels, bins, frames)
    ensures Planar(r, batch, bins * channels, frames)
  {
    var planes := bins * channels;
    var maskRe, maskIm := MaskPart(mask, batch, frames, planes, 0), MaskPart(mask, batch, frames, planes, 1);
    var specRe, specIm := InOrder(re, batch, channels, bins, frames), InOrder(im, batch, channels, bins, frames);
    if part == 0 then RealPart(specRe, specIm, maskRe, maskIm) else ImagPart(specRe, specIm, maskRe, maskIm)
  }

  /** Channels picked apart again, and DC dropped. */
  function Unpicked(t: Tensor, batch: nat, channels: nat, bins: nat, frames: nat): (r: Tensor)
    requires bins > 0 && Planar(t, batch, bins * channels, frames)
    ensures Spectrogram(r, batch, channels, bins, frames)
  {
    WithoutDc(OutOfOrder(t, batch, channels, bins, frames))
  }

  /** Part 0 or 1 of the masked spectrum handed to the inverse transform. */
  function Apply(
    mask: Tensor, re: Tensor, im: Tensor, batch: nat, channels: nat, bins: nat, frames: nat, part: nat): (r: Tensor)
    requires bins > 0 && Given(mask, re, im, batch, channels, bins, frames)
    ensures Spectrogram(r, batch, channels, bins, frames)
  {
    Unpicked(Masked(mask, re, im, batch, channels, bins, frames, part), batch, channels, bins, frames)
  }

  lemma UnpickedAt(t: Tensor, batch: nat, channels: nat, bins: nat, frames: nat, b: nat, c: nat, f: nat, n: nat)
    requires Planar(t, batch, bins * channels, frames)
    requires b < batch && c < channels && f < bins && n < frames
    ensures Elem(Unpicked(t, batch, channels, bins, frames), [b, c, f, n])
            == if f == 0 then 0.0 else Elem(t, [b, Plane(channels, f, c), n])
  {
    OutOfOrderAt(t, batch, channels, bins, frames, b, c, f, n);
    WithoutDcAt(OutOfOrder(t, batch, channels, bins, frames), [b, c, f, n]);
  }

  /** Part 0 or 1 of the product of two complex numbers. */
  function ComplexPart(zr: real, zi: real, mr: real, mi: real, part: nat): real {
    if part == 0 then Product(zr, mr) - Product(zi, mi) else Product(zr, mi) + Product(zi, mr)
  }

  lemma MaskedIs(
    mask: Tensor, re: Tensor, im: Tensor, batch: nat, channels: nat, bins: nat, frames: nat, part: nat,
    index: seq<nat>)
    requires Given(mask, re, im, batch, channels, bins, frames)
    requires InBounds([batch, bins * channels, frames], index)
    ensures Elem(Masked(mask, re, im, batch, channels, bins, frames, part), index)
            == ComplexPart(Elem(InOrder(re, batch, channels, bins, frames), index),
                           Elem(InOrder(im, batch, channels, bins, frames), index),
                           Elem(MaskPart(mask, batch, frames, bins * channels, 0), index),
                           Elem(MaskPart(mask, batch, frames, bins * channels, 1), index), part)
  {
    var planes := bins * channels;
    var maskRe, maskIm := MaskPart(mask, batch, frames, planes, 0), MaskPart(mask, batch, frames, planes, 1);
    var specRe, specIm := InOrder(re, batch, channels, bins, frames), InOrder(im, batch, channels, bins, frames);
    if part == 0 {
      RealPartAt(specRe, specIm, maskRe, maskIm, index);
    } else {
      ImagPartAt(specRe, specIm, maskRe, maskIm, index);
    }
  }

  lemma MaskedAt(
    mask: Tensor, re: Tensor, im: Tensor, batch: nat, channels: nat, bins: nat, frames: nat, part: nat,
    b: nat, c: nat, f: nat, n: nat)
    requires Given(mask, re, im, batch, channels, bins, frames)
    requires b < batch && c < channels && f < bins && n < frames
    ensures Elem(Masked(mask, re, im, batch, channels, bins, frames, part), [b, Plane(channels, f, c), n])
            == ComplexPart(Elem(re, [b, c, f, n]), Elem(im, [b, c, f, n]),
                           Elem(mask, [b, n, Feature(channels, f, c, 0)]), Elem(mask, [b, n, Feature(channels, f, c, 1)]), part)
  {
    PairFits(bins, channels, f, c);
    MaskedIs(mask, re, im, batch, channels, bins, frames, part, [b, Plane(channels, f, c), n]);
    MaskPartsAt(mask, batch, channels, bins, frames, b, c, f, n);
    InOrderAt(re, batch, channels, bins, frames, b, c, f, n);
    InOrderAt(im, batch, channels, bins, frames, b, c, f, n);
  }

  /** One bin of the answer, from the mask's own two features for it. */
  lemma ApplyAt(
    mask: Tensor, re: Tensor, im: Tensor, batch: nat, channels: nat, bins: nat, frames: nat, part: nat,
    b: nat, c: nat, f: nat, n: nat)
    requires Given(mask, re, im, batch, channels, bins, frames)
    requires b < batch && c < channels && f < bins && n < frames
    ensures Elem(Apply(mask, re, im, batch, channels, bins, frames, part), [b, c, f, n])
            == if f == 0 then 0.0
               else ComplexPart(Elem(re, [b, c, f, n]), Elem(im, [b, c, f, n]),
                      Elem(mask, [b, n, Feature(channels, f, c, 0)]), Elem(mask, [b, n, Feature(channels, f, c, 1)]), part)
  {
    MaskedAt(mask, re, im, batch, channels, bins, frames, part, b, c, f, n);
    UnpickedAt(Masked(mask, re, im, batch, channels, bins, frames, part), batch, channels, bins, frames, b, c, f, n);
  }

  /**
   A mask laid out as the spectrogram was flattened multiplies each bin of each channel and
   frame by its own mask value, and only bin 0 is dropped.
   */
  lemma MaskMeetsItsOwnBin(
    mr: Tensor, mi: Tensor, re: Tensor, im: Tensor, batch: nat, channels: nat, bins: nat, frames: nat, part: nat,
    b: nat, c: nat, f: nat, n: nat)
    requires Spectrogram(mr, batch, channels, bins, frames) && Spectrogram(mi, batch, channels, bins, frames)
    requires Spectrogram(re, batch, channels, bins, frames) && Spectrogram(im, batch, channels, bins, frames)
    requires b < batch && c < channels && f < bins && n < frames
    ensures var i := [b, c, f, n];
      Elem(Apply(Interleave(mr, mi), re, im, batch, channels, bins, frames, part), i)
      == if f == 0 then 0.0 else ComplexPart(Elem(re, i), Elem(im, i), Elem(mr, i), Elem(mi, i), part)
  {
    ApplyAt(Interleave(mr, mi), re, im, batch, channels, bins, frames, part, b, c, f, n);
    InterleaveAt(mr, mi, batch, channels, bins, frames, b, c, f, n, 0);
    InterleaveAt(mr, mi, batch, channels, bins, frames, b, c, f, n, 1);
  }
}
