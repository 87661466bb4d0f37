/** Demucs's packing of complex spectrograms as pairs of real channels, and its inverse. */
module Channels {
  import opened Tensors
  import opened Layout

  /** Where channel `c` keeps its real (0) or imaginary (1) part. */
  function Slot(c: nat, part: nat): nat {
    2 * c + part
  }

  /** Real and imaginary parts on an axis behind the channels. */
  function Parted(re: Tensor, im: Tensor): (r: Tensor)
    requires |re.shape| == 4
    ensures r.Valid() && r.shape == [re.shape[0], re.shape[1], 2, re.shape[2], re.shape[3]]
  {
    assert re.shape[..2] == [re.shape[0], re.shape[1]] && re.shape[2..] == [re.shape[2], re.shape[3]];
    Stack(re, im, 2)
  }

  lemma PartedAt(re: Tensor, im: Tensor, b: nat, c: nat, f: nat, t: nat, part: nat)
    requires |re.shape| == 4 && InBounds(re.shape, [b, c, f, t]) && part < 2
    ensures Elem(Parted(re, im), [b, c, part, f, t]) == Elem(if part == 0 then re else im, [b, c, f, t])
  {
    assert [b, c] + [f, t] == [b, c, f, t] && [b, c] + [part] + [f, t] == [b, c, part, f, t];
    StackAt(re, im, [b, c], part, [f, t]);
  }

  /** The two axes after the first of five as one. */
  lemma MergePair(a: nat, m: nat, n: nat, g: nat, h: nat, i: nat, x: nat, y: nat, j: nat, k: nat)
    ensures Size([a, m, n, g, h]) == Size([a, m * n, g, h])
    ensures Ravel([a, m, n, g, h], [i, x, y, j, k]) == Ravel([a, m * n, g, h], [i, x * n + y, j, k])
  {
    TwoAxes(m, n, x, y);
    MergeAxes([a], [m, n], [g, h], [i], [x, y], [j, k]);
    assert [a] + [m, n] + [g, h] == [a, m, n, g, h] && [i] + [x, y] + [j, k] == [i, x, y, j, k];
    assert [a] + [m * n] + [g, h] == [a, m * n, g, h] && [i] + [x * n + y] + [j, k] == [i, x * n + y, j, k];
  }

  /** Complex `[B, C, F, T]` packed as real `[B, 2C, F, T]`. */
  function ComplexAsChannels(re: Tensor, im: Tensor): (r: Tensor)
    requires |re.shape| == 4
    ensures r.Valid() && r.shape == [re.shape[0], re.shape[1] * 2, re.shape[2], re.shape[3]]
  {
    MergePair(re.shape[0], re.shape[1], 2, re.shape[2], re.shape[3], 0, 0, 0, 0, 0);
    Reshape(Parted(re, im), [re.shape[0], re.shape[1] * 2, re.shape[2], re.shape[3]])
  }

  lemma ComplexAsChannelsAt(
    re: Tensor, im: Tensor, batch: nat, channels: nat, bins: nat, times: nat,
    b: nat, c: nat, f: nat, t: nat, part: nat)
    requires Spectrogram(re, batch, channels, bins, times) && Spectrogram(im, batch, channels, bins, times)
    requires b < batch && c < channels && f < bins && t < times && part < 2
    ensures Elem(ComplexAsChannels(re, im), [b, Slot(c, part), f, t])
            == Elem(if part == 0 then re else im, [b, c, f, t])
  {
    PartedAt(re, im, b, c, f, t, part);
    MergePair(batch, channels, 2, bins, times, b, c, part, f, t);
    ReshapeAt(Parted(re, im), [batch, channels * 2, bins, times], [b, c, part, f, t], [b, Slot(c, part), f, t]);
  }

  const PART_LAST: seq<nat> := [0, 1, 2, 4, 5, 3]

  lemma PartLastIsOnce()
    ensures Permutation(PART_LAST)
  {
    var r := PART_LAST;
    assert r[0] == 0 && r[1] == 1 && r[2] == 2 && r[5] == 3 && r[3] == 4 && r[4] == 5;
  }

  predicate Packed(x: Tensor, batch: nat, sources: nat, channels: nat, bins: nat, times: nat) {
    x.Valid() && x.shape == [batch, sources, channels * 2, bins, times]
  }

  /** The third of five axes as two. */
  lemma SplitPair(a: nat, s: nat, m: nat, n: nat, g: nat, h: nat, i: nat, l: nat, x: nat, y: nat, j: nat, k: nat)
    ensures Size([a, s, m, n, g, h]) == Size([a, s, m * n, g, h])
    ensures Ravel([a, s, m, n, g, h], [i, l, x, y, j, k]) == Ravel([a, s, m * n, g, h], [i, l, x * n + y, j, k])
  {
    TwoAxes(m, n, x, y);
    MergeAxes([a, s], [m, n], [g, h], [i, l], [x, y], [j, k]);
    assert [a, s] + [m, n] + [g, h] == [a, s, m, n, g, h] && [i, l] + [x, y] + [j, k] == [i, l, x, y, j, k];
    assert [a, s] + [m * n] + [g, h] == [a, s, m * n, g, h];
    assert [i, l] + [x * n + y] + [j, k] == [i, l, x * n + y, j, k];
  }

  /** `[B, S, 2C, F, T]` with each channel's parts on an axis of their own. */
  function Unpacked(x: Tensor, batch: nat, sources: nat, channels: nat, bins: nat, times: nat): (r: Tensor)
    requires Packed(x, batch, sources, channels, bins, times)
    ensures r.Valid() && r.shape == [batch, sources, channels, 2, bins, times]
  {
    SplitPair(batch, sources, channels, 2, bins, times, 0, 0, 0, 0, 0, 0);
    Reshape(x, [batch, sources, channels, 2, bins, times])
  }

  lemma UnpackedAt(
    x: Tensor, batch: nat, sources: nat, channels: nat, bins: nat, times: nat,
    b: nat, s: nat, c: nat, part: nat, f: nat, t: nat)
    requires Packed(x, batch, sources, channels, bins, times)
    requires b < batch && s < sources && c < channels && part < 2 && f < bins && t < times
    ensures Elem(Unpacked(x, batch, sources, channels, bins, times), [b, s, c, part, f, t])
            == Elem(x, [b, s, Slot(c, part), f, t])
  {
    SplitPair(batch, sources, channels, 2, bins, times, b, s, c, part, f, t);
    ReshapeAt(x, [batch, sources, channels, 2, bins, times], [b, s, Slot(c, part), f, t], [b, s, c, part, f, t]);
  }

  function PartLast(t: Tensor): (r: Tensor)
    requires |t.shape| == 6
    ensures r.Valid()
    ensures r.shape == [t.shape[0], t.shape[1], t.shape[2], t.shape[4], t.shape[5], t.shape[3]]
  {
    PartLastIsOnce();
    Transpose(t, PART_LAST)
  }

  lemma PartLastAt(x: Tensor, b: nat, s: nat, c: nat, part: nat, f: nat, t: nat)
    requires |x.shape| == 6 && InBounds(x.shape, [b, s, c, part, f, t])
    ensures Elem(PartLast(x), [b, s, c, f, t, part]) == Elem(x, [b, s, c, part, f, t])
  {
    PartLastIsOnce();
    TransposeAt(x, PART_LAST, [b, s, c, part, f, t]);
    assert Permute([b, s, c, part, f, t], PART_LAST) == [b, s, c, f, t, part];
  }

  /** Part 0 or 1 of `[B, S, 2C, F, T]` real as `[B, S, C, F, T]` complex. */
  function ChannelsAsComplex(
    x: Tensor, batch: nat, sources: nat, channels: nat, bins: nat, times: nat, part: nat): (r: Tensor)
    requires Packed(x, batch, sources, channels, bins, times)
    ensures r.Valid() && r.shape == [batch, sources, channels, bins, times]
  {
    Pick(PartLast(Unpacked(x, batch, sources, channels, bins, times)), part)
  }

  lemma ChannelsAsComplexAt(
    x: Tensor, batch: nat, sources: nat, channels: nat, bins: nat, times: nat,
    b: nat, s: nat, c: nat, part: nat, f: nat, t: nat)
    requires Packed(x, batch, sources, channels, bins, times)
    requires b < batch && s < sources && c < channels && part < 2 && f < bins && t < times
    ensures Elem(ChannelsAsComplex(x, batch, sources, channels, bins, times, part), [b, s, c, f, t])
            == Elem(x, [b, s, Slot(c, part), f, t])
  {
    var unpacked := Unpacked(x, batch, sources, channels, bins, times);
    UnpackedAt(x, batch, sources, channels, bins, times, b, s, c, part, f, t);
    PartLastAt(unpacked, b, s, c, part, f, t);
    PickAt(PartLast(unpacked), part, [b, s, c, f, t]);
    assert [b, s, c, f, t] + [part] == [b, s, c, f, t, part];
  }

  /** Source `s` of `x` is the packing of one complex spectrogram. */
  ghost predicate SourceIs(x: Tensor, s: nat, re: Tensor, im: Tensor)
    requires |re.shape| == 4
  {
    forall b: nat, k: nat, f: nat, t: nat :: InBounds(ComplexAsChannels(re, im).shape, [b, k, f, t]) ==>
      Elem(x, [b, s, k, f, t]) == Elem(ComplexAsChannels(re, im), [b, k, f, t])
  }

  lemma SourceAt(x: Tensor, s: nat, re: Tensor, im: Tensor, b: nat, k: nat, f: nat, t: nat)
    requires |re.shape| == 4 && SourceIs(x, s, re, im) && InBounds(ComplexAsChannels(re, im).shape, [b, k, f, t])
    ensures Elem(x, [b, s, k, f, t]) == Elem(ComplexAsChannels(re, im), [b, k, f, t])
  {
  }

  /** Unpacking undoes packing, source by source, part by part. */
  lemma UnpackingUndoesPacking(
    x: Tensor, re: Tensor, im: Tensor, batch: nat, sources: nat, channels: nat, bins: nat, times: nat,
    b: nat, s: nat, c: nat, part: nat, f: nat, t: nat)
    requires Packed(x, batch, sources, channels, bins, times)
    requires Spectrogram(re, batch, channels, bins, times) && Spectrogram(im, batch, channels, bins, times)
    requires s < sources && SourceIs(x, s, re, im)
    requires b < batch && c < channels && part < 2 && f < bins && t < times
    ensures Elem(ChannelsAsComplex(x, batch, sources, channels, bins, times, part), [b, s, c, f, t])
            == Elem(if part == 0 then re else im, [b, c, f, t])
  {
    ChannelsAsComplexAt(x, batch, sources, channels, bins, times, b, s, c, part, f, t);
    ComplexAsChannelsAt(re, im, batch, channels, bins, times, b, c, f, t, part);
    SourceAt(x, s, re, im, b, Slot(c, part), f, t);
  }
}
