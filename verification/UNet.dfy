/**
 The two-branch encoder and decoder of demucs, as shapes: what each layer does to channels,
 frequency and time, and the stacks of skips and lengths between the two halves.

 A shape that does not fit is `None`, also where the array library would broadcast or clip.
 */
module UNet {
  import opened Wrappers
  import opened Arith

  const KERNEL := 8
  const STRIDE := 4

  /** A quarter of the kernel on each side. */
  const PAD := 2

  /** Rows of the frequency embedding. */
  const EMBEDDING := 512

  datatype Config = Config(depth: nat, channels: nat, audioChannels: nat, sources: nat)

  /** The frequency branch: channels over bins and frames. */
  datatype Planes = Planes(channels: nat, bins: nat, frames: nat)

  /** The time branch: channels over samples. */
  datatype Wave = Wave(channels: nat, samples: nat)

  datatype Enc = Enc(chin: nat, chout: nat)
  datatype Dec = Dec(chin: nat, chout: nat, last: bool)

  // ----- the layers

  function ConvOut(n: nat, kernel: nat, stride: nat, pad: nat): Option<nat>
    requires stride > 0
  {
    if n + 2 * pad < kernel then None else Some((n + 2 * pad - kernel) / stride + 1)
  }

  function Glu(channels: nat): Option<nat> {
    if channels % 2 == 0 then Some(channels / 2) else None
  }

  function ConvTransposeOut(n: nat, kernel: nat, stride: nat): Option<nat> {
    if n == 0 then None else Some((n - 1) * stride + kernel)
  }

  /** The convolution over bins, the rewrite over both axes, and the gate that halves the channels. */
  function EncFreq(l: Enc, x: Planes): Option<Planes> {
    if x.channels != l.chin || x.frames == 0 then None
    else
      match (ConvOut(x.bins, KERNEL, STRIDE, PAD), Glu(2 * l.chout))
      case (Some(bins), Some(channels)) => Some(Planes(channels, bins, x.frames))
      case _ => None
  }

  /** Padded on the right to a multiple of the stride first. */
  function EncTime(l: Enc, x: Wave): Option<Wave> {
    var samples := if x.samples % STRIDE != 0 then x.samples + (STRIDE - x.samples % STRIDE) else x.samples;
    if x.channels != l.chin then None
    else
      match (ConvOut(samples, KERNEL, STRIDE, PAD), Glu(2 * l.chout))
      case (Some(n), Some(channels)) => Some(Wave(channels, n))
      case _ => None
  }

  /** The skip added, the rewrite, the transposed convolution, and the padding cut off both ends. */
  function DecFreq(l: Dec, x: Planes, skip: Planes): Option<Planes> {
    if x != skip || x.channels != l.chin then None
    else
      match (ConvOut(x.bins, 3, 1, 1), ConvOut(x.frames, 3, 1, 1), Glu(2 * l.chin))
      case (Some(bins), Some(frames), Some(_)) =>
        (match ConvTransposeOut(bins, KERNEL, STRIDE)
         case Some(f) => if PAD <= f - PAD then Some(Planes(l.chout, f - 2 * PAD, frames)) else None
         case None => None)
      case _ => None
  }

  /** The same over time, cut to the length the mirror layer was given. */
  function DecTime(l: Dec, x: Wave, skip: Wave, length: nat): Option<Wave> {
    if x != skip || x.channels != l.chin then None
    else
      match (ConvOut(x.samples, 3, 1, 1), Glu(2 * l.chin))
      case (Some(n), Some(_)) =>
        (match ConvTransposeOut(n, KERNEL, STRIDE)
         case Some(t) => if PAD + length <= t then Some(Wave(l.chout, length)) else None
         case None => None)
      case _ => None
  }

  // ----- the channel chain

  /** Channels out of encoder `i`; they double at every step. */
  function Chan(c: Config, i: nat): nat {
    c.channels * Power(2, i)
  }

  function EncAt(c: Config, i: nat, first: nat): Enc {
    Enc(if i == 0 then first else Chan(c, i - 1), Chan(c, i))
  }

  /** Decoder `i` undoes encoder `i`; the outermost writes every source. */
  function DecAt(c: Config, i: nat, out: nat): Dec {
    Dec(Chan(c, i), if i == 0 then out else Chan(c, i - 1), i == 0)
  }

  datatype Model = Model(encoder: seq<Enc>, tencoder: seq<Enc>, decoder: seq<Dec>, tdecoder: seq<Dec>)

  /** Decoders are stored outermost last: the order they run in. */
  predicate Mirrored(c: Config, m: Model) {
    && |m.encoder| == |m.tencoder| == |m.decoder| == |m.tdecoder| == c.depth
    && forall i :: 0 <= i < c.depth ==>
      && m.encoder[i] == EncAt(c, i, c.audioChannels * 2)
      && m.tencoder[i] == EncAt(c, i, c.audioChannels)
      && m.decoder[i] == DecAt(c, c.depth - 1 - i, c.audioChannels * c.sources * 2)
      && m.tdecoder[i] == DecAt(c, c.depth - 1 - i, c.audioChannels * c.sources)
  }

  lemma ChanHalves(c: Config, i: nat)
    requires i > 0
    ensures Chan(c, i) / 2 == Chan(c, i - 1)
  {
    assert c.channels * (2 * Power(2, i - 1)) == 2 * (c.channels * Power(2, i - 1));
  }

  /** Pushing encoders and inserting decoders in front builds a mirror. */
  method Load(c: Config) returns (m: Model)
    ensures Mirrored(c, m)
  {
    var encoder, tencoder: seq<Enc> := [], [];
    var decoder, tdecoder: seq<Dec> := [], [];
    for index := 0 to c.depth
      invariant |encoder| == |tencoder| == |decoder| == |tdecoder| == index
      invariant forall i :: 0 <= i < index ==>
        encoder[i] == EncAt(c, i, c.audioChannels * 2) && tencoder[i] == EncAt(c, i, c.audioChannels)
      invariant forall i :: 0 <= i < index ==>
        && decoder[i] == DecAt(c, index - 1 - i, c.audioChannels * c.sources * 2)
        && tdecoder[i] == DecAt(c, index - 1 - i, c.audioChannels * c.sources)
    {
      var chout := Chan(c, index);
      if index > 0 { ChanHalves(c, index); }
      var chinZ := if index == 0 then c.audioChannels * 2 else chout / 2;
      var chinT := if index == 0 then c.audioChannels else chout / 2;
      encoder := encoder + [Enc(chinZ, chout)];
      tencoder := tencoder + [Enc(chinT, chout)];
      var last := index == 0;
      var outZ := if last then c.audioChannels * c.sources * 2 else chinZ;
      var outT := if last then c.audioChannels * c.sources else chinT;
      decoder := [Dec(chout, outZ, last)] + decoder;
      tdecoder := [Dec(chout, outT, last)] + tdecoder;
    }
    m := Model(encoder, tencoder, decoder, tdecoder);
  }

  // ----- sizes level by level

  /** Bins into encoder `i`. */
  function BinsAt(bins: nat, i: nat): nat {
    if i == 0 then bins else BinsAt(bins, i - 1) / STRIDE
  }

  /** Samples into time encoder `i`. */
  function SamplesAt(samples: nat, i: nat): nat {
    if i == 0 then samples else (SamplesAt(samples, i - 1) + STRIDE - 1) / STRIDE
  }

  lemma {:induction false} SomeSamples(samples: nat, i: nat)
    requires samples > 0
    ensures SamplesAt(samples, i) > 0
  {
    if i > 0 { SomeSamples(samples, i - 1); }
  }

  /** The frequency shape between encoder `i - 1` and encoder `i`. */
  function PlanesAt(c: Config, first: nat, bins: nat, frames: nat, i: nat): Planes {
    Planes(if i == 0 then first else Chan(c, i - 1), BinsAt(bins, i), frames)
  }

  function WaveAt(c: Config, first: nat, samples: nat, i: nat): Wave {
    Wave(if i == 0 then first else Chan(c, i - 1), SamplesAt(samples, i))
  }

  lemma ConvTransposeIs(n: nat)
    requires n > 0
    ensures ConvTransposeOut(n, KERNEL, STRIDE) == Some(STRIDE * n + 2 * PAD)
    ensures ConvOut(n, 3, 1, 1) == Some(n)
  {
  }

  lemma ConvIs(n: nat)
    ensures ConvOut(n, KERNEL, STRIDE, PAD) == if n >= STRIDE then Some(n / STRIDE) else None
  {
  }

  lemma EncFreqAt(c: Config, first: nat, bins: nat, frames: nat, i: nat)
    requires frames > 0
    ensures EncFreq(EncAt(c, i, first), PlanesAt(c, first, bins, frames, i))
            == if BinsAt(bins, i) >= STRIDE then Some(PlanesAt(c, first, bins, frames, i + 1)) else None
  {
    ConvIs(BinsAt(bins, i));
  }

  /** Padding on the right makes the length a whole number of strides, rounding up. */
  lemma PaddedQuarter(n: nat)
    requires n > 0
    ensures var padded := if n % STRIDE != 0 then n + (STRIDE - n % STRIDE) else n;
      padded >= STRIDE && padded / STRIDE == (n + STRIDE - 1) / STRIDE
  {
  }

  /** So a stride for each of them covers it again. */
  lemma QuarterCovers(n: nat)
    ensures PAD + n <= STRIDE * ((n + STRIDE - 1) / STRIDE) + 2 * PAD
  {
  }

  lemma EncTimeAt(c: Config, first: nat, samples: nat, i: nat)
    requires samples > 0
    ensures EncTime(EncAt(c, i, first), WaveAt(c, first, samples, i)) == Some(WaveAt(c, first, samples, i + 1))
  {
    SomeSamples(samples, i);
    var n := SamplesAt(samples, i);
    PaddedQuarter(n);
    ConvIs(if n % STRIDE != 0 then n + (STRIDE - n % STRIDE) else n);
  }

  lemma DecFreqAt(c: Config, first: nat, out: nat, bins: nat, frames: nat, i: nat)
    requires frames > 0 && BinsAt(bins, i + 1) > 0
    ensures var x := PlanesAt(c, first, bins, frames, i + 1);
      DecFreq(DecAt(c, i, out), x, x)
      == Some(Planes(if i == 0 then out else Chan(c, i - 1), STRIDE * BinsAt(bins, i + 1), frames))
  {
    ConvTransposeIs(BinsAt(bins, i + 1));
    ConvTransposeIs(frames);
  }

  lemma DecNeedsItsSkip(l: Dec, x: Planes, skip: Planes)
    requires x != skip
    ensures DecFreq(l, x, skip) == None
  {
  }

  /** A layer takes only the channels it was built for, some frames, and in a decoder its own skip. */
  lemma LayersRefuse(e: Enc, l: Dec, x: Planes, skip: Planes, xt: Wave, skipT: Wave, length: nat)
    ensures x.channels != e.chin || x.frames == 0 ==> EncFreq(e, x) == None
    ensures xt.channels != e.chin ==> EncTime(e, xt) == None
    ensures x != skip || x.channels != l.chin || x.frames == 0 ==> DecFreq(l, x, skip) == None
    ensures xt != skipT || xt.channels != l.chin ==> DecTime(l, xt, skipT, length) == None
  {
  }

  lemma DecTimeAt(c: Config, first: nat, out: nat, samples: nat, i: nat)
    requires samples > 0
    ensures var x := WaveAt(c, first, samples, i + 1);
      DecTime(DecAt(c, i, out), x, x, SamplesAt(samples, i))
      == Some(Wave(if i == 0 then out else Chan(c, i - 1), SamplesAt(samples, i)))
  {
    hide Chan, DecTime;
    SomeSamples(samples, i + 1);
    QuarterCovers(SamplesAt(samples, i));
    DecTimeIs(DecAt(c, i, out), WaveAt(c, first, samples, i + 1), SamplesAt(samples, i));
  }

  /** The layer's slice is in range exactly where a stride for each sample covers the length. */
  lemma DecTimeIs(l: Dec, x: Wave, length: nat)
    requires x.samples > 0 && x.channels == l.chin
    ensures DecTime(l, x, x, length)
            == if PAD + length <= STRIDE * x.samples + 2 * PAD then Some(Wave(l.chout, length)) else None
  {
    ConvTransposeIs(x.samples);
  }

  // ----- the encoders

  /** What the encoders leave: skips and lengths, innermost on top. */
  datatype Encoded = Encoded(
    x: Planes, xt: Wave, saved: seq<Planes>, savedT: seq<Wave>, lengths: seq<nat>, lengthsT: seq<nat>)

  ghost predicate Stacked(c: Config, bins: nat, frames: nat, samples: nat, n: nat, e: Encoded) {
    && e.x == PlanesAt(c, c.audioChannels * 2, bins, frames, n)
    && e.xt == WaveAt(c, c.audioChannels, samples, n)
    && |e.saved| == |e.savedT| == |e.lengths| == |e.lengthsT| == n
    && forall i :: 0 <= i < n ==>
      && e.saved[i] == PlanesAt(c, c.audioChannels * 2, bins, frames, i + 1)
      && e.savedT[i] == WaveAt(c, c.audioChannels, samples, i + 1)
      && e.lengths[i] == frames && e.lengthsT[i] == SamplesAt(samples, i)
  }

  /** Every level has a whole stride of bins, and the first fits the embedding. */
  predicate Encodable(bins: nat, n: nat) {
    (forall i :: 0 <= i < n ==> BinsAt(bins, i) >= STRIDE) && (n > 0 ==> BinsAt(bins, 1) <= EMBEDDING)
  }

  /** One pair of encoder layers, and what is pushed for them. */
  method EncodeOne(
    c: Config, m: Model, bins: nat, frames: nat, samples: nat, index: nat, e: Encoded) returns (r: Option<Encoded>)
    requires Mirrored(c, m) && frames > 0 && samples > 0 && index < c.depth
    requires Stacked(c, bins, frames, samples, index, e)
    ensures r.Some? <==> BinsAt(bins, index) >= STRIDE && (index == 0 ==> BinsAt(bins, 1) <= EMBEDDING)
    ensures r.Some? ==> Stacked(c, bins, frames, samples, index + 1, r.value)
  {
    EncTimeAt(c, c.audioChannels, samples, index);
    EncFreqAt(c, c.audioChannels * 2, bins, frames, index);
    var lengths, lengthsT := e.lengths + [e.x.frames], e.lengthsT + [e.xt.samples];
    var outT := EncTime(m.tencoder[index], e.xt);
    if outT.None? { return None; }
    var savedT := e.savedT + [outT.value];
    var out := EncFreq(m.encoder[index], e.x);
    if out.None? { return None; }
    if index == 0 && out.value.bins > EMBEDDING { return None; }
    var saved := e.saved + [out.value];
    r := Some(Encoded(out.value, outT.value, saved, savedT, lengths, lengthsT));
  }

  method Encode(c: Config, m: Model, bins: nat, frames: nat, samples: nat) returns (r: Option<Encoded>)
    requires Mirrored(c, m) && frames > 0 && samples > 0
    ensures r.Some? <==> Encodable(bins, c.depth)
    ensures r.Some? ==> Stacked(c, bins, frames, samples, c.depth, r.value)
  {
    var at := Encoded(Planes(c.audioChannels * 2, bins, frames), Wave(c.audioChannels, samples), [], [], [], []);
    for index := 0 to |m.encoder|
      invariant Stacked(c, bins, frames, samples, index, at) && Encodable(bins, index)
    {
      var next := EncodeOne(c, m, bins, frames, samples, index, at);
      if next.None? { return None; }
      at := next.value;
    }
    r := Some(at);
  }

  /** Widened for the transformer and narrowed again: the shape it came in with. */
  function Bottleneck(c: Config, x: Planes, xt: Wave): Option<(Planes, Wave)>
    requires c.depth > 0
  {
    var bottom := Chan(c, c.depth - 1);
    if x.channels == bottom && xt.channels == bottom then Some((x, xt)) else None
  }

  // ----- the decoders

  /** Decoding rebuilds each level's bins from the next exactly where none were dropped. */
  predicate Decodable(bins: nat, depth: nat) {
    forall i :: 0 < i < depth ==> BinsAt(bins, i) == STRIDE * BinsAt(bins, i + 1)
  }

  /** What is left on the stacks when `left` layers are still to run. */
  ghost predicate Unwinding(c: Config, bins: nat, frames: nat, samples: nat, left: nat, e: Encoded) {
    && |e.saved| == |e.savedT| == |e.lengths| == |e.lengthsT| == left
    && (forall i :: 0 <= i < left ==>
          && e.saved[i] == PlanesAt(c, c.audioChannels * 2, bins, frames, i + 1)
          && e.savedT[i] == WaveAt(c, c.audioChannels, samples, i + 1)
          && e.lengths[i] == frames && e.lengthsT[i] == SamplesAt(samples, i))
    && e.x == (if left == c.depth then PlanesAt(c, c.audioChannels * 2, bins, frames, left) else Rebuilt(c, bins, frames, left))
    && e.xt == (if left == 0 then Wave(c.audioChannels * c.sources, samples) else WaveAt(c, c.audioChannels, samples, left))
  }

  /** What the decoder at level `left` wrote: four bins for each of the level below. */
  function Rebuilt(c: Config, bins: nat, frames: nat, left: nat): Planes {
    Planes(if left == 0 then c.audioChannels * c.sources * 2 else Chan(c, left - 1),
           STRIDE * BinsAt(bins, left + 1), frames)
  }

  /** One pair of decoder layers, with what is popped for them. */
  method DecodeOne(
    c: Config, m: Model, bins: nat, frames: nat, samples: nat, index: nat, e: Encoded) returns (r: Option<Encoded>)
    requires Mirrored(c, m) && frames > 0 && samples > 0 && index < c.depth && BinsAt(bins, c.depth - index) > 0
    requires Unwinding(c, bins, frames, samples, c.depth - index, e)
    ensures r.Some? <==>
      (index > 0 ==> BinsAt(bins, c.depth - index) == STRIDE * BinsAt(bins, c.depth - index + 1))
    ensures r.Some? ==> Unwinding(c, bins, frames, samples, c.depth - index - 1, r.value)
  {
    hide DecFreq, DecTime, BinsAt, Chan;
    var top := c.depth - index - 1;
    var skip, saved := e.saved[top], e.saved[..top];
    var lengths := e.lengths[..top];
    DecFreqAt(c, c.audioChannels * 2, c.audioChannels * c.sources * 2, bins, frames, top);
    DecTimeAt(c, c.audioChannels, c.audioChannels * c.sources, samples, top);
    if e.x != skip { DecNeedsItsSkip(m.decoder[index], e.x, skip); }
    var out := DecFreq(m.decoder[index], e.x, skip);
    if out.None? { return None; }
    var lengthT, lengthsT := e.lengthsT[top], e.lengthsT[..top];
    var skipT, savedT := e.savedT[top], e.savedT[..top];
    var outT := DecTime(m.tdecoder[index], e.xt, skipT, lengthT);
    if outT.None? { return None; }
    r := Some(Encoded(out.value, outT.value, saved, savedT, lengths, lengthsT));
  }

  method Decode(c: Config, m: Model, bins: nat, frames: nat, samples: nat, e: Encoded)
    returns (r: Option<(Planes, Wave)>)
    requires Mirrored(c, m) && frames > 0 && samples > 0 && c.depth > 0
    requires Encodable(bins, c.depth) && Stacked(c, bins, frames, samples, c.depth, e)
    ensures r.Some? <==> Decodable(bins, c.depth)
    ensures r.Some? ==> r.value == (Rebuilt(c, bins, frames, 0), Wave(c.audioChannels * c.sources, samples))
  {
    var at := e;
    for index := 0 to |m.decoder|
      invariant Unwinding(c, bins, frames, samples, c.depth - index, at)
      invariant forall i :: c.depth - index < i < c.depth ==> BinsAt(bins, i) == STRIDE * BinsAt(bins, i + 1)
    {
      var level := c.depth - index;
      assert BinsAt(bins, level) == BinsAt(bins, level - 1) / STRIDE && BinsAt(bins, level - 1) >= STRIDE;
      var next := DecodeOne(c, m, bins, frames, samples, index, at);
      if next.None? { return None; }
      at := next.value;
    }
    if at.saved != [] || at.savedT != [] { return None; }
    r := Some((at.x, at.xt));
  }

  /** Encoders, bottleneck and decoders on one segment's shapes. */
  method Run(c: Config, bins: nat, frames: nat, samples: nat) returns (r: Option<(Planes, Wave)>)
    requires c.depth > 0 && bins > 0 && frames > 0 && samples > 0
    ensures r.Some? <==> Encodable(bins, c.depth) && Decodable(bins, c.depth)
    ensures r.Some? ==> r.value == (Rebuilt(c, bins, frames, 0), Wave(c.audioChannels * c.sources, samples))
    ensures (r.Some? && r.value.0.bins == bins) <==> bins % Power(4, c.depth) == 0 && bins <= 2048
  {
    RestoredWhenDivisible(bins, c.depth);
    var m := Load(c);
    var encoded := Encode(c, m, bins, frames, samples);
    if encoded.None? { return None; }
    var across := Bottleneck(c, encoded.value.x, encoded.value.xt);
    if across.None? { return None; }
    var (x, xt) := across.value;
    r := Decode(c, m, bins, frames, samples, encoded.value.(x := x, xt := xt));
  }

  // ----- which sizes come back

  /** No bins are dropped in the first `n` levels. */
  predicate Whole(bins: nat, n: nat) {
    forall i :: 0 <= i < n ==> BinsAt(bins, i) == STRIDE * BinsAt(bins, i + 1)
  }

  lemma {:induction false} BinsAtIs(bins: nat, n: nat)
    ensures BinsAt(bins, n) == bins / Power(4, n)
  {
    if n > 0 {
      BinsAtIs(bins, n - 1);
      DivTwice(bins, Power(4, n - 1));
    }
  }

  lemma DivTwice(x: nat, p: nat)
    requires p > 0
    ensures (x / p) / 4 == x / (4 * p)
    ensures x % (4 * p) == 0 <==> x % p == 0 && (x / p) % 4 == 0
  {
    var q, r := x / p, x % p;
    DivModIs(x, p);
    DivModIs(q, 4);
    MulDistribute((q / 4) * 4, q % 4, p);
    assert ((q / 4) * 4) * p == (q / 4) * (4 * p);
    MulLe(q % 4 + 1, 4, p);
    MulDistribute(q % 4, 1, p);
    MulLe(0, q % 4, p);
    if q % 4 > 0 { MulLe(1, q % 4, p); }
    DivModUnique(x, 4 * p, q / 4, (q % 4) * p + r);
  }

  lemma {:induction false} WholeWhenDivisible(bins: nat, n: nat)
    ensures Whole(bins, n) <==> bins % Power(4, n) == 0
  {
    if n > 0 {
      WholeWhenDivisible(bins, n - 1);
      BinsAtIs(bins, n - 1);
      DivTwice(bins, Power(4, n - 1));
      assert BinsAt(bins, n) == BinsAt(bins, n - 1) / STRIDE;
      assert Whole(bins, n) <==> Whole(bins, n - 1) && BinsAt(bins, n - 1) == STRIDE * BinsAt(bins, n);
    }
  }

  /** A whole size above none is at least a stride at every level. */
  lemma {:induction false} WholeIsLarge(bins: nat, n: nat, i: nat)
    requires bins > 0 && Whole(bins, n) && i <= n
    ensures BinsAt(bins, i) > 0
  {
    if i > 0 {
      WholeIsLarge(bins, n, i - 1);
      assert BinsAt(bins, i - 1) == STRIDE * BinsAt(bins, i - 1 + 1);
    }
  }

  /** The frequency axis comes back exactly when it divides evenly at every level and fits the embedding. */
  lemma RestoredWhenDivisible(bins: nat, depth: nat)
    requires depth > 0 && bins > 0
    ensures Encodable(bins, depth) && Decodable(bins, depth) && STRIDE * BinsAt(bins, 1) == bins
            <==> bins % Power(4, depth) == 0 && bins <= 2048
  {
    WholeWhenDivisible(bins, depth);
    assert BinsAt(bins, 0) == bins;
    assert Decodable(bins, depth) && STRIDE * BinsAt(bins, 1) == bins <==> Whole(bins, depth);
    if Whole(bins, depth) {
      forall i | 0 <= i < depth ensures BinsAt(bins, i) >= STRIDE {
        WholeIsLarge(bins, depth, i + 1);
        assert BinsAt(bins, i) == STRIDE * BinsAt(bins, i + 1);
      }
    }
  }
}
