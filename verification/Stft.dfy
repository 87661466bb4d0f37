/**
 The short-time transform and its inverse, one row of samples at a time.

 `rfft` and `irfft` are any pair that undo each other on one frame.  What is proved is
 everything around them: padding, framing, windowing, overlap-add and normalisation.
 */
module Stft {
  import opened Wrappers
  import opened Sums
  import opened Arith
  import Overlap = OverlapAdd

  datatype Complex = Complex(re: real, im: real)

  datatype Transform = Transform(rfft: seq<real> -> seq<Complex>, irfft: seq<Complex> -> seq<real>)

  datatype Error = PadTooWide | TooShort | NoFrames

  /** The least norm `inverse` divides by. */
  const FLOOR: real := 0.00000000001

  function Max(a: real, b: real): real {
    if a >= b then a else b
  }

  /** A sum over the window-square that accumulated with it, which is never divided by less than the floor. */
  function Over(a: real, norm: real): real {
    a / Max(norm, FLOOR)
  }

  function Rfft(tr: Transform, x: seq<real>): seq<Complex> {
    tr.rfft(x)
  }

  function Irfft(tr: Transform, z: seq<Complex>): seq<real> {
    tr.irfft(z)
  }

  /** The pair undoes itself on frames of `n`, and `irfft` always writes `n` samples. */
  ghost predicate Undoes(tr: Transform, n: nat) {
    && (forall x :: |x| == n ==> |Rfft(tr, x)| == n / 2 + 1 && Irfft(tr, Rfft(tr, x)) == x)
    && (forall z :: |z| == n / 2 + 1 ==> |Irfft(tr, z)| == n)
  }

  // ----- reflect padding

  /** The samples after the first, last one first. */
  function Head(x: seq<real>, left: nat): (r: seq<real>)
    requires left < |x|
    ensures |r| == left && forall i :: 0 <= i < left ==> r[i] == x[left - i]
  {
    seq(left, i requires 0 <= i < left => x[left - i])
  }

  /** The samples before the last, last one first. */
  function Tail(x: seq<real>, right: nat): (r: seq<real>)
    requires right < |x|
    ensures |r| == right && forall i :: 0 <= i < right ==> r[i] == x[|x| - 2 - i]
  {
    seq(right, i requires 0 <= i < right => x[|x| - 2 - i])
  }

  /** Mirrored about each end sample without repeating it, or refused. */
  function ReflectPad(x: seq<real>, left: nat, right: nat): Result<seq<real>, Error> {
    if left >= |x| || right >= |x| then Err(PadTooWide)
    else Ok(Head(x, left) + x + Tail(x, right))
  }

  /** The signal sits untouched between its two mirrored ends. */
  lemma ReflectPadKeeps(x: seq<real>, left: nat, right: nat)
    ensures ReflectPad(x, left, right).Ok? <==> left < |x| && right < |x|
    ensures ReflectPad(x, left, right).Ok? ==>
      var y := ReflectPad(x, left, right).value;
      |y| == left + |x| + right && forall t :: 0 <= t < |x| ==> y[left + t] == x[t]
  {
  }

  /** Around each end sample of the signal the padded signal is its own mirror image. */
  lemma ReflectPadMirrors(x: seq<real>, left: nat, right: nat, k: nat)
    requires ReflectPad(x, left, right).Ok? && k < left + |x| + right
    ensures var y := ReflectPad(x, left, right).value;
      && |y| == left + |x| + right
      && (k <= left ==> y[k] == y[2 * left - k] == x[left - k])
      && (left + |x| - 1 <= k ==> y[k] == y[2 * (left + |x| - 1) - k] == x[2 * |x| - 2 - (k - left)])
  {
  }

  // ----- forward

  datatype Stft = Stft(nfft: nat, hop: nat, window: seq<real>) {
    predicate Valid() {
      nfft > 0 && hop > 0 && |window| == nfft
    }
  }

  function Times(x: seq<real>, y: seq<real>): (r: seq<real>)
    requires |x| == |y|
    ensures |r| == |x|
  {
    seq(|x|, i requires 0 <= i < |x| => Product(x[i], y[i]))
  }

  function Centre(s: Stft, centred: bool): nat {
    if centred then s.nfft / 2 else 0
  }

  function Padded(s: Stft, x: seq<real>, centred: bool): Result<seq<real>, Error> {
    if centred then ReflectPad(x, s.nfft / 2, s.nfft / 2) else Ok(x)
  }

  function FrameCount(s: Stft, samples: nat): nat
    requires s.Valid()
  {
    if samples < s.nfft then 0 else (samples - s.nfft) / s.hop + 1
  }

  lemma FrameFits(s: Stft, samples: nat, f: nat)
    requires s.Valid()
    ensures f < FrameCount(s, samples) <==> f * s.hop + s.nfft <= samples
  {
    if samples >= s.nfft {
      var last := (samples - s.nfft) / s.hop;
      DivModIs(samples - s.nfft, s.hop);
      if f <= last {
        MulLe(f, last, s.hop);
      } else {
        MulLe(last + 1, f, s.hop);
        MulDistribute(last, 1, s.hop);
      }
    } else {
      MulLe(0, f, s.hop);
    }
  }

  function Frame(s: Stft, y: seq<real>, f: nat): (r: seq<real>)
    requires s.Valid() && f < FrameCount(s, |y|)
    ensures |r| == s.nfft
    ensures forall i :: 0 <= i < s.nfft ==> 0 <= f * s.hop + i < |y| && r[i] == y[f * s.hop + i]
  {
    FrameFits(s, |y|, f);
    y[f * s.hop..f * s.hop + s.nfft]
  }

  function Forward(s: Stft, tr: Transform, x: seq<real>, centred: bool): Result<seq<seq<Complex>>, Error>
    requires s.Valid()
  {
    match Padded(s, x, centred)
    case Err(e) => Err(e)
    case Ok(y) =>
      if |y| < s.nfft then Err(TooShort)
      else Ok(seq(FrameCount(s, |y|), f requires 0 <= f < FrameCount(s, |y|) =>
                    Rfft(tr, Times(Frame(s, y, f), s.window))))
  }

  /** A centred transform is refused exactly when the signal is no longer than half a frame. */
  lemma ForwardAccepts(s: Stft, tr: Transform, x: seq<real>)
    requires s.Valid()
    ensures Forward(s, tr, x, true).Ok? <==> |x| > s.nfft / 2
    ensures Forward(s, tr, x, false).Ok? <==> |x| >= s.nfft
    ensures |x| <= s.nfft / 2 ==> Forward(s, tr, x, true) == Err(PadTooWide)
    ensures |x| < s.nfft ==> Forward(s, tr, x, false) == Err(TooShort)
  {
    ReflectPadKeeps(x, s.nfft / 2, s.nfft / 2);
  }

  // ----- inverse

  function Windowed(s: Stft, tr: Transform, z: seq<seq<Complex>>): (r: seq<seq<real>>)
    requires s.Valid()
    requires forall f :: 0 <= f < |z| ==> |Irfft(tr, z[f])| == s.nfft
    ensures |r| == |z| && forall f :: 0 <= f < |r| ==> |r[f]| == s.nfft
  {
    seq(|z|, f requires 0 <= f < |z| => Times(Irfft(tr, z[f]), s.window))
  }

  function Square(s: Stft): seq<real>
    requires s.Valid()
  {
    Times(s.window, s.window)
  }

  function Squares(s: Stft, frames: nat): (r: seq<seq<real>>)
    requires s.Valid()
    ensures |r| == frames && forall f :: 0 <= f < |r| ==> |r[f]| == s.nfft
  {
    seq(frames, f => Square(s))
  }

  /** The accumulated window-square at padded position `p`. */
  ghost function Norm(s: Stft, frames: nat, p: int): real
    requires s.Valid()
  {
    Overlap.Naive(Squares(s, frames), s.hop, p)
  }

  function Divide(out: seq<real>, norm: seq<real>, start: nat, length: nat): (r: seq<real>)
    requires start + length <= |out| == |norm|
    ensures |r| == length
    ensures forall t :: 0 <= t < length ==> r[t] == Over(out[start + t], norm[start + t])
  {
    seq(length, t requires 0 <= t < length => Over(out[start + t], norm[start + t]))
  }

  /** Sample `t` of the inverse: what overlaps there, over the window-square that does. */
  ghost function InverseAt(s: Stft, tr: Transform, z: seq<seq<Complex>>, centred: bool, t: int): real
    requires s.Valid()
    requires forall f :: 0 <= f < |z| ==> |Irfft(tr, z[f])| == s.nfft
  {
    var p := Centre(s, centred) + t;
    Over(Overlap.Naive(Windowed(s, tr, z), s.hop, p), Norm(s, |z|, p))
  }

  method Inverse(s: Stft, tr: Transform, z: seq<seq<Complex>>, length: nat, centred: bool)
    returns (r: Result<seq<real>, Error>)
    requires s.Valid()
    requires forall f :: 0 <= f < |z| ==> |Irfft(tr, z[f])| == s.nfft
    ensures r.Err? <==> z == []
    ensures r.Err? ==> r == Err(NoFrames)
    ensures r.Ok? ==> |r.value| == length
    ensures r.Ok? ==> forall t :: 0 <= t < length ==> r.value[t] == InverseAt(s, tr, z, centred, t)
  {
    hide Over, Times, Square;
    var pad := Centre(s, centred);
    var width := length + 2 * pad;
    var out := Overlap.Run(Windowed(s, tr, z), s.nfft, s.hop, width);
    var norm := Overlap.Run(Squares(s, |z|), s.nfft, s.hop, width);
    if out.None? || norm.None? {
      return Err(NoFrames);
    }
    r := Ok(Divide(out.value, norm.value, pad, length));
  }

  // ----- the round trip

  /** `z` is what the transform made of the frames of `y`. */
  ghost predicate Spectra(s: Stft, tr: Transform, y: seq<real>, z: seq<seq<Complex>>)
    requires s.Valid()
  {
    && |z| == FrameCount(s, |y|)
    && forall f :: 0 <= f < |z| ==> z[f] == Rfft(tr, Times(Frame(s, y, f), s.window))
  }

  /** Frame by frame, `z` inverts to the windowed frames of `y`. */
  ghost predicate Inverts(s: Stft, tr: Transform, y: seq<real>, z: seq<seq<Complex>>)
    requires s.Valid()
  {
    && |z| == FrameCount(s, |y|)
    && forall f :: 0 <= f < |z| ==> Irfft(tr, z[f]) == Times(Frame(s, y, f), s.window)
  }

  lemma SpectraInvert(s: Stft, tr: Transform, y: seq<real>, z: seq<seq<Complex>>)
    requires s.Valid() && Undoes(tr, s.nfft) && Spectra(s, tr, y, z)
    ensures Inverts(s, tr, y, z)
  {
  }

  /** Where frame `f` lands, it is the signal weighted by the window twice. */
  lemma FrameContribution(s: Stft, y: seq<real>, f: nat, p: nat)
    requires s.Valid() && p < |y| && f < FrameCount(s, |y|)
    ensures At(Times(Times(Frame(s, y, f), s.window), s.window), p - f * s.hop)
            == Product(y[p], At(Square(s), p - f * s.hop))
  {
    var i := p - f * s.hop;
    if 0 <= i < s.nfft {
      assert Frame(s, y, f)[i] == y[f * s.hop + i];
      ProductAssociates(y[p], s.window[i], s.window[i]);
    }
  }

  lemma RoundTripSum(s: Stft, tr: Transform, y: seq<real>, z: seq<seq<Complex>>, p: nat)
    requires s.Valid() && p < |y| && Inverts(s, tr, y, z)
    ensures Overlap.Naive(Windowed(s, tr, z), s.hop, p) == Product(y[p], Norm(s, |z|, p))
  {
    var frames, squares := Windowed(s, tr, z), Squares(s, |z|);
    var c := y[p];
    forall f: nat | f < |z|
      ensures Overlap.Placed(frames, s.hop, f, p) == Product(c, Overlap.Placed(squares, s.hop, f, p))
    {
      FrameContribution(s, y, f, p);
      assert frames[f] == Times(Irfft(tr, z[f]), s.window) && squares[f] == Square(s);
    }
    Overlap.NaiveScaled(frames, squares, s.hop, p, c);
  }

  lemma NormIsNotNegative(s: Stft, frames: nat, p: int)
    requires s.Valid()
    ensures Norm(s, frames, p) >= 0.0
  {
    forall k | 0 <= k < frames ensures Overlap.Placed(Squares(s, frames), s.hop, k, p) >= 0.0 {
      SquareIsNotNegative(s, p - k * s.hop);
    }
    SumNonNegative(f => Overlap.Placed(Squares(s, frames), s.hop, f, p), frames);
  }

  /** What the division makes of a sample that arrives weighted by its norm. */
  function Back(a: real, n: real): real {
    Over(Product(a, n), n)
  }

  /** The sample itself, exactly when the norm reaches the floor or there was nothing there. */
  lemma BackIsTheSample(a: real, n: real)
    requires n >= 0.0
    ensures Back(a, n) == a <==> n >= FLOOR || a == 0.0
  {
    if n < FLOOR {
      var q := Back(a, n);
      assert q * FLOOR == a * n;
      if q == a { assert a * (FLOOR - n) == 0.0; }
    }
  }

  /** `z` is an accepted transform of `x`; its padded signal has `x` where it is read back. */
  lemma ForwardIsSpectra(s: Stft, tr: Transform, x: seq<real>, centred: bool)
    requires s.Valid() && Forward(s, tr, x, centred).Ok?
    ensures Padded(s, x, centred).Ok?
    ensures var y := Padded(s, x, centred).value;
      && |y| == |x| + 2 * Centre(s, centred) && |y| >= s.nfft && Forward(s, tr, x, centred).value != []
      && Spectra(s, tr, y, Forward(s, tr, x, centred).value)
      && forall t :: 0 <= t < |x| ==> y[Centre(s, centred) + t] == x[t]
  {
    ReflectPadKeeps(x, s.nfft / 2, s.nfft / 2);
    SomeFrame(s, |Padded(s, x, centred).value|);
  }

  lemma SomeFrame(s: Stft, samples: nat)
    requires s.Valid() && samples >= s.nfft
    ensures FrameCount(s, samples) > 0
  {
  }

  /** Every sample comes back weighted by its norm over the divisor. */
  lemma InverseIsBack(s: Stft, tr: Transform, x: seq<real>, z: seq<seq<Complex>>, centred: bool, t: nat)
    requires s.Valid() && Undoes(tr, s.nfft) && t < |x|
    requires Forward(s, tr, x, centred) == Ok(z)
    ensures z != []
    ensures forall f :: 0 <= f < |z| ==> |Irfft(tr, z[f])| == s.nfft
    ensures InverseAt(s, tr, z, centred, t) == Back(x[t], Norm(s, |z|, Centre(s, centred) + t))
  {
    hide Over, Forward, FrameCount, Frame, Norm, Windowed, Undoes;
    ForwardIsSpectra(s, tr, x, centred);
    var y, p := Padded(s, x, centred).value, Centre(s, centred) + t;
    SpectraInvert(s, tr, y, z);
    RoundTripSum(s, tr, y, z, p);
  }

  /**
   The round trip: a sample comes back exactly where the accumulated window-square reaches
   the floor, and nowhere else unless it was zero.
   */
  lemma RoundTrip(s: Stft, tr: Transform, x: seq<real>, z: seq<seq<Complex>>, centred: bool, t: nat)
    requires s.Valid() && Undoes(tr, s.nfft) && t < |x|
    requires Forward(s, tr, x, centred) == Ok(z)
    ensures z != []
    ensures forall f :: 0 <= f < |z| ==> |Irfft(tr, z[f])| == s.nfft
    ensures InverseAt(s, tr, z, centred, t) == x[t]
            <==> Norm(s, |z|, Centre(s, centred) + t) >= FLOOR || x[t] == 0.0
  {
    hide Undoes, Forward, FrameCount, InverseAt, Norm;
    InverseIsBack(s, tr, x, z, centred, t);
    NormIsNotNegative(s, |z|, Centre(s, centred) + t);
    BackIsTheSample(x[t], Norm(s, |z|, Centre(s, centred) + t));
  }

  // ----- coverage

  /** Zero at index 0 and nowhere else, as a periodic Hann window is. */
  predicate ZeroOnlyAtStart(window: seq<real>) {
    forall i :: 0 < i < |window| ==> window[i] != 0.0
  }

  /** Some frame covers padded position `p` with a window index past the first. */
  lemma SomeFrameCovers(s: Stft, length: nat, t: nat) returns (f: nat)
    requires s.Valid() && s.hop <= s.nfft / 2 && length > s.nfft / 2 && t < length
    ensures f < FrameCount(s, length + 2 * (s.nfft / 2))
    ensures 0 < s.nfft / 2 + t - f * s.hop < s.nfft
  {
    var half, samples := s.nfft / 2, length + 2 * (s.nfft / 2);
    var p := half + t;
    var count := FrameCount(s, samples);
    f := (p - 1) / s.hop;
    DivModIs(p - 1, s.hop);
    if f >= count {
      f := count - 1;
      DivModIs(samples - s.nfft, s.hop);
      MulLe(count, (p - 1) / s.hop, s.hop);
      MulDistribute(count, 1, s.hop);
    }
  }

  lemma SquareIsPositive(s: Stft, i: nat)
    requires s.Valid() && ZeroOnlyAtStart(s.window) && 0 < i < s.nfft
    ensures At(Square(s), i) > 0.0
  {
    assert s.window[i] != 0.0;
    ProductOfEquals(s.window[i]);
  }

  lemma SquareIsNotNegative(s: Stft, i: int)
    requires s.Valid()
    ensures At(Square(s), i) >= 0.0
  {
    if 0 <= i < s.nfft { ProductOfEquals(s.window[i]); }
  }

  /** Every sample of a centred transform is under a non-zero window sample. */
  lemma EverySampleIsCovered(s: Stft, length: nat, t: nat)
    requires s.Valid() && s.hop <= s.nfft / 2 && length > s.nfft / 2 && t < length
    requires ZeroOnlyAtStart(s.window)
    ensures Norm(s, FrameCount(s, length + 2 * (s.nfft / 2)), s.nfft / 2 + t) > 0.0
  {
    var f := SomeFrameCovers(s, length, t);
    var count, p := FrameCount(s, length + 2 * (s.nfft / 2)), s.nfft / 2 + t;
    forall k | 0 <= k < count ensures Overlap.Placed(Squares(s, count), s.hop, k, p) >= 0.0 {
      SquareIsNotNegative(s, p - k * s.hop);
    }
    SquareIsPositive(s, p - f * s.hop);
    SumAtLeast(k => Overlap.Placed(Squares(s, count), s.hop, k, p), count, f);
  }

  // ----- and so the centred round trip is exact

  /** Frame `t / hop` meets sample `t` just past the middle of the window. */
  lemma MiddleFrameMeets(s: Stft, length: nat, t: nat)
    requires s.Valid() && t < length
    ensures t / s.hop < FrameCount(s, length + 2 * (s.nfft / 2))
    ensures s.nfft / 2 + t - t / s.hop * s.hop == s.nfft / 2 + t % s.hop
  {
    var samples := length + 2 * (s.nfft / 2);
    DivModIs(t, s.hop);
    DivModIs(samples - s.nfft, s.hop);
    if (samples - s.nfft) / s.hop < t / s.hop {
      MulLe((samples - s.nfft) / s.hop + 1, t / s.hop, s.hop);
      MulDistribute((samples - s.nfft) / s.hop, 1, s.hop);
    }
  }

  lemma NormIsAtLeast(s: Stft, count: nat, p: int, f: nat)
    requires s.Valid() && f < count
    ensures Norm(s, count, p) >= At(Square(s), p - f * s.hop)
  {
    forall k | 0 <= k < count ensures Overlap.Placed(Squares(s, count), s.hop, k, p) >= 0.0 {
      SquareIsNotNegative(s, p - k * s.hop);
    }
    SumAtLeast(k => Overlap.Placed(Squares(s, count), s.hop, k, p), count, f);
  }

  /**
   A centred transform gives every signal back, sample for sample, as soon as the window-square
   reaches the floor over one hop past the middle.
   */
  lemma CentredRoundTripIsExact(s: Stft, tr: Transform, x: seq<real>, z: seq<seq<Complex>>, t: nat)
    requires s.Valid() && Undoes(tr, s.nfft) && t < |x| && Forward(s, tr, x, true) == Ok(z)
    requires forall i :: s.nfft / 2 <= i < s.nfft / 2 + s.hop ==> At(Square(s), i) >= FLOOR
    ensures z != []
    ensures forall f :: 0 <= f < |z| ==> |Irfft(tr, z[f])| == s.nfft
    ensures InverseAt(s, tr, z, true, t) == x[t]
  {
    hide Undoes, InverseAt, Forward, FrameCount, Norm, Square;
    RoundTrip(s, tr, x, z, true, t);
    ForwardCounts(s, tr, x);
    NormReachesFloor(s, |x|, t);
  }

  lemma NormReachesFloor(s: Stft, length: nat, t: nat)
    requires s.Valid() && t < length
    requires forall i :: s.nfft / 2 <= i < s.nfft / 2 + s.hop ==> At(Square(s), i) >= FLOOR
    ensures Norm(s, FrameCount(s, length + 2 * (s.nfft / 2)), s.nfft / 2 + t) >= FLOOR
  {
    hide FrameCount, Norm, Square;
    MiddleFrameMeets(s, length, t);
    NormIsAtLeast(s, FrameCount(s, length + 2 * (s.nfft / 2)), s.nfft / 2 + t, t / s.hop);
    var i := s.nfft / 2 + t % s.hop;
    assert At(Square(s), i) >= FLOOR;
  }

  lemma ForwardCounts(s: Stft, tr: Transform, x: seq<real>)
    requires s.Valid() && Forward(s, tr, x, true).Ok?
    ensures |Forward(s, tr, x, true).value| == FrameCount(s, |x| + 2 * (s.nfft / 2))
  {
    ReflectPadKeeps(x, s.nfft / 2, s.nfft / 2);
  }

  /** At least a half over the middle half, as a Hann window is. */
  predicate HighInTheMiddle(window: seq<real>) {
    forall i :: |window| / 4 <= i <= 3 * |window| / 4 && i < |window| ==> window[i] >= 0.5
  }

  /** So with such a window and four frames or more to a sample, nothing is lost at either end. */
  lemma HannRoundTripIsExact(s: Stft, tr: Transform, x: seq<real>, z: seq<seq<Complex>>, t: nat)
    requires s.Valid() && Undoes(tr, s.nfft) && t < |x| && Forward(s, tr, x, true) == Ok(z)
    requires HighInTheMiddle(s.window) && s.hop <= s.nfft / 4
    ensures z != []
    ensures forall f :: 0 <= f < |z| ==> |Irfft(tr, z[f])| == s.nfft
    ensures InverseAt(s, tr, z, true, t) == x[t]
  {
    hide Undoes, InverseAt, Forward;
    forall i | s.nfft / 2 <= i < s.nfft / 2 + s.hop ensures At(Square(s), i) >= FLOOR {
      assert s.window[i] >= 0.5;
      SquareOfHalf(s.window[i]);
    }
    CentredRoundTripIsExact(s, tr, x, z, t);
  }

  lemma SquareOfHalf(w: real)
    requires w >= 0.5
    ensures Product(w, w) >= FLOOR
  {
    assert w * w >= 0.5 * w;
  }
}
