/**
 The trimmed transform of the traced model: the ordinary transform without its top bin
 and without two frames at each end, and an inverse that puts zeros in their place.

 A sample comes back scaled by the share of its window-square that the kept frames carry.
 */
module Spectral {
  import opened Wrappers
  import opened Sums
  import opened S = Stft
  import Overlap = OverlapAdd

  const N_FFT := 4096
  const HOP := 1024

  /** Three half-hops. */
  const PAD := 1536

  predicate Model(s: Stft) {
    s.nfft == N_FFT && s.hop == HOP && |s.window| == N_FFT
  }

  function Frames(samples: nat): (r: nat)
    ensures HOP * r - HOP < samples <= HOP * r
  {
    Overlap.DivCeilIs(samples, HOP);
    Overlap.DivCeil(samples, HOP)
  }

  function Extended(x: seq<real>): Result<seq<real>, Error> {
    ReflectPad(x, PAD, PAD + Frames(|x|) * HOP - |x|)
  }

  lemma FrameCountIs(s: Stft, samples: nat, frames: nat)
    requires Model(s) && samples == HOP * frames + 2 * PAD + N_FFT
    ensures FrameCount(s, samples) == frames + 4
  {
    assert (samples - N_FFT) / HOP == frames + 3;
  }

  /** The top bin dropped, and the frames that cover the input kept. */
  function Trim(z: seq<seq<Complex>>, frames: nat): (r: seq<seq<Complex>>)
    requires frames + 2 <= |z| && forall f :: 0 <= f < |z| ==> |z[f]| > 0
    ensures |r| == frames
    ensures forall f :: 0 <= f < frames ==> r[f] == z[2 + f][..|z[2 + f]| - 1]
  {
    seq(frames, f requires 0 <= f < frames => z[2 + f][..|z[2 + f]| - 1])
  }

  /** What the ordinary transform made of the extended signal, before trimming. */
  lemma WholeSpectrum(s: Stft, tr: Transform, x: seq<real>)
    requires Model(s) && Undoes(tr, N_FFT) && Extended(x).Ok?
    ensures S.Forward(s, tr, Extended(x).value, true).Ok?
    ensures var z := S.Forward(s, tr, Extended(x).value, true).value;
      |z| == Frames(|x|) + 4 && forall f :: 0 <= f < |z| ==> |z[f]| == N_FFT / 2 + 1
  {
    var y := Extended(x).value;
    ReflectPadKeeps(x, PAD, PAD + Frames(|x|) * HOP - |x|);
    S.ForwardAccepts(s, tr, y);
    S.ForwardIsSpectra(s, tr, y, true);
    FrameCountIs(s, |y| + N_FFT, Frames(|x|));
  }

  function Forward(s: Stft, tr: Transform, x: seq<real>): Result<seq<seq<Complex>>, Error>
    requires Model(s) && Undoes(tr, N_FFT)
  {
    match Extended(x)
    case Err(e) => Err(e)
    case Ok(y) =>
      WholeSpectrum(s, tr, x);
      match S.Forward(s, tr, y, true)
      case Err(e) => Err(e)
      case Ok(z) => Ok(Trim(z, Frames(|x|)))
  }

  /** Refused exactly when the signal is too short for either of its reflected ends. */
  lemma ForwardAccepts(s: Stft, tr: Transform, x: seq<real>)
    requires Model(s) && Undoes(tr, N_FFT)
    ensures Forward(s, tr, x).Ok? <==> |x| > PAD && 2 * |x| > PAD + HOP * Frames(|x|)
    ensures Forward(s, tr, x).Ok? ==> |Forward(s, tr, x).value| == Frames(|x|)
  {
    if Extended(x).Ok? { WholeSpectrum(s, tr, x); }
  }

  // ----- inverse

  function Silence(bins: nat): (r: seq<Complex>)
    ensures |r| == bins && forall i :: 0 <= i < bins ==> r[i] == Complex(0.0, 0.0)
  {
    seq(bins, i => Complex(0.0, 0.0))
  }

  function UntrimmedFrame(z: seq<seq<Complex>>, f: nat): (r: seq<Complex>)
    requires forall f :: 0 <= f < |z| ==> |z[f]| == N_FFT / 2
    ensures |r| == N_FFT / 2 + 1
  {
    if 2 <= f < |z| + 2 then z[f - 2] + Silence(1) else Silence(N_FFT / 2 + 1)
  }

  /** A zero bin on top of every frame, and two silent frames at each end. */
  function Untrim(z: seq<seq<Complex>>): (r: seq<seq<Complex>>)
    requires forall f :: 0 <= f < |z| ==> |z[f]| == N_FFT / 2
    ensures |r| == |z| + 4 && forall f :: 0 <= f < |r| ==> r[f] == UntrimmedFrame(z, f)
  {
    seq(|z| + 4, f requires 0 <= f < |z| + 4 => UntrimmedFrame(z, f))
  }

  /** The phase of bin 0 taken away, by subtracting it from every bin scaled by a selector. */
  function RealDc(z: seq<Complex>): (r: seq<Complex>)
    ensures |r| == |z|
  {
    seq(|z|, i requires 0 <= i < |z| =>
      var selector := if i == 0 then 1.0 else 0.0;
      Complex(z[i].re, z[i].im - z[i].im * selector))
  }

  /** Only the phase of bin 0 is lost; a spectrum that has none there is untouched. */
  lemma RealDcDropsOnePhase(z: seq<Complex>)
    requires |z| > 0
    ensures RealDc(z) == [Complex(z[0].re, 0.0)] + z[1..]
    ensures RealDc(z) == z <==> z[0].im == 0.0
  {
    assert RealDc(z) == [Complex(z[0].re, 0.0)] + z[1..];
    if z[0].im == 0.0 { assert RealDc(z) == z; } else { assert RealDc(z)[0] != z[0]; }
  }

  /** The spectra `istft` inverts for the trimmed `z`. */
  function Prepared(z: seq<seq<Complex>>): (r: seq<seq<Complex>>)
    requires forall f :: 0 <= f < |z| ==> |z[f]| == N_FFT / 2
    ensures |r| == |z| + 4 && forall f :: 0 <= f < |r| ==> |r[f]| == N_FFT / 2 + 1
    ensures forall f :: 0 <= f < |r| ==> r[f] == RealDc(Untrim(z)[f])
  {
    seq(|z| + 4, f requires 0 <= f < |z| + 4 => RealDc(Untrim(z)[f]))
  }

  /**
   Bin by bin they are two silent frames, then every frame
   as it came but for the phase of its mean and a zero bin on top, then two silent frames.
   */
  lemma PreparedBins(z: seq<seq<Complex>>)
    requires forall f :: 0 <= f < |z| ==> |z[f]| == 2048
    ensures |Prepared(z)| == |z| + 4 && forall f :: 0 <= f < |z| + 4 ==> |Prepared(z)[f]| == 2049
    ensures forall f :: 0 <= f < |z| ==>
      && Prepared(z)[2 + f][0] == Complex(z[f][0].re, 0.0)
      && (forall i :: 1 <= i < 2048 ==> Prepared(z)[2 + f][i] == z[f][i])
      && Prepared(z)[2 + f][2048] == Complex(0.0, 0.0)
    ensures forall f, i :: (0 <= f < 2 || |z| + 2 <= f < |z| + 4) && 0 <= i < 2049 ==>
      Prepared(z)[f][i] == Complex(0.0, 0.0)
  {
    forall f | 0 <= f < |z|
      ensures Prepared(z)[2 + f] == [Complex(z[f][0].re, 0.0)] + z[f][1..] + [Complex(0.0, 0.0)]
    {
      RealDcDropsOnePhase(Untrim(z)[2 + f]);
    }
    forall f | 0 <= f < 2 || |z| + 2 <= f < |z| + 4 ensures Prepared(z)[f] == Silence(2049) {
      RealDcDropsOnePhase(Untrim(z)[f]);
    }
  }

  /** Sample `t` of the inverse, by definition. */
  ghost function InverseAt(s: Stft, tr: Transform, z: seq<seq<Complex>>, t: nat): real
    requires Model(s) && Undoes(tr, N_FFT)
    requires forall f :: 0 <= f < |z| ==> |z[f]| == N_FFT / 2
  {
    var p := N_FFT / 2 + PAD + t;
    Over(Overlap.Naive(Windowed(s, tr, Prepared(z)), HOP, p), Norm(s, |z| + 4, p))
  }

  method Istft(s: Stft, tr: Transform, z: seq<seq<Complex>>, length: nat) returns (r: Result<seq<real>, Error>)
    requires Model(s) && Undoes(tr, N_FFT)
    requires forall f :: 0 <= f < |z| ==> |z[f]| == N_FFT / 2 + 1
    ensures r.Err? <==> z == []
    ensures r.Err? ==> r == Err(NoFrames)
    ensures r.Ok? ==> |r.value| == length
    ensures r.Ok? ==> forall t :: 0 <= t < length ==>
      r.value[t] == Over(Overlap.Naive(Windowed(s, tr, z), HOP, N_FFT / 2 + t), Norm(s, |z|, N_FFT / 2 + t))
  {
    var extent := (|z| - 1) * HOP + N_FFT;
    var padded := if length + N_FFT >= extent then length + N_FFT else extent;
    var out := Overlap.Run(Windowed(s, tr, z), N_FFT, HOP, padded);
    var norm := Overlap.Run(Squares(s, |z|), N_FFT, HOP, padded);
    if out.None? || norm.None? {
      return Err(NoFrames);
    }
    r := Ok(Divide(out.value, norm.value, N_FFT / 2, length));
  }

  method Inverse(s: Stft, tr: Transform, z: seq<seq<Complex>>, length: nat) returns (r: Result<seq<real>, Error>)
    requires Model(s) && Undoes(tr, N_FFT)
    requires forall f :: 0 <= f < |z| ==> |z[f]| == N_FFT / 2
    ensures r.Ok? && |r.value| == length
    ensures forall t :: 0 <= t < length ==> r.value[t] == InverseAt(s, tr, z, t)
  {
    var full := HOP * Frames(length) + 2 * PAD;
    var x := Istft(s, tr, Prepared(z), full);
    if x.Err? { return x; }
    r := Ok(x.value[PAD..PAD + length]);
  }

  // ----- the weights

  /** The window-square frame `f` puts on padded position `p`. */
  function Weight(s: Stft, f: int, p: int): real
    requires s.Valid()
  {
    At(Square(s), p - f * s.hop)
  }

  /** The four window samples one hop apart that meet at a position. */
  function Ripple(s: Stft, r: int): real
    requires s.Valid()
  {
    Weight(s, 0, r) + Weight(s, 0, r + HOP) + Weight(s, 0, r + 2 * HOP) + Weight(s, 0, r + 3 * HOP)
  }

  /** The share carried by the frames that are skipped, two at each end. */
  function Skipped(s: Stft, frames: nat, p: int): real
    requires s.Valid()
  {
    Weight(s, 0, p) + Weight(s, 1, p) + Weight(s, frames + 2, p) + Weight(s, frames + 3, p)
  }

  /** Every position that is read back has all four of its frames, so the norm is the ripple. */
  lemma NormIsRipple(s: Stft, frames: nat, p: nat)
    requires Model(s) && 3 * HOP <= p < HOP * (frames + 4)
    ensures Norm(s, frames + 4, p) == Ripple(s, p % HOP)
  {
    var q, n := p / HOP, frames + 4;
    var f := f => Overlap.Placed(Squares(s, n), HOP, f, p);
    forall k | 0 <= k < n ensures f(k) == Weight(s, k, p) {}
    forall k | 0 <= k < n && !(q - 3 <= k < q + 1) ensures f(k) == 0.0 {}
    SumFour(f, n, q - 3);
  }

  /** What is left of the norm when the skipped frames' share is taken away. */
  ghost function Kept(s: Stft, frames: nat, p: int): real
    requires s.Valid()
  {
    Sum(f => if 2 <= f < frames + 2 then Weight(s, f, p) else 0.0, frames + 4)
  }

  lemma KeptAndSkipped(s: Stft, frames: nat, p: nat)
    requires Model(s)
    ensures Norm(s, frames + 4, p) == Kept(s, frames, p) + Skipped(s, frames, p)
  {
    var n := frames + 4;
    var all := f => Overlap.Placed(Squares(s, n), HOP, f, p);
    var kept := f => if 2 <= f < frames + 2 then Weight(s, f, p) else 0.0;
    var skipped := f => if 2 <= f < frames + 2 then 0.0 else Weight(s, f, p);
    forall k | 0 <= k < n ensures all(k) == kept(k) + skipped(k) {}
    SumPlus(kept, skipped, all, n);
    SumEnds(skipped, n);
  }

  /** With a window that is zero only at its start, nothing is skipped exactly away from the edges. */
  lemma SkippedIsZeroInside(s: Stft, frames: nat, t: nat)
    requires Model(s) && ZeroOnlyAtStart(s.window) && s.window[0] == 0.0
    requires 2 <= frames && t < HOP * frames
    ensures Skipped(s, frames, N_FFT / 2 + PAD + t) >= 0.0
    ensures Skipped(s, frames, N_FFT / 2 + PAD + t) == 0.0 <==> PAD <= t <= HOP * frames - PAD
  {
    var p := N_FFT / 2 + PAD + t;
    WeightSign(s, p);
    WeightSign(s, p - HOP);
    WeightSign(s, p - (frames + 2) * HOP);
    WeightSign(s, p - (frames + 3) * HOP);
  }

  lemma WeightSign(s: Stft, i: int)
    requires Model(s) && ZeroOnlyAtStart(s.window) && s.window[0] == 0.0
    ensures At(Square(s), i) >= 0.0
    ensures At(Square(s), i) > 0.0 <==> 0 < i < N_FFT
  {
    if 0 < i < N_FFT { SquareIsPositive(s, i); }
    if i == 0 { assert Square(s)[0] == 0.0; }
  }

  // ----- the round trip

  /** Real input has a real mean, and silence inverts to silence. */
  ghost predicate Real(tr: Transform) {
    && (forall x :: |x| == N_FFT ==> |Rfft(tr, x)| > 0 && Rfft(tr, x)[0].im == 0.0)
    && Irfft(tr, Silence(N_FFT / 2 + 1)) == Zeros(N_FFT)
  }

  /** The extended signal as the ordinary transform pads it. */
  function Signal(s: Stft, x: seq<real>): seq<real>
    requires Extended(x).Ok?
  {
    match Padded(s, Extended(x).value, true) case Ok(y) => y case Err(_) => []
  }

  lemma SignalIs(s: Stft, x: seq<real>)
    requires Model(s) && Extended(x).Ok?
    ensures |Signal(s, x)| == HOP * Frames(|x|) + 2 * PAD + N_FFT
    ensures FrameCount(s, |Signal(s, x)|) == Frames(|x|) + 4
    ensures forall t :: 0 <= t < |x| ==> Signal(s, x)[N_FFT / 2 + PAD + t] == x[t]
  {
    hide ReflectPad, FrameCount;
    var y := Extended(x).value;
    ReflectPadKeeps(x, PAD, PAD + Frames(|x|) * HOP - |x|);
    ReflectPadKeeps(y, N_FFT / 2, N_FFT / 2);
    FrameCountIs(s, |y| + N_FFT, Frames(|x|));
    forall t | 0 <= t < |x| ensures Signal(s, x)[N_FFT / 2 + PAD + t] == x[t] {
      assert y[PAD + t] == x[t];
    }
  }

  function Spectrum(s: Stft, tr: Transform, x: seq<real>, f: nat): seq<Complex>
    requires Model(s) && Extended(x).Ok? && f < FrameCount(s, |Signal(s, x)|)
  {
    Rfft(tr, Times(Frame(s, Signal(s, x), f), s.window))
  }

  /** Every kept frame of `x` has nothing in its top bin. */
  ghost predicate NyquistFree(s: Stft, tr: Transform, x: seq<real>)
    requires Model(s) && Undoes(tr, N_FFT) && Extended(x).Ok?
  {
    SignalIs(s, x);
    forall f :: 2 <= f < Frames(|x|) + 2 ==> Spectrum(s, tr, x, f)[N_FFT / 2] == Complex(0.0, 0.0)
  }

  lemma ForwardIs(s: Stft, tr: Transform, x: seq<real>)
    requires Model(s) && Undoes(tr, N_FFT) && Extended(x).Ok?
    ensures Forward(s, tr, x).Ok? && FrameCount(s, |Signal(s, x)|) == Frames(|x|) + 4
    ensures var z := Forward(s, tr, x).value;
      && |z| == Frames(|x|)
      && (forall f :: 0 <= f < |z| ==> |z[f]| == N_FFT / 2)
      && (forall f :: 0 <= f < |z| ==> z[f] == Spectrum(s, tr, x, 2 + f)[..N_FFT / 2])
  {
    SignalIs(s, x);
    WholeSpectrum(s, tr, x);
    S.ForwardIsSpectra(s, tr, Extended(x).value, true);
  }

  /** Everything asked of the transform, and of the signal for it to be accepted. */
  ghost predicate Accepted(s: Stft, tr: Transform, x: seq<real>) {
    Model(s) && Undoes(tr, N_FFT) && Real(tr) && Extended(x).Ok? && NyquistFree(s, tr, x)
  }

  /** The trimmed transform of an accepted signal. */
  function Trimmed(s: Stft, tr: Transform, x: seq<real>): (z: seq<seq<Complex>>)
    requires Accepted(s, tr, x)
    ensures Forward(s, tr, x) == Ok(z)
    ensures |z| == Frames(|x|) && forall f :: 0 <= f < |z| ==> |z[f]| == N_FFT / 2
  {
    ForwardIs(s, tr, x);
    Forward(s, tr, x).value
  }

  /** Sample `t` after a forward and an inverse transform. */
  ghost function RoundTripAt(s: Stft, tr: Transform, x: seq<real>, t: nat): real
    requires Accepted(s, tr, x)
  {
    InverseAt(s, tr, Trimmed(s, tr, x), t)
  }

  /** What the inverse overlaps for `x`. */
  ghost function Laid(s: Stft, tr: Transform, x: seq<real>): (w: seq<seq<real>>)
    requires Accepted(s, tr, x)
    ensures |w| == Frames(|x|) + 4
  {
    Windowed(s, tr, Prepared(Trimmed(s, tr, x)))
  }

  /** What it should overlap: the kept frames weighted by the window twice, and silence for the rest. */
  function Share(s: Stft, y: seq<real>, frames: nat, f: nat): seq<real>
    requires Model(s) && |y| == HOP * frames + 2 * PAD + N_FFT && f < frames + 4
  {
    FrameCountIs(s, |y|, frames);
    if 2 <= f < frames + 2 then Times(Times(Frame(s, y, f), s.window), s.window)
    else Times(Zeros(N_FFT), s.window)
  }

  /** A kept frame is prepared into exactly the spectrum it was trimmed from. */
  lemma KeptFrame(s: Stft, tr: Transform, x: seq<real>, f: nat)
    requires Accepted(s, tr, x) && 2 <= f < Frames(|x|) + 2
    ensures FrameCount(s, |Signal(s, x)|) == Frames(|x|) + 4
    ensures Irfft(tr, Prepared(Trimmed(s, tr, x))[f]) == Times(Frame(s, Signal(s, x), f), s.window)
  {
    hide Extended, Times, Frame, Frames, Signal, FrameCount;
    ForwardIs(s, tr, x);
    SignalIs(s, x);
    var z, whole := Trimmed(s, tr, x), Spectrum(s, tr, x, f);
    assert z[f - 2] == whole[..N_FFT / 2];
    assert Untrim(z)[f] == whole[..N_FFT / 2] + Silence(1) == whole;
    RealDcDropsOnePhase(whole);
  }

  lemma SilentFrame(s: Stft, tr: Transform, z: seq<seq<Complex>>, f: nat)
    requires Model(s) && Undoes(tr, N_FFT) && Real(tr)
    requires forall f :: 0 <= f < |z| ==> |z[f]| == N_FFT / 2
    requires f < |z| + 4 && !(2 <= f < |z| + 2)
    ensures Irfft(tr, Prepared(z)[f]) == Zeros(N_FFT)
  {
    RealDcDropsOnePhase(Silence(N_FFT / 2 + 1));
  }

  /** Frame by frame, the inverse overlaps what it should. */
  lemma LaidIsShare(s: Stft, tr: Transform, x: seq<real>, f: nat)
    requires Accepted(s, tr, x) && f < Frames(|x|) + 4
    ensures |Signal(s, x)| == HOP * Frames(|x|) + 2 * PAD + N_FFT
    ensures Laid(s, tr, x)[f] == Share(s, Signal(s, x), Frames(|x|), f)
  {
    hide Times, Signal, Extended, NyquistFree;
    SignalIs(s, x);
    if 2 <= f < Frames(|x|) + 2 { KeptFrame(s, tr, x, f); } else { SilentFrame(s, tr, Trimmed(s, tr, x), f); }
  }

  lemma SilentProduct(s: Stft, i: int)
    requires Model(s)
    ensures At(Times(Zeros(N_FFT), s.window), i) == 0.0
  {
  }

  /** What one such frame puts on position `p`. */
  lemma Contribution(s: Stft, y: seq<real>, frames: nat, f: nat, p: nat)
    requires Model(s) && |y| == HOP * frames + 2 * PAD + N_FFT && f < frames + 4 && p < |y|
    ensures At(Share(s, y, frames, f), p - f * HOP)
            == Product(y[p], if 2 <= f < frames + 2 then Weight(s, f, p) else 0.0)
  {
    hide Times, Frame;
    FrameCountIs(s, |y|, frames);
    if 2 <= f < frames + 2 { FrameContribution(s, y, f, p); } else { SilentProduct(s, p - f * HOP); }
  }

  /** And all of them together: the signal weighted by the kept share of the window-square. */
  lemma KeptSum(s: Stft, y: seq<real>, w: seq<seq<real>>, frames: nat, p: nat)
    requires Model(s) && |y| == HOP * frames + 2 * PAD + N_FFT && p < |y|
    requires |w| == frames + 4 && forall f: nat :: f < |w| ==> w[f] == Share(s, y, frames, f)
    ensures Overlap.Naive(w, HOP, p) == Product(y[p], Kept(s, frames, p))
  {
    hide Share, Weight, Product;
    var kept := f => if 2 <= f < frames + 2 then Weight(s, f, p) else 0.0;
    var sums := f => Overlap.Placed(w, HOP, f, p);
    forall f: nat | f < frames + 4 ensures sums(f) == Product(y[p], kept(f)) {
      Contribution(s, y, frames, f, p);
    }
    SumTimes(kept, y[p], sums, frames + 4);
  }

  lemma RoundTripSum(s: Stft, tr: Transform, x: seq<real>, t: nat)
    requires Accepted(s, tr, x) && t < |x|
    ensures Overlap.Naive(Laid(s, tr, x), HOP, N_FFT / 2 + PAD + t)
            == Product(x[t], Kept(s, Frames(|x|), N_FFT / 2 + PAD + t))
  {
    hide Laid, Share, Signal, Undoes, Real, NyquistFree, Extended, Product, Kept;
    SignalIs(s, x);
    forall f: nat | f < Frames(|x|) + 4 ensures Laid(s, tr, x)[f] == Share(s, Signal(s, x), Frames(|x|), f) {
      LaidIsShare(s, tr, x, f);
    }
    KeptSum(s, Signal(s, x), Laid(s, tr, x), Frames(|x|), N_FFT / 2 + PAD + t);
  }

  /** The norm is the ripple at the position's phase, and what is kept of it the rest. */
  lemma SharesDivide(s: Stft, sum: real, a: real, frames: nat, t: nat)
    requires Model(s) && t < HOP * frames
    requires sum == Product(a, Kept(s, frames, N_FFT / 2 + PAD + t))
    ensures var p := N_FFT / 2 + PAD + t;
      Over(sum, Norm(s, frames + 4, p))
      == Over(Product(a, Ripple(s, p % HOP) - Skipped(s, frames, p)), Ripple(s, p % HOP))
  {
    hide Over, Product, Ripple, Skipped, Norm, Kept;
    var p := N_FFT / 2 + PAD + t;
    KeptAndSkipped(s, frames, p);
    NormIsRipple(s, frames, p);
  }

  lemma RoundTripIs(s: Stft, tr: Transform, x: seq<real>, t: nat)
    requires Accepted(s, tr, x)
    ensures RoundTripAt(s, tr, x, t)
            == Over(Overlap.Naive(Laid(s, tr, x), HOP, N_FFT / 2 + PAD + t), Norm(s, Frames(|x|) + 4, N_FFT / 2 + PAD + t))
  {
    hide Over, Norm, Accepted, Overlap.Naive, Prepared;
  }

  lemma AcceptedIs(s: Stft, tr: Transform, x: seq<real>)
    requires Accepted(s, tr, x)
    ensures Model(s) && 2 <= Frames(|x|)
  {
  }

  /**
   Time alignment: sample `t` of the round trip is sample `t` of the input, weighted by the
   kept frames' share of the norm; the norm is the ripple of the window at that phase.
   */
  lemma RoundTripIsAligned(s: Stft, tr: Transform, x: seq<real>, t: nat)
    requires Accepted(s, tr, x) && t < |x|
    ensures var p := N_FFT / 2 + PAD + t;
      RoundTripAt(s, tr, x, t)
      == Over(Product(x[t], Ripple(s, p % HOP) - Skipped(s, Frames(|x|), p)), Ripple(s, p % HOP))
  {
    hide Over, Accepted, RoundTripAt, Laid, Product, Ripple, Skipped, Norm, Kept, Overlap.Naive;
    AcceptedIs(s, tr, x);
    RoundTripIs(s, tr, x, t);
    RoundTripSum(s, tr, x, t);
    SharesDivide(s, Overlap.Naive(Laid(s, tr, x), HOP, N_FFT / 2 + PAD + t), x[t], Frames(|x|), t);
  }

  /**
   Where the ripple reaches the floor, the loss at `t` is exactly the skipped frames' share,
   so the round trip is exact from 1536 up to 1536 before the end of the last frame, and
   outside that range for no sample but a zero.
   */
  lemma RoundTripLoss(s: Stft, tr: Transform, x: seq<real>, t: nat)
    requires Accepted(s, tr, x) && ZeroOnlyAtStart(s.window) && |s.window| > 0 && s.window[0] == 0.0
    requires t < |x| && Ripple(s, (N_FFT / 2 + PAD + t) % HOP) >= FLOOR
    ensures var p, back := N_FFT / 2 + PAD + t, RoundTripAt(s, tr, x, t);
      && x[t] - back == Over(Product(x[t], Skipped(s, Frames(|x|), p)), Ripple(s, p % HOP))
      && (back == x[t] <==> x[t] == 0.0 || PAD <= t <= HOP * Frames(|x|) - PAD)
  {
    hide Over, Accepted, RoundTripAt, Product, Ripple, Skipped, ZeroOnlyAtStart;
    AcceptedIs(s, tr, x);
    RoundTripIsAligned(s, tr, x, t);
    LossAt(s, x[t], RoundTripAt(s, tr, x, t), Frames(|x|), t);
  }

  lemma LossAt(s: Stft, a: real, back: real, frames: nat, t: nat)
    requires Model(s) && ZeroOnlyAtStart(s.window) && s.window[0] == 0.0
    requires 2 <= frames && t < HOP * frames && Ripple(s, (N_FFT / 2 + PAD + t) % HOP) >= FLOOR
    requires var p := N_FFT / 2 + PAD + t;
      back == Over(Product(a, Ripple(s, p % HOP) - Skipped(s, frames, p)), Ripple(s, p % HOP))
    ensures var p := N_FFT / 2 + PAD + t;
      && a - back == Over(Product(a, Skipped(s, frames, p)), Ripple(s, p % HOP))
      && (back == a <==> a == 0.0 || PAD <= t <= HOP * frames - PAD)
  {
    hide Over, Skipped, Ripple;
    var p := N_FFT / 2 + PAD + t;
    ShareOf(a, back, Ripple(s, p % HOP), Skipped(s, frames, p));
    SkippedIsZeroInside(s, frames, t);
  }

  lemma ShareOf(a: real, back: real, norm: real, lost: real)
    requires norm >= FLOOR && back == Over(Product(a, norm - lost), norm)
    ensures a - back == Over(Product(a, lost), norm)
    ensures back == a <==> a == 0.0 || lost == 0.0
  {
    assert back * norm == a * norm - a * lost;
    assert (a - back) * norm == a * lost;
    var r := Over(Product(a, lost), norm);
    assert r * norm == a * lost;
  }

  // ----- the ripple of a Hann window

  /** Samples half a window apart sum to one, as those of a periodic Hann window do. */
  predicate Complementary(window: seq<real>) {
    forall i :: 0 <= i < |window| / 2 ==> window[i] + window[i + |window| / 2] == 1.0
  }

  lemma HalvesSquared(a: real, b: real)
    requires a + b == 1.0
    ensures Product(a, a) + Product(b, b) >= 0.5
  {
    ProductOfEquals(a - b);
    assert Product(a - b, a - b) + Product(a + b, a + b) == 2.0 * (Product(a, a) + Product(b, b));
  }

  /** So the norm never comes near the floor, and the condition of `RoundTripLoss` holds everywhere. */
  lemma RippleIsLarge(s: Stft, r: nat)
    requires Model(s) && Complementary(s.window) && r < HOP
    ensures Ripple(s, r) >= 1.0
    ensures Ripple(s, r) >= FLOOR
  {
    HalvesSquared(s.window[r], s.window[r + 2 * HOP]);
    HalvesSquared(s.window[r + HOP], s.window[r + HOP + 2 * HOP]);
  }
}
