/**
 The fixed 44.1 to 96 kHz converter, a 320/147 polyphase filter.

 The definition is a convolution with a prototype on a grid 320 times finer than the
 input's.  The code keeps 320 reversed branches of it and walks input and taps forward,
 carrying the newest input sample and the phase instead of dividing for each output.
 */
module Mode1 {
  import opened Sums
  import opened Arith

  const L := 320
  const M := 147

  /** Taps per branch. */
  const BRANCH := 59

  predicate Prototype(p: seq<real>) {
    |p| == L * BRANCH
  }

  /** The prototype has 18880 taps, 59 input samples' worth. */
  lemma PrototypeIs(p: seq<real>)
    ensures Prototype(p) <==> |p| == 18880 == 59 * L
  {
  }

  /** Output sample `m`, by definition. */
  ghost function Conv(src: seq<real>, p: seq<real>, m: int): real {
    Sum(k => Product(At(src, k), At(p, M * m - L * k)), |src|)
  }

  function Branch(p: seq<real>, r: nat): (b: seq<real>)
    requires Prototype(p) && r < L
    ensures |b| == BRANCH && forall i :: 0 <= i < BRANCH ==> b[i] == p[r + L * (BRANCH - 1 - i)]
  {
    seq(BRANCH, i requires 0 <= i < BRANCH => p[r + L * (BRANCH - 1 - i)])
  }

  /** The prototype split by phase, each branch reversed. */
  function Branches(p: seq<real>): (b: seq<seq<real>>)
    requires Prototype(p)
    ensures |b| == L && forall r :: 0 <= r < L ==> b[r] == Branch(p, r)
  {
    seq(L, r requires 0 <= r < L => Branch(p, r))
  }

  // ----- the two dot products

  function Dot(x: seq<real>, y: seq<real>): real
    requires |x| == |y|
  {
    if x == [] then 0.0
    else Dot(x[..|x| - 1], y[..|y| - 1]) + Product(x[|x| - 1], y[|y| - 1])
  }

  /** The whole window is in range, and window and taps run forward. */
  function Interior(src: seq<real>, newest: nat, taps: seq<real>): real
    requires BRANCH - 1 <= newest < |src| && |taps| == BRANCH
  {
    Dot(src[newest + 1 - BRANCH..newest + 1], taps)
  }

  /** The sum near either end: the first `n` taps back, skipping what is not there. */
  function Edge(src: seq<real>, newest: nat, taps: seq<real>, n: nat): real
    requires n <= BRANCH == |taps|
  {
    if n == 0 then 0.0
    else
      var j := n - 1;
      Edge(src, newest, taps, j)
      + (if j <= newest && newest - j < |src| then Product(src[newest - j], taps[BRANCH - 1 - j]) else 0.0)
  }

  /** What a window at `newest` and phase `r` sums, newest sample first. */
  ghost function Windowed(src: seq<real>, p: seq<real>, newest: int, r: int): real {
    Sum(j => Product(At(src, newest - j), At(p, r + L * j)), BRANCH)
  }

  lemma ConvIsWindowed(src: seq<real>, p: seq<real>, m: nat)
    requires Prototype(p)
    ensures Windowed(src, p, M * m / L, M * m % L) == Conv(src, p, m)
  {
    var newest, r := M * m / L, M * m % L;
    var f := (k: int) => Product(At(src, k), At(p, M * m - L * k));
    var g := (j: int) => Product(At(src, newest - j), At(p, r + L * j));
    forall k | !(0 <= k < |src| && newest - BRANCH < k <= newest) ensures f(k) == 0.0 {
      assert At(src, k) == 0.0 || At(p, M * m - L * k) == 0.0;
    }
    forall j | 0 <= j < BRANCH ensures g(j) == f(newest - j) {
      assert M * m - L * (newest - j) == r + L * j;
    }
    SumWindow(f, g, |src|, newest, BRANCH);
  }

  lemma {:induction false} EdgeIsSum(src: seq<real>, p: seq<real>, newest: nat, r: nat, n: nat)
    requires Prototype(p) && r < L && n <= BRANCH
    ensures Edge(src, newest, Branch(p, r), n) == Sum(j => Product(At(src, newest - j), At(p, r + L * j)), n)
  {
    if n > 0 { EdgeIsSum(src, p, newest, r, n - 1); }
  }

  lemma {:induction false} DotIsSum(x: seq<real>, y: seq<real>, f: int -> real)
    requires |x| == |y| && forall i :: 0 <= i < |x| ==> f(i) == Product(x[i], y[i])
    ensures Dot(x, y) == Sum(f, |x|)
  {
    if x != [] { DotIsSum(x[..|x| - 1], y[..|y| - 1], f); }
  }

  /** Walked forward or back, a dot product is the same sum. */
  lemma DotBackwards(x: seq<real>, y: seq<real>, down: int -> real, n: nat)
    requires |x| == |y| == n && forall j :: 0 <= j < n ==> down(j) == Product(x[n - 1 - j], y[n - 1 - j])
    ensures Dot(x, y) == Sum(down, n)
  {
    var up := (i: int) => down(n - 1 - i);
    forall i | 0 <= i < n ensures up(i) == Product(x[i], y[i]) { assert i == n - 1 - (n - 1 - i); }
    SumReversed(down, up, n);
    DotIsSum(x, y, up);
  }

  lemma InteriorIsWindowed(src: seq<real>, p: seq<real>, newest: nat, r: nat)
    requires Prototype(p) && r < L && BRANCH - 1 <= newest < |src|
    ensures Interior(src, newest, Branch(p, r)) == Windowed(src, p, newest, r)
  {
    DotBackwards(src[newest + 1 - BRANCH..newest + 1], Branch(p, r),
                 j => Product(At(src, newest - j), At(p, r + L * j)), BRANCH);
  }

  /** Wherever both apply, the two ways of summing agree; and the one that applies is the definition. */
  lemma EitherWayIsConv(src: seq<real>, p: seq<real>, m: nat)
    requires Prototype(p)
    ensures var newest, taps := M * m / L, Branch(p, M * m % L);
      && Edge(src, newest, taps, BRANCH) == Conv(src, p, m)
      && (BRANCH - 1 <= newest < |src| ==> Interior(src, newest, taps) == Conv(src, p, m))
  {
    ConvIsWindowed(src, p, m);
    EdgeIsSum(src, p, M * m / L, M * m % L, BRANCH);
    if BRANCH - 1 <= M * m / L < |src| { InteriorIsWindowed(src, p, M * m / L, M * m % L); }
  }

  // ----- the loops

  /** Output frames `m0 ..` of one channel, into `dst[lo..hi]`. */
  method Fill(src: seq<real>, m0: nat, dst: array<real>, lo: nat, hi: nat, b: seq<seq<real>>, ghost p: seq<real>)
    requires Prototype(p) && b == Branches(p) && lo <= hi <= dst.Length
    modifies dst
    ensures forall i :: lo <= i < hi ==> dst[i] == Conv(src, p, m0 + (i - lo))
    ensures forall i :: 0 <= i < dst.Length && !(lo <= i < hi) ==> dst[i] == old(dst[i])
  {
    var start := m0 * M;
    var newest, r := start / L, start % L;
    for o := lo to hi
      invariant newest == M * (m0 + (o - lo)) / L && r == M * (m0 + (o - lo)) % L
      invariant forall i :: lo <= i < o ==> dst[i] == Conv(src, p, m0 + (i - lo))
      invariant forall i :: 0 <= i < dst.Length && !(lo <= i < o) ==> dst[i] == old(dst[i])
    {
      var taps := b[r];
      EitherWayIsConv(src, p, m0 + (o - lo));
      dst[o] := if BRANCH - 1 <= newest < |src| then Interior(src, newest, taps) else Edge(src, newest, taps, BRANCH);
      r := r + M;
      if r >= L {
        r := r - L;
        newest := newest + 1;
      }
    }
  }

  function OutFrames(frames: nat): nat {
    frames * L / M
  }

  /** The converted channel, by definition. */
  ghost function Converted(src: seq<real>, p: seq<real>): (r: seq<real>)
    ensures |r| == OutFrames(|src|) && forall m :: 0 <= m < |r| ==> r[m] == Conv(src, p, m)
  {
    seq(OutFrames(|src|), m => Conv(src, p, m))
  }

  /** One channel, in chunks of any size. */
  method FillChunks(src: seq<real>, out: array<real>, chunk: nat, b: seq<seq<real>>, ghost p: seq<real>)
    requires Prototype(p) && b == Branches(p) && chunk > 0 && out.Length == OutFrames(|src|)
    modifies out
    ensures out[..] == Converted(src, p)
  {
    var at := 0;
    while at < out.Length
      invariant at <= out.Length
      invariant forall m :: 0 <= m < at ==> out[m] == Conv(src, p, m)
    {
      var end := if at + chunk < out.Length then at + chunk else out.Length;
      Fill(src, at, out, at, end, b, p);
      at := end;
    }
  }

  function CeilDiv(a: nat, b: nat): nat
    requires b > 0
  {
    (a + b - 1) / b
  }

  /** Every channel, split by output range over `par` workers, which share nothing they write. */
  method Resample(data: seq<seq<real>>, p: seq<real>, par: nat) returns (planes: seq<seq<real>>)
    requires Prototype(p) && par > 0
    requires forall c :: 0 <= c < |data| ==> |data[c]| == |data[0]|
    ensures |planes| == |data| && forall c :: 0 <= c < |planes| ==> planes[c] == Converted(data[c], p)
  {
    var b := Branches(p);
    var nOut := OutFrames(if |data| > 0 then |data[0]| else 0);
    var slices := CeilDiv(par, if |data| > 1 then |data| else 1);
    slices := if slices > 1 then slices else 1;
    var chunk := CeilDiv(nOut, slices);
    chunk := if chunk > 1 then chunk else 1;
    planes := [];
    for c := 0 to |data|
      invariant |planes| == c && forall i :: 0 <= i < c ==> planes[i] == Converted(data[i], p)
    {
      var plane := new real[nOut](m => 0.0);
      FillChunks(data[c], plane, chunk, b, p);
      planes := planes + [plane[..]];
    }
  }

  /** Every output frame's newest input sample is a sample of the input. */
  lemma NewestIsAnInput(frames: nat, m: nat)
    requires m < OutFrames(frames)
    ensures M * m / L < frames
  {
  }

  // ----- linear and shift-covariant

  lemma ConvIsLinear(x: seq<real>, y: seq<real>, z: seq<real>, a: real, b: real, p: seq<real>, m: int)
    requires |x| == |y| == |z|
    requires forall k :: 0 <= k < |x| ==> z[k] == Product(a, x[k]) + Product(b, y[k])
    ensures Conv(z, p, m) == Product(a, Conv(x, p, m)) + Product(b, Conv(y, p, m))
  {
    var fx := (k: int) => Product(At(x, k), At(p, M * m - L * k));
    var fy := (k: int) => Product(At(y, k), At(p, M * m - L * k));
    var fz := (k: int) => Product(At(z, k), At(p, M * m - L * k));
    var xs := (k: int) => Product(a, fx(k));
    var ys := (k: int) => Product(b, fy(k));
    SumTimes(fx, a, xs, |x|);
    SumTimes(fy, b, ys, |x|);
    forall k | 0 <= k < |x| ensures fz(k) == xs(k) + ys(k) {
      Bilinear(a, x[k], b, y[k], At(p, M * m - L * k));
    }
    SumPlus(xs, ys, fz, |x|);
  }

  lemma Bilinear(a: real, x: real, b: real, y: real, t: real)
    ensures Product(Product(a, x) + Product(b, y), t) == Product(a, Product(x, t)) + Product(b, Product(y, t))
  {
  }

  function Minus(x: seq<real>, y: seq<real>): (r: seq<real>)
    requires |x| == |y|
    ensures |r| == |x| && forall i :: 0 <= i < |r| ==> r[i] == x[i] - y[i]
  {
    seq(|x|, i requires 0 <= i < |x| => x[i] - y[i])
  }

  /** Conversion and subtraction commute. */
  lemma ConvertedMinus(x: seq<real>, y: seq<real>, p: seq<real>)
    requires |x| == |y|
    ensures Converted(Minus(x, y), p) == Minus(Converted(x, p), Converted(y, p))
  {
    var z := Minus(x, y);
    forall k | 0 <= k < |x| ensures z[k] == Product(1.0, x[k]) + Product(-1.0, y[k]) {}
    forall m | 0 <= m < OutFrames(|x|) ensures Converted(z, p)[m] == Converted(x, p)[m] - Converted(y, p)[m] {
      ConvIsLinear(x, y, z, 1.0, -1.0, p, m);
    }
  }

  lemma ConvShifts(x: seq<real>, p: seq<real>, m: int)
    ensures Conv(Zeros(M) + x, p, m + L) == Conv(x, p, m)
  {
    var y := Zeros(M) + x;
    var f := (k: int) => Product(At(y, k), At(p, M * (m + L) - L * k));
    var g := (k: int) => Product(At(x, k), At(p, M * m - L * k));
    forall k | 0 <= k < M ensures f(k) == 0.0 { assert At(y, k) == 0.0; }
    forall k | 0 <= k < |x| ensures g(k) == f(M + k) {
      assert M * (m + L) - L * (M + k) == M * m - L * k;
    }
    SumSplit(f, g, M, |x|);
    SumZero(f, M);
  }

  /** Nothing of the input has arrived before it starts. */
  lemma ConvIsSilentBefore(x: seq<real>, p: seq<real>, m: int)
    requires m < 0
    ensures Conv(x, p, m) == 0.0
  {
    var f := (k: int) => Product(At(x, k), At(p, M * m - L * k));
    forall k | 0 <= k < |x| ensures f(k) == 0.0 { assert At(p, M * m - L * k) == 0.0; }
    SumZero(f, |x|);
  }

  /** 147 input zeros in front delay the whole output by exactly 320 samples of silence. */
  lemma ConvertedShifts(x: seq<real>, p: seq<real>)
    ensures OutFrames(|x| + M) == OutFrames(|x|) + L
    ensures Converted(Zeros(M) + x, p) == Zeros(L) + Converted(x, p)
  {
    var y := Zeros(M) + x;
    assert (|x| + M) * L == |x| * L + L * M;
    DivModIs(|x| * L, M);
    DivModUnique((|x| + M) * L, M, |x| * L / M + L, |x| * L % M);
    forall m | 0 <= m < OutFrames(|y|) ensures Converted(y, p)[m] == (Zeros(L) + Converted(x, p))[m] {
      ConvShifts(x, p, m - L);
      if m < L { ConvIsSilentBefore(x, p, m - L); }
    }
  }
}
