/**
 A model over a whole track: cut into overlapping segments, separated one by one, and
 crossfaded back together by dividing a weighted sum by the sum of the weights.

 The track's batch and channel axes are one axis of rows, and the model's sources over
 those rows one axis of planes.
 */
module OverTrack {
  import opened Wrappers
  import opened Sums
  import opened Arith
  import Overlap = OverlapAdd

  datatype Error = NoStride | Refused | ModelFailed | Uncovered | EmptyTrack

  datatype Model = Model(segment: nat, separate: seq<seq<real>> -> Option<seq<seq<real>>>)

  function Separate(model: Model, chunk: seq<seq<real>>): Option<seq<seq<real>>> {
    model.separate(chunk)
  }

  predicate Rectangle(x: seq<seq<real>>, height: nat, width: nat) {
    |x| == height && forall i :: 0 <= i < |x| ==> |x[i]| == width
  }

  /** What the model returns for a chunk of `rows` has `planes` planes as long as the chunk. */
  ghost predicate Shaped(model: Model, rows: nat, planes: nat) {
    forall chunk :: Rectangle(chunk, rows, model.segment) && Separate(model, chunk).Some? ==>
      Rectangle(Separate(model, chunk).value, planes, model.segment)
  }

  const I32_MAX: int := 0x7fff_ffff

  /** A float cast to `i32`: truncated toward zero, and held at the ends of the range. */
  function ToI32(v: real): int {
    var truncated := if v >= 0.0 then v.Floor else -((-v).Floor);
    if truncated > I32_MAX then I32_MAX else if truncated < -I32_MAX - 1 then -I32_MAX - 1 else truncated
  }

  /** Toward zero within a 32-bit word's range, and at its nearer end outside it. */
  lemma ToI32Is(v: real)
    ensures -0x8000_0000 <= ToI32(v) <= 0x7fff_ffff
    ensures 0.0 <= v < 2147483648.0 ==> ToI32(v) as real <= v < ToI32(v) as real + 1.0
    ensures -2147483649.0 < v <= 0.0 ==> ToI32(v) as real - 1.0 < v <= ToI32(v) as real
    ensures v >= 2147483647.0 ==> ToI32(v) == 0x7fff_ffff
    ensures v <= -2147483648.0 ==> ToI32(v) == -0x8000_0000
  {
  }

  function Stride(overlap: real, segment: nat): int {
    ToI32((1.0 - overlap) * segment as real)
  }

  // ----- the crossfade

  function Triangle(segment: nat): (r: seq<real>)
    ensures |r| == segment
    ensures forall i :: 0 <= i < segment ==>
      r[i] == (if i < segment / 2 then i + 1 else segment - i) as real
  {
    var half := segment / 2;
    seq(half, i requires 0 <= i < half => (i + 1) as real)
    + seq(segment - half, i requires 0 <= i < segment - half => (segment - half - i) as real)
  }

  function Largest(x: seq<real>): (r: real)
    requires |x| > 0
    ensures r in x && forall v :: v in x ==> v <= r
  {
    if |x| == 1 then x[0]
    else
      var rest := Largest(x[1..]);
      assert forall v :: v in x <==> v == x[0] || v in x[1..];
      if x[0] >= rest then x[0] else rest
  }

  function Least(x: seq<real>): (r: real)
    requires |x| > 0
    ensures r in x && forall v :: v in x ==> v >= r
  {
    if |x| == 1 then x[0]
    else
      var rest := Least(x[1..]);
      assert forall v :: v in x <==> v == x[0] || v in x[1..];
      if x[0] <= rest then x[0] else rest
  }

  function Weight(segment: nat): (r: seq<real>)
    requires segment > 0
    ensures |r| == segment
    ensures forall i :: 0 <= i < segment ==> 0.0 < r[i] <= 1.0
  {
    var values := Triangle(segment);
    var peak := Largest(values);
    assert values[0] in values;
    assert forall i :: 0 <= i < segment ==> values[i] in values;
    seq(segment, i requires 0 <= i < segment => Scaled(values[i], peak))
  }

  function Scaled(v: real, peak: real): (r: real)
    requires 0.0 < v <= peak
    ensures 0.0 < r <= 1.0 && (v == peak ==> r == 1.0)
  {
    v / peak
  }

  lemma PeakIsInTheMiddle(segment: nat)
    requires segment > 0
    ensures Largest(Triangle(segment)) == (segment - segment / 2) as real
  {
    var values := Triangle(segment);
    assert values[segment / 2] == (segment - segment / 2) as real;
    assert values[segment / 2] in values;
    assert forall v :: v in values ==> v <= (segment - segment / 2) as real;
  }

  /** A triangle: one in the middle, and falling by equal steps to one step above zero at either end. */
  lemma WeightIsTriangular(segment: nat, i: nat)
    requires i < segment
    ensures Weight(segment)[segment / 2] == 1.0
    ensures Product(Weight(segment)[i], (segment - segment / 2) as real)
            == (if i < segment / 2 then i + 1 else segment - i) as real
  {
    hide Scaled, Largest, Product;
    PeakIsInTheMiddle(segment);
    assert Triangle(segment)[i] in Triangle(segment);
    QuotientTimes(Triangle(segment)[i], Largest(Triangle(segment)));
  }

  lemma QuotientTimes(v: real, peak: real)
    requires 0.0 < v <= peak
    ensures Product(Scaled(v, peak), peak) == v
  {
  }

  // ----- where the segments lie

  datatype Cut = Cut(segment: nat, stride: nat, length: nat) {
    predicate Valid() {
      segment > 0 && stride > 0
    }

    function Count(): (n: nat)
      requires Valid()
      ensures forall k: nat :: k < n <==> k * stride < length
    {
      Overlap.DivCeilIs(length, stride);
      var n := Overlap.DivCeil(length, stride);
      assert forall k: nat :: k < n ==> k * stride < length by {
        forall k: nat | k < n ensures k * stride < length {
          MulLe(k + 1, n, stride);
          MulDistribute(k, 1, stride);
        }
      }
      assert forall k: nat :: k >= n ==> k * stride >= length by {
        forall k: nat | k >= n ensures k * stride >= length { MulLe(n, k, stride); }
      }
      n
    }

    function Offset(k: nat): nat {
      k * stride
    }

    function Take(k: nat): int {
      if segment < length - Offset(k) then segment else length - Offset(k)
    }

    /** Half the shortfall of a short final chunk, which its window starts early by. */
    function Trim(k: nat): int {
      (segment - Take(k)) / 2
    }

    function Start(k: nat): int {
      Offset(k) - Trim(k)
    }

    predicate Covers(k: nat, t: int) {
      Offset(k) <= t < Offset(k) + Take(k)
    }

    /** The weight of segment `k` at sample `t`. */
    function WeightAt(k: int, t: int): real
      requires Valid()
    {
      if 0 <= k && Covers(k, t) then At(Weight(segment), t - Offset(k)) else 0.0
    }

    ghost function TotalWeight(n: nat, t: int): real
      requires Valid()
    {
      Sum(k => WeightAt(k, t), n)
    }
  }

  /** A window of one row, indexed where it lies on the track and padded where it does not. */
  function Chunk(row: seq<real>, start: int, segment: nat): (r: seq<real>)
    requires start <= |row| && 0 <= start + segment
    ensures |r| == segment
    ensures forall i :: 0 <= i < segment ==> r[i] == At(row, start + i)
  {
    var end := start + segment;
    var from, to := if start > 0 then start else 0, if end < |row| then end else |row|;
    var chunk := row[from..to];
    var padLeft, padRight := from - start, end - to;
    if padLeft > 0 || padRight > 0 then Zeros(padLeft) + chunk + Zeros(padRight) else chunk
  }

  /** What the model is given for segment `k`. */
  function Window(c: Cut, rows: seq<seq<real>>, k: nat): (r: seq<seq<real>>)
    requires c.Valid() && k < c.Count() && Rectangle(rows, |rows|, c.length)
    ensures Rectangle(r, |rows|, c.segment)
    ensures forall i, j :: 0 <= i < |rows| && 0 <= j < c.segment ==> r[i][j] == At(rows[i], c.Start(k) + j)
  {
    seq(|rows|, i requires 0 <= i < |rows| => Chunk(rows[i], c.Start(k), c.segment))
  }

  /** The model's estimate of sample `t` in segment `k`: the one at `t`'s own place in the window. */
  function Estimate(c: Cut, model: Model, rows: seq<seq<real>>, k: int, p: nat, t: int): real
    requires c.Valid() && Rectangle(rows, |rows|, c.length)
  {
    if 0 <= k < c.Count() && Separate(model, Window(c, rows, k)).Some? then
      var planes := Separate(model, Window(c, rows, k)).value;
      if p < |planes| then At(planes[p], t - c.Start(k)) else 0.0
    else 0.0
  }

  ghost function Weighted(c: Cut, model: Model, rows: seq<seq<real>>, n: nat, p: nat, t: int): real
    requires c.Valid() && Rectangle(rows, |rows|, c.length)
  {
    Sum(k => Product(Estimate(c, model, rows, k, p, t), c.WeightAt(k, t)), n)
  }

  /** The first `n` segments were all allowed and all separated. */
  ghost predicate Reaches(c: Cut, model: Model, rows: seq<seq<real>>, progress: (nat, nat) -> bool, n: nat)
    requires c.Valid() && Rectangle(rows, |rows|, c.length)
  {
    n <= c.Count()
    && forall k: nat :: k < n ==> progress(k, c.Count()) && Separate(model, Window(c, rows, k)).Some?
  }

  /**
   What the model is given, without the names above: the samples from the segment's own offset
   on, with the shortfall of a short final chunk made up on both sides, the odd one after it.
   Its estimates are read back from there.
   */
  lemma WindowIsCentred(c: Cut, model: Model, rows: seq<seq<real>>, k: nat) returns (before: nat, after: nat)
    requires c.Valid() && k < c.Count() && Rectangle(rows, |rows|, c.length)
    ensures var taken := if c.length - k * c.stride < c.segment then c.length - k * c.stride else c.segment;
      before + after == c.segment - taken && 0 <= after - before <= 1
    ensures forall i, j :: 0 <= i < |rows| && 0 <= j < c.segment ==>
      Window(c, rows, k)[i][j] == At(rows[i], k * c.stride - before + j)
    ensures Separate(model, Window(c, rows, k)).Some? ==>
      var planes := Separate(model, Window(c, rows, k)).value;
      forall p, t :: 0 <= p < |planes| && k * c.stride <= t < c.length && t < k * c.stride + c.segment ==>
        Estimate(c, model, rows, k, p, t) == At(planes[p], before + (t - k * c.stride))
  {
    before := (c.segment - (if c.length - k * c.stride < c.segment then c.length - k * c.stride else c.segment)) / 2;
    after := c.segment - (if c.length - k * c.stride < c.segment then c.length - k * c.stride else c.segment) - before;
    assert c.Start(k) == k * c.stride - before;
  }

  /** A segment covers what lies in it and on the track, so neighbours share all they overlap in. */
  lemma CoversIs(c: Cut, k: nat, t: int)
    ensures c.Covers(k, t) <==> k * c.stride <= t < k * c.stride + c.segment && t < c.length
    ensures c.Covers(k, t) && c.Covers(k + 1, t) <==> (k + 1) * c.stride <= t < k * c.stride + c.segment && t < c.length
  {
    MulDistribute(k, 1, c.stride);
  }

  /** The stride is the whole part of what the overlap leaves of a segment, within a machine word. */
  lemma StrideIs(overlap: real, segment: nat)
    requires 0.0 <= (1.0 - overlap) * segment as real < I32_MAX as real
    ensures Stride(overlap, segment) as real <= (1.0 - overlap) * segment as real < Stride(overlap, segment) as real + 1.0
  {
  }

  /** And none at all where the overlap is a whole segment or more. */
  lemma NoStrideIs(overlap: real, segment: nat)
    ensures Stride(overlap, segment) < 1 <==> (1.0 - overlap) * segment as real < 1.0
  {
  }

  // ----- which samples have a segment

  /** Some sample has no segment exactly when the stride leaves gaps and the track reaches one. */
  lemma WhichAreCovered(c: Cut, t: nat) returns (k: nat)
    requires c.Valid() && t < c.length
    requires c.stride <= c.segment || c.length <= c.segment
    ensures k < c.Count() && c.Covers(k, t)
  {
    if c.stride <= c.segment {
      k := t / c.stride;
      DivModIs(t, c.stride);
    } else {
      k := 0;
    }
  }

  lemma GapIsUncovered(c: Cut, k: int)
    requires c.Valid() && c.stride > c.segment && c.length > c.segment
    ensures c.WeightAt(k, c.segment) == 0.0
  {
    if k >= 1 { MulLe(1, k, c.stride); }
  }

  lemma WeightAtIsPositive(c: Cut, k: int, t: int)
    requires c.Valid()
    ensures c.WeightAt(k, t) >= 0.0
    ensures k >= 0 && c.Covers(k, t) ==> c.WeightAt(k, t) > 0.0
  {
  }

  lemma TotalIsPositive(c: Cut, t: nat)
    requires c.Valid() && t < c.length
    requires c.stride <= c.segment || c.length <= c.segment
    ensures c.TotalWeight(c.Count(), t) > 0.0
  {
    var k := WhichAreCovered(c, t);
    forall j | 0 <= j < c.Count() ensures c.WeightAt(j, t) >= 0.0 { WeightAtIsPositive(c, j, t); }
    WeightAtIsPositive(c, k, t);
    SumAtLeast(j => c.WeightAt(j, t), c.Count(), k);
  }

  lemma TotalIsZero(c: Cut)
    requires c.Valid() && c.stride > c.segment && c.length > c.segment
    ensures c.TotalWeight(c.Count(), c.segment) == 0.0
  {
    forall k | 0 <= k < c.Count() ensures c.WeightAt(k, c.segment) == 0.0 { GapIsUncovered(c, k); }
    SumZero(k => c.WeightAt(k, c.segment), c.Count());
  }

  // ----- the loop

  /** What a piece laid at `offset` adds to sample `t`. */
  function Added(piece: seq<real>, w: seq<real>, offset: nat, t: int): real
    requires |piece| == |w|
  {
    if offset <= t < offset + |w| then Product(piece[t - offset], w[t - offset]) else 0.0
  }

  /** One segment's piece, weighted, added into a slice of the track. */
  method AddInto(out: array2<real>, sumWeight: array<real>, offset: nat, piece: seq<seq<real>>, w: seq<real>)
    requires out.Length1 == sumWeight.Length && offset + |w| <= sumWeight.Length
    requires Rectangle(piece, out.Length0, |w|)
    modifies out, sumWeight
    ensures forall t :: 0 <= t < sumWeight.Length ==> sumWeight[t] == old(sumWeight[t]) + At(w, t - offset)
    ensures forall p, t :: 0 <= p < out.Length0 && 0 <= t < out.Length1 ==>
      out[p, t] == old(out[p, t]) + Added(piece[p], w, offset, t)
  {
    forall p, t | 0 <= p < out.Length0 && offset <= t < offset + |w| {
      out[p, t] := out[p, t] + Product(piece[p][t - offset], w[t - offset]);
    }
    forall t | offset <= t < offset + |w| {
      sumWeight[t] := sumWeight[t] + w[t - offset];
    }
  }

  function Slice(plane: seq<real>, from: nat, take: nat): (r: seq<real>)
    requires from + take <= |plane|
    ensures |r| == take && forall i :: 0 <= i < take ==> r[i] == plane[from + i]
  {
    plane[from..from + take]
  }

  /** The piece the code cuts from segment `k`: as many samples as the track still has. */
  function Piece(c: Cut, planes: seq<seq<real>>, k: nat): (r: seq<seq<real>>)
    requires c.Valid() && k < c.Count() && Rectangle(planes, |planes|, c.segment)
    ensures Rectangle(r, |planes|, c.Take(k))
    ensures forall p :: 0 <= p < |r| ==> r[p] == Slice(planes[p], c.Trim(k), c.Take(k))
  {
    seq(|planes|, p requires 0 <= p < |planes| => Slice(planes[p], c.Trim(k), c.Take(k)))
  }

  /** Cut and laid that way, every sample gets its own estimate times its own weight. */
  lemma PieceIsAligned(c: Cut, model: Model, rows: seq<seq<real>>, planes: seq<seq<real>>, k: nat, p: nat, t: nat)
    requires c.Valid() && Rectangle(rows, |rows|, c.length) && k < c.Count()
    requires Separate(model, Window(c, rows, k)) == Some(planes) && Rectangle(planes, |planes|, c.segment)
    requires p < |planes|
    ensures Added(Piece(c, planes, k)[p], Weight(c.segment)[..c.Take(k)], c.Offset(k), t)
            == Product(Estimate(c, model, rows, k, p, t), c.WeightAt(k, t))
  {
    var i := t - c.Offset(k);
    if 0 <= i < c.Take(k) {
      assert Piece(c, planes, k)[p][i] == planes[p][c.Trim(k) + i];
      assert c.Trim(k) + i == t - c.Start(k);
    }
  }

  lemma WeightIsAligned(c: Cut, k: nat, t: nat)
    requires c.Valid() && k < c.Count()
    ensures At(Weight(c.segment)[..c.Take(k)], t - c.Offset(k)) == c.WeightAt(k, t)
  {
  }

  /** Every sample divided by its weight. */
  method Divide(out: array2<real>, sumWeight: array<real>) returns (r: seq<seq<real>>)
    requires out.Length1 == sumWeight.Length
    requires forall t :: 0 <= t < sumWeight.Length ==> sumWeight[t] > 0.0
    ensures Rectangle(r, out.Length0, out.Length1)
    ensures forall p, t :: 0 <= p < out.Length0 && 0 <= t < out.Length1 ==> r[p][t] == out[p, t] / sumWeight[t]
  {
    r := seq(out.Length0, p requires 0 <= p < out.Length0
      requires forall t :: 0 <= t < sumWeight.Length ==> sumWeight[t] > 0.0
      reads out, sumWeight =>
      seq(out.Length1, t requires 0 <= t < out.Length1 && sumWeight[t] > 0.0 reads out, sumWeight =>
        out[p, t] / sumWeight[t]));
  }

  predicate Gap(c: Cut) {
    c.stride > c.segment && c.length > c.segment
  }

  /** The smallest accumulated weight is zero exactly when the cut leaves a gap. */
  lemma LeastWeight(c: Cut, sums: seq<real>)
    requires c.Valid() && |sums| == c.length > 0
    requires forall t :: 0 <= t < |sums| ==> sums[t] == c.TotalWeight(c.Count(), t)
    ensures Least(sums) <= 0.0 <==> Gap(c)
    ensures !Gap(c) ==> forall t :: 0 <= t < |sums| ==> sums[t] > 0.0
  {
    if Gap(c) {
      TotalIsZero(c);
      assert sums[c.segment] in sums;
    } else {
      forall t: nat | t < |sums| ensures sums[t] > 0.0 { TotalIsPositive(c, t); }
    }
  }

  /** The weighted mean of the estimates of sample `t`. */
  ghost function Mean(c: Cut, model: Model, rows: seq<seq<real>>, p: nat, t: int): real
    requires c.Valid() && Rectangle(rows, |rows|, c.length)
  {
    var total := c.TotalWeight(c.Count(), t);
    if total > 0.0 then Weighted(c, model, rows, c.Count(), p, t) / total else 0.0
  }

  /** The track was left at the first segment that was refused, or that the model failed on. */
  ghost predicate Stopped(
    c: Cut, model: Model, rows: seq<seq<real>>, progress: (nat, nat) -> bool, error: Error, runs: nat)
    requires c.Valid() && Rectangle(rows, |rows|, c.length)
  {
    var n := c.Count();
    match error
    case Refused => Reaches(c, model, rows, progress, runs) && !progress(runs, n)
    case ModelFailed =>
      && 0 < runs <= n && Reaches(c, model, rows, progress, runs - 1) && progress(runs - 1, n)
      && Separate(model, Window(c, rows, runs - 1)).None?
    case _ => false
  }

  /** What the finished sums give. */
  ghost predicate Settled(
    c: Cut, model: Model, planes: nat, rows: seq<seq<real>>, r: Result<seq<seq<real>>, Error>)
    requires c.Valid() && Rectangle(rows, |rows|, c.length)
  {
    match r
    case Err(EmptyTrack) => c.length == 0
    case Err(Uncovered) => c.length > 0 && Gap(c)
    case Err(_) => false
    case Ok(out) =>
      && c.length > 0 && !Gap(c) && Rectangle(out, planes, c.length)
      && forall p, t :: 0 <= p < planes && 0 <= t < c.length ==> out[p][t] == Mean(c, model, rows, p, t)
  }

  /** What an answer after `runs` runs of the model says happened. */
  ghost predicate Answers(
    c: Cut, model: Model, planes: nat, rows: seq<seq<real>>, progress: (nat, nat) -> bool,
    r: Result<seq<seq<real>>, Error>, runs: nat)
    requires c.Valid() && Rectangle(rows, |rows|, c.length)
  {
    var n := c.Count();
    if r.Err? && r.error in {Refused, ModelFailed} then Stopped(c, model, rows, progress, r.error, runs)
    else
      && runs == n && Reaches(c, model, rows, progress, n) && progress(n, n)
      && Settled(c, model, planes, rows, r)
  }

  /** The first `n` segments have been added in. */
  ghost predicate Accumulated(
    c: Cut, model: Model, rows: seq<seq<real>>, n: nat, out: array2<real>, sumWeight: array<real>)
    requires c.Valid() && Rectangle(rows, |rows|, c.length)
    reads out, sumWeight
  {
    && out.Length1 == sumWeight.Length == c.length
    && (forall t :: 0 <= t < c.length ==> sumWeight[t] == c.TotalWeight(n, t))
    && forall p, t :: 0 <= p < out.Length0 && 0 <= t < c.length ==> out[p, t] == Weighted(c, model, rows, n, p, t)
  }

  lemma TotalStep(c: Cut, k: nat, t: nat)
    requires c.Valid() && k < c.Count()
    ensures c.TotalWeight(k + 1, t) == c.TotalWeight(k, t) + At(Weight(c.segment)[..c.Take(k)], t - c.Offset(k))
  {
    WeightIsAligned(c, k, t);
  }

  lemma WeightedStep(c: Cut, model: Model, rows: seq<seq<real>>, planes: seq<seq<real>>, k: nat, p: nat, t: nat)
    requires c.Valid() && Rectangle(rows, |rows|, c.length) && k < c.Count()
    requires Separate(model, Window(c, rows, k)) == Some(planes) && Rectangle(planes, |planes|, c.segment)
    requires p < |planes|
    ensures Weighted(c, model, rows, k + 1, p, t)
            == Weighted(c, model, rows, k, p, t)
               + Added(Piece(c, planes, k)[p], Weight(c.segment)[..c.Take(k)], c.Offset(k), t)
  {
    PieceIsAligned(c, model, rows, planes, k, p, t);
  }

  /** One segment's estimates enter the sums. */
  method Accumulate(
    c: Cut, model: Model, rows: seq<seq<real>>, k: nat, planes: seq<seq<real>>,
    out: array2<real>, sumWeight: array<real>)
    requires c.Valid() && Rectangle(rows, |rows|, c.length) && k < c.Count()
    requires Separate(model, Window(c, rows, k)) == Some(planes) && Rectangle(planes, out.Length0, c.segment)
    requires Accumulated(c, model, rows, k, out, sumWeight)
    modifies out, sumWeight
    ensures Accumulated(c, model, rows, k + 1, out, sumWeight)
  {
    hide Weighted, Weight, Piece, Separate, Window, Added;
    var w, piece := Weight(c.segment)[..c.Take(k)], Piece(c, planes, k);
    forall t: nat | t < c.length
      ensures c.TotalWeight(k + 1, t) == c.TotalWeight(k, t) + At(w, t - c.Offset(k))
    {
      TotalStep(c, k, t);
    }
    forall p: nat, t: nat | p < out.Length0 && t < c.length
      ensures Weighted(c, model, rows, k + 1, p, t)
              == Weighted(c, model, rows, k, p, t) + Added(piece[p], w, c.Offset(k), t)
    {
      WeightedStep(c, model, rows, planes, k, p, t);
    }
    AddInto(out, sumWeight, c.Offset(k), piece, w);
  }

  /** The loop over the segments, and the last report after it. */
  method Sweep(
    c: Cut, model: Model, rows: seq<seq<real>>, progress: (nat, nat) -> bool,
    out: array2<real>, sumWeight: array<real>)
    returns (stopped: Option<Error>, runs: nat)
    requires c.Valid() && c.segment == model.segment && Rectangle(rows, |rows|, c.length)
    requires Shaped(model, |rows|, out.Length0) && Accumulated(c, model, rows, 0, out, sumWeight)
    modifies out, sumWeight
    ensures stopped.Some? ==> Stopped(c, model, rows, progress, stopped.value, runs)
    ensures stopped.None? ==>
      && runs == c.Count() && Reaches(c, model, rows, progress, runs) && progress(runs, runs)
      && Accumulated(c, model, rows, runs, out, sumWeight)
  {
    var total := c.Count();
    runs := 0;
    for done := 0 to total
      invariant runs == done && Reaches(c, model, rows, progress, done)
      invariant Accumulated(c, model, rows, done, out, sumWeight)
    {
      if !progress(done, total) {
        return Some(Refused), runs;
      }
      var separated := Separate(model, Window(c, rows, done));
      runs := runs + 1;
      if separated.None? {
        return Some(ModelFailed), runs;
      }
      Accumulate(c, model, rows, done, separated.value, out, sumWeight);
    }
    if !progress(total, total) {
      return Some(Refused), runs;
    }
    stopped := None;
  }

  /** The check of the least weight, and the division. */
  method Settle(c: Cut, model: Model, rows: seq<seq<real>>, out: array2<real>, sumWeight: array<real>)
    returns (r: Result<seq<seq<real>>, Error>)
    requires c.Valid() && Rectangle(rows, |rows|, c.length)
    requires Accumulated(c, model, rows, c.Count(), out, sumWeight)
    ensures Settled(c, model, out.Length0, rows, r)
  {
    if c.length == 0 {
      return Err(EmptyTrack);
    }
    LeastWeight(c, sumWeight[..]);
    if Least(sumWeight[..]) <= 0.0 {
      return Err(Uncovered);
    }
    assert forall t :: 0 <= t < c.length ==> sumWeight[..][t] == sumWeight[t];
    var mean := Divide(out, sumWeight);
    r := Ok(mean);
  }

  method Run(
    model: Model, planes: nat, rows: seq<seq<real>>, length: nat, overlap: real, progress: (nat, nat) -> bool)
    returns (r: Result<seq<seq<real>>, Error>, runs: nat)
    requires model.segment > 0 && Rectangle(rows, |rows|, length) && Shaped(model, |rows|, planes)
    ensures var stride := Stride(overlap, model.segment);
      if stride < 1 then r == Err(NoStride) && runs == 0
      else Answers(Cut(model.segment, stride, length), model, planes, rows, progress, r, runs)
  {
    var stride := Stride(overlap, model.segment);
    if stride < 1 {
      return Err(NoStride), 0;
    }
    var c := Cut(model.segment, stride, length);
    var out := new real[planes, length]((p, t) => 0.0);
    var sumWeight := new real[length](t => 0.0);
    var stopped;
    stopped, runs := Sweep(c, model, rows, progress, out, sumWeight);
    if stopped.Some? {
      return Err(stopped.value), runs;
    }
    r := Settle(c, model, rows, out, sumWeight);
  }

  // ----- what the crossfade means

  /** Bounds on every estimate of a sample bound the sample. */
  lemma MeanIsBetween(c: Cut, model: Model, rows: seq<seq<real>>, p: nat, t: nat, lo: real, hi: real)
    requires c.Valid() && Rectangle(rows, |rows|, c.length) && t < c.length && !Gap(c)
    requires forall k: nat :: k < c.Count() && c.Covers(k, t) ==> lo <= Estimate(c, model, rows, k, p, t) <= hi
    ensures lo <= Mean(c, model, rows, p, t) <= hi
  {
    var n := c.Count();
    TotalIsPositive(c, t);
    WeightedIsBetween(c, model, rows, n, p, t, lo, hi);
    var m, total := Mean(c, model, rows, p, t), c.TotalWeight(n, t);
    MeanBounds(Weighted(c, model, rows, n, p, t), total, lo, hi);
  }

  lemma MeanBounds(sum: real, total: real, lo: real, hi: real)
    requires total > 0.0 && Product(lo, total) <= sum <= Product(hi, total)
    ensures lo <= sum / total <= hi
  {
    var m := sum / total;
    assert m * total == sum;
    if m < lo { ProductOfPositives(lo - m, total); }
    if m > hi { ProductOfPositives(m - hi, total); }
  }

  lemma TermIsBetween(e: real, w: real, lo: real, hi: real)
    requires w >= 0.0 && (w > 0.0 ==> lo <= e <= hi)
    ensures Product(lo, w) <= Product(e, w) <= Product(hi, w)
  {
    if w > 0.0 {
      if e > lo { ProductOfPositives(e - lo, w); }
      if e < hi { ProductOfPositives(hi - e, w); }
    }
  }

  lemma OneMoreIsBetween(sum: real, total: real, e: real, w: real, lo: real, hi: real)
    requires Product(lo, total) <= sum <= Product(hi, total)
    requires w >= 0.0 && (w > 0.0 ==> lo <= e <= hi)
    ensures Product(lo, total + w) <= sum + Product(e, w) <= Product(hi, total + w)
  {
    TermIsBetween(e, w, lo, hi);
    Spread(lo, total, w);
    Spread(hi, total, w);
  }

  lemma {:induction false} WeightedIsBetween(
    c: Cut, model: Model, rows: seq<seq<real>>, n: nat, p: nat, t: nat, lo: real, hi: real)
    requires c.Valid() && Rectangle(rows, |rows|, c.length) && t < c.length && n <= c.Count()
    requires forall k: nat :: k < c.Count() && c.Covers(k, t) ==> lo <= Estimate(c, model, rows, k, p, t) <= hi
    ensures Product(lo, c.TotalWeight(n, t)) <= Weighted(c, model, rows, n, p, t) <= Product(hi, c.TotalWeight(n, t))
  {
    hide Estimate, Weight, Window, Separate;
    if n > 0 {
      WeightedIsBetween(c, model, rows, n - 1, p, t, lo, hi);
      WeightAtIsPositive(c, n - 1, t);
      OneMoreIsBetween(Weighted(c, model, rows, n - 1, p, t), c.TotalWeight(n - 1, t),
                       Estimate(c, model, rows, n - 1, p, t), c.WeightAt(n - 1, t), lo, hi);
    }
  }

  lemma Spread(a: real, x: real, y: real)
    ensures Product(a, x + y) == Product(a, x) + Product(a, y)
  {
  }

  /** A model that separates nothing gives the track back. */
  lemma IdentityGivesTheTrackBack(
    c: Cut, model: Model, rows: seq<seq<real>>, progress: (nat, nat) -> bool,
    r: Result<seq<seq<real>>, Error>, runs: nat)
    requires c.Valid() && Rectangle(rows, |rows|, c.length)
    requires forall chunk :: Separate(model, chunk) == Some(chunk)
    requires forall done: nat, total: nat :: progress(done, total)
    requires Answers(c, model, |rows|, rows, progress, r, runs)
    ensures r == if c.length == 0 then Err(EmptyTrack) else if Gap(c) then Err(Uncovered) else Ok(rows)
    ensures runs == c.Count()
  {
    if r.Ok? {
      forall p: nat, t: nat | p < |rows| && t < c.length ensures r.value[p][t] == rows[p][t] {
        forall k: nat | k < c.Count() && c.Covers(k, t)
          ensures rows[p][t] <= Estimate(c, model, rows, k, p, t) <= rows[p][t]
        {
          assert Separate(model, Window(c, rows, k)) == Some(Window(c, rows, k));
          assert Window(c, rows, k)[p][t - c.Start(k)] == At(rows[p], t);
        }
        MeanIsBetween(c, model, rows, p, t, rows[p][t], rows[p][t]);
      }
      assert forall p :: 0 <= p < |rows| ==> r.value[p] == rows[p];
      assert r.value == rows;
    }
  }

  /** An overlap that is not negative never leaves a gap, whatever the track. */
  lemma OverlapLeavesNoGap(overlap: real, segment: nat, length: nat)
    requires overlap >= 0.0
    ensures Stride(overlap, segment) <= segment
    ensures Stride(overlap, segment) >= 1 ==> !Gap(Cut(segment, Stride(overlap, segment), length))
  {
    var v := (1.0 - overlap) * segment as real;
    assert overlap * segment as real >= 0.0;
    assert v <= segment as real;
  }
}
