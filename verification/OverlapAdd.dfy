/**
 Overlap-add.

 The definition places frame `f` at `f * hop` and sums.  The code instead lays every
 k-th frame end to end in slots wide enough that they cannot meet, and sums k of those:
 `OverlapAdd` is proved to compute the definition, for hops that divide the window and
 for hops that do not.
 */
module OverlapAdd {
  import opened Wrappers
  import opened Sums
  import opened Arith

  /** What frame `f` contributes to output sample `t`. */
  function Placed(frames: seq<seq<real>>, hop: int, f: int, t: int): real {
    if 0 <= f < |frames| then At(frames[f], t - f * hop) else 0.0
  }

  /** Sample `t` of the overlap-added signal, by definition. */
  ghost function Naive(frames: seq<seq<real>>, hop: int, t: int): real {
    Sum(f => Placed(frames, hop, f, t), |frames|)
  }

  /** Frames that contribute `c` times as much sum to `c` times as much. */
  lemma NaiveScaled(x: seq<seq<real>>, y: seq<seq<real>>, hop: int, t: int, c: real)
    requires |x| == |y|
    requires forall f: nat :: f < |y| ==> Placed(x, hop, f, t) == Product(c, Placed(y, hop, f, t))
    ensures Naive(x, hop, t) == Product(c, Naive(y, hop, t))
  {
    SumTimes(f => Placed(y, hop, f, t), c, f => Placed(x, hop, f, t), |x|);
  }

  /** The same sum restricted to frames whose number is below `k` modulo `groups`. */
  ghost function Partial(frames: seq<seq<real>>, hop: int, groups: int, k: int, t: int): real
    requires groups > 0
  {
    Sum(f => if f % groups < k then Placed(frames, hop, f, t) else 0.0, |frames|)
  }

  /** And to one residue class. */
  ghost function ClassSum(frames: seq<seq<real>>, hop: int, groups: int, k: int, t: int): real
    requires groups > 0
  {
    Sum(f => if f % groups == k then Placed(frames, hop, f, t) else 0.0, |frames|)
  }

  /** `(a + b - 1) / b` on `i32`, whose division truncates toward zero. */
  function DivCeil(a: int, b: int): int
    requires b > 0
  {
    if a + b - 1 >= 0 then (a + b - 1) / b else -((1 - a - b) / b)
  }

  /** Rounded up for a count, and toward zero below it, as the machine's division does. */
  lemma DivCeilTruncates(a: int, b: int)
    requires b > 0
    ensures var q, n := DivCeil(a, b), a + b - 1;
      if n >= 0 then b * q <= n < b * q + b else b * q - b < n <= b * q
  {
  }

  function Plus(x: seq<real>, y: seq<real>): (r: seq<real>)
    requires |x| == |y|
    ensures |r| == |x| && forall i :: 0 <= i < |r| ==> r[i] == x[i] + y[i]
  {
    seq(|x|, i requires 0 <= i < |x| => x[i] + y[i])
  }

  /** The named frames end to end: a gather followed by a reshape. */
  function Join(frames: seq<seq<real>>, taken: seq<nat>): seq<real>
    requires forall j :: 0 <= j < |taken| ==> taken[j] < |frames|
  {
    if taken == [] then []
    else Join(frames, taken[..|taken| - 1]) + frames[taken[|taken| - 1]]
  }

  lemma {:induction false} JoinLength(frames: seq<seq<real>>, taken: seq<nat>, slot: nat)
    requires forall j :: 0 <= j < |taken| ==> taken[j] < |frames| && |frames[taken[j]]| == slot
    ensures |Join(frames, taken)| == |taken| * slot
  {
    if taken != [] {
      JoinLength(frames, taken[..|taken| - 1], slot);
      assert |taken| * slot == (|taken| - 1) * slot + slot;
    }
  }

  lemma {:induction false} JoinAt(frames: seq<seq<real>>, taken: seq<nat>, slot: nat, j: nat, i: nat)
    requires forall j :: 0 <= j < |taken| ==> taken[j] < |frames| && |frames[taken[j]]| == slot
    requires j < |taken| && i < slot
    ensures j * slot + i < |Join(frames, taken)|
    ensures Join(frames, taken)[j * slot + i] == frames[taken[j]][i]
  {
    JoinLength(frames, taken, slot);
    var front := taken[..|taken| - 1];
    JoinLength(frames, front, slot);
    assert |taken| * slot == (|taken| - 1) * slot + slot;
    if j < |taken| - 1 {
      JoinAt(frames, front, slot, j, i);
    }
  }

  // ----- the frames of one residue class never meet

  lemma ClassPosition(hop: int, groups: int, start: int, j: int, slot: int)
    requires slot == groups * hop
    ensures (start + j * groups) * hop == start * hop + j * slot
  {
    calc {
      (start + j * groups) * hop;
      start * hop + (j * groups) * hop;
      start * hop + j * (groups * hop);
    }
  }

  lemma Residue(groups: int, start: int, j: int)
    requires 0 <= start < groups
    ensures (start + j * groups) % groups == start
    ensures (start + j * groups) / groups == j
  {
    DivModUnique(start + j * groups, groups, j, start);
  }

  /** Outside its own slot a frame of the class is silent. */
  lemma OtherSlotsAreSilent(
    frames: seq<seq<real>>, nfft: nat, hop: nat, slot: nat, start: nat, t: int, f: nat, j: int, j0: int)
    requires forall k :: 0 <= k < |frames| ==> |frames[k]| == nfft
    requires nfft <= slot && f < |frames| && j != j0
    requires f * hop == start * hop + j * slot
    requires j0 * slot <= t - start * hop < j0 * slot + slot
    ensures Placed(frames, hop, f, t) == 0.0
  {
    if j < j0 {
      MulLe(j + 1, j0, slot);
      MulDistribute(j, 1, slot);
    } else {
      MulLe(j0 + 1, j, slot);
      MulDistribute(j0, 1, slot);
    }
  }

  /** A class contributes the one frame whose slot holds `t`. */
  lemma ClassSumIsOneFrame(
    frames: seq<seq<real>>, nfft: nat, hop: nat, groups: nat, start: nat, t: int, j0: nat)
    requires forall k :: 0 <= k < |frames| ==> |frames[k]| == nfft
    requires hop > 0 && groups > 0 && nfft <= groups * hop && start < groups
    requires j0 * (groups * hop) <= t - start * hop < j0 * (groups * hop) + groups * hop
    requires start + j0 * groups < |frames|
    ensures ClassSum(frames, hop, groups, start, t)
            == At(frames[start + j0 * groups], t - start * hop - j0 * (groups * hop))
  {
    var f0 := start + j0 * groups;
    var term := (f: int) => if f % groups == start then Placed(frames, hop, f, t) else 0.0;
    Residue(groups, start, j0);
    forall f | 0 <= f < |frames| && f != f0 ensures term(f) == 0.0 {
      if f % groups == start {
        DivModIs(f, groups);
        ClassPosition(hop, groups, start, f / groups, groups * hop);
        OtherSlotsAreSilent(frames, nfft, hop, groups * hop, start, t, f, f / groups, j0);
      }
    }
    SumOne(term, |frames|, f0);
    ClassPosition(hop, groups, start, j0, groups * hop);
  }

  /** And nothing where no frame of the class has its slot. */
  lemma ClassSumIsSilent(
    frames: seq<seq<real>>, nfft: nat, hop: nat, groups: nat, start: nat, t: int, j0: int)
    requires forall k :: 0 <= k < |frames| ==> |frames[k]| == nfft
    requires hop > 0 && groups > 0 && nfft <= groups * hop && start < groups
    requires j0 * (groups * hop) <= t - start * hop < j0 * (groups * hop) + groups * hop
    requires j0 < 0 || start + j0 * groups >= |frames|
    ensures ClassSum(frames, hop, groups, start, t) == 0.0
  {
    var term := (f: int) => if f % groups == start then Placed(frames, hop, f, t) else 0.0;
    forall f | 0 <= f < |frames| ensures term(f) == 0.0 {
      if f % groups == start {
        DivModIs(f, groups);
        ClassPosition(hop, groups, start, f / groups, groups * hop);
        assert f / groups != j0;
        OtherSlotsAreSilent(frames, nfft, hop, groups * hop, start, t, f, f / groups, j0);
      }
    }
    SumZero(term, |frames|);
  }

  // ----- the residue classes partition the frames

  lemma PartialStep(frames: seq<seq<real>>, hop: int, groups: int, k: nat, t: int)
    requires groups > 0
    ensures Partial(frames, hop, groups, k + 1, t)
            == Partial(frames, hop, groups, k, t) + ClassSum(frames, hop, groups, k, t)
  {
    SumPlus((f: int) => if f % groups < k then Placed(frames, hop, f, t) else 0.0,
            (f: int) => if f % groups == k then Placed(frames, hop, f, t) else 0.0,
            (f: int) => if f % groups < k + 1 then Placed(frames, hop, f, t) else 0.0, |frames|);
  }

  lemma PartialEnds(frames: seq<seq<real>>, hop: int, groups: int, t: int)
    requires groups > 0
    ensures Partial(frames, hop, groups, 0, t) == 0.0
    ensures Partial(frames, hop, groups, groups, t) == Naive(frames, hop, t)
  {
    SumZero((f: int) => if f % groups < 0 then Placed(frames, hop, f, t) else 0.0, |frames|);
    SumSame((f: int) => if f % groups < groups then Placed(frames, hop, f, t) else 0.0,
            (f: int) => Placed(frames, hop, f, t), |frames|);
  }

  // ----- the sizes the code computes

  lemma DivCeilIs(a: int, b: int)
    requires b > 0 && a + b > 0
    ensures DivCeil(a, b) * b >= a && DivCeil(a, b) * b < a + b && DivCeil(a, b) >= 0
  {
    DivModIs(a + b - 1, b);
    if DivCeil(a, b) < 0 { MulLe(DivCeil(a, b), -1, b); }
  }

  /** One slot holds a frame, and consecutive frames of a class are one slot apart. */
  lemma SlotHoldsAFrame(nfft: nat, hop: nat)
    requires nfft > 0 && hop > 0
    ensures DivCeil(nfft, hop) > 0 && nfft <= DivCeil(nfft, hop) * hop < nfft + hop
  {
    DivCeilIs(nfft, hop);
    if DivCeil(nfft, hop) <= 0 { MulLe(DivCeil(nfft, hop), 0, hop); }
  }

  /** The frames of one class: `start`, `start + groups`, ... */
  method Gather(frames: nat, start: nat, groups: nat) returns (taken: seq<nat>)
    requires start < groups
    ensures |taken| == DivCeil(frames - start, groups)
    ensures forall j :: 0 <= j < |taken| ==> taken[j] == start + j * groups < frames
    ensures start + |taken| * groups >= frames
  {
    taken := [];
    var k := start;
    while k < frames
      invariant k == start + |taken| * groups
      invariant forall j :: 0 <= j < |taken| ==> taken[j] == start + j * groups < frames
      invariant |taken| > 0 ==> start + (|taken| - 1) * groups < frames
      decreases frames - k
    {
      MulDistribute(|taken|, 1, groups);
      taken := taken + [k];
      k := k + groups;
    }
    ghost var n := |taken|;
    DivCeilIs(frames - start, groups);
    ghost var d := DivCeil(frames - start, groups);
    if n > 0 { MulDistribute(n, 1, groups); }
    if d < n { MulLe(d + 1, n, groups); MulDistribute(d, 1, groups); MulLe(d, n - 1, groups); }
    if n < d { MulLe(n + 1, d, groups); MulDistribute(n, 1, groups); }
  }

  // ----- one class laid end to end

  function PadRight(frame: seq<real>, slot: nat): (r: seq<real>)
    requires |frame| <= slot
    ensures |r| == slot && forall i :: 0 <= i < slot ==> r[i] == At(frame, i)
  {
    frame + Zeros(slot - |frame|)
  }

  function PadFrames(frames: seq<seq<real>>, nfft: nat, slot: nat): (r: seq<seq<real>>)
    requires forall f :: 0 <= f < |frames| ==> |frames[f]| == nfft
    requires nfft <= slot
    ensures |r| == |frames|
    ensures forall f :: 0 <= f < |r| ==> |r[f]| == slot && forall i :: 0 <= i < slot ==> r[f][i] == At(frames[f], i)
  {
    if slot > nfft then seq(|frames|, f requires 0 <= f < |frames| => PadRight(frames[f], slot)) else frames
  }

  /** What the class contributes to sample `t` once joined and shifted by `start` hops. */
  lemma JoinedIsClass(
    frames: seq<seq<real>>, framed: seq<seq<real>>, nfft: nat, hop: nat, groups: nat, slot: nat,
    start: nat, taken: seq<nat>, t: nat)
    requires forall f :: 0 <= f < |frames| ==> |frames[f]| == nfft
    requires hop > 0 && groups > 0 && slot == groups * hop && nfft <= slot && start < groups
    requires framed == PadFrames(frames, nfft, slot)
    requires forall j :: 0 <= j < |taken| ==> taken[j] == start + j * groups < |frames|
    requires start + |taken| * groups >= |frames|
    ensures |Join(framed, taken)| == |taken| * slot
    ensures At(Join(framed, taken), t - start * hop) == ClassSum(frames, hop, groups, start, t)
  {
    JoinLength(framed, taken, slot);
    assert slot > 0 by { MulLe(1, groups, hop); }
    var q := t - start * hop;
    var j, i := q / slot, q % slot;
    DivModIs(q, slot);
    if q < 0 {
      if j >= 0 { MulLe(0, j, slot); }
      ClassSumIsSilent(frames, nfft, hop, groups, start, t, j);
    } else if q < |taken| * slot {
      if j >= |taken| { MulLe(|taken|, j, slot); }
      if j < 0 { MulLe(j, -1, slot); }
      JoinAt(framed, taken, slot, j, i);
      ClassSumIsOneFrame(frames, nfft, hop, groups, start, t, j);
    } else {
      if j < |taken| { MulLe(j + 1, |taken|, slot); MulDistribute(j, 1, slot); }
      MulLe(|taken|, j, groups);
      ClassSumIsSilent(frames, nfft, hop, groups, start, t, j);
    }
  }

  /** A class with no frame in it contributes nothing. */
  lemma EmptyClass(frames: seq<seq<real>>, hop: nat, groups: nat, start: nat, t: int)
    requires groups > 0 && |frames| <= start < groups
    ensures ClassSum(frames, hop, groups, start, t) == 0.0
  {
    var term := (f: int) => if f % groups == start then Placed(frames, hop, f, t) else 0.0;
    forall f | 0 <= f < |frames| ensures term(f) == 0.0 { DivModUnique(f, groups, 0, f); }
    SumZero(term, |frames|);
  }

  /** Room for the width asked for and for every class's slots, which can run past it. */
  method BufferFor(frames: nat, hop: nat, groups: nat, slot: nat, width: nat) returns (buffer: nat)
    ensures buffer >= width
    ensures groups > 0 ==> forall g :: 0 <= g < groups ==> buffer >= g * hop + DivCeil(frames - g, groups) * slot
  {
    buffer := width;
    for start := 0 to groups
      invariant buffer >= width
      invariant forall g :: 0 <= g < start ==> buffer >= g * hop + DivCeil(frames - g, groups) * slot
    {
      var need := start * hop + DivCeil(frames - start, groups) * slot;
      buffer := if need > buffer then need else buffer;
    }
  }

  /** One class gathered, joined and shifted into the buffer; `None` where it has no frame. */
  method PlaceClass(
    frames: seq<seq<real>>, framed: seq<seq<real>>, nfft: nat, hop: nat, groups: nat, slot: nat,
    buffer: nat, start: nat)
    returns (placed: Option<seq<real>>)
    requires forall f :: 0 <= f < |frames| ==> |frames[f]| == nfft
    requires hop > 0 && groups > 0 && slot == groups * hop && nfft <= slot && start < groups
    requires framed == PadFrames(frames, nfft, slot)
    requires buffer >= start * hop + DivCeil(|frames| - start, groups) * slot
    ensures placed.None? <==> |frames| <= start
    ensures placed.Some? ==> |placed.value| == buffer
    ensures placed.Some? ==>
      forall t :: 0 <= t < buffer ==> placed.value[t] == ClassSum(frames, hop, groups, start, t)
  {
    var taken := Gather(|frames|, start, groups);
    if |taken| == 0 {
      return None;
    }
    assert taken[0] == start + 0 * groups;
    var joined := Join(framed, taken);
    JoinLength(framed, taken, slot);
    var left := start * hop;
    var right := buffer - left - |taken| * slot;
    placed := Some(Zeros(left) + joined + Zeros(right));
    forall t: nat | t < buffer ensures placed.value[t] == ClassSum(frames, hop, groups, start, t) {
      JoinedIsClass(frames, framed, nfft, hop, groups, slot, start, taken, t);
    }
  }

  /** The running total takes in one more class. */
  lemma TotalStep(frames: seq<seq<real>>, hop: nat, groups: nat, start: nat, placed: Option<seq<real>>, t: nat)
    requires groups > 0 && start < groups
    requires placed.None? <==> |frames| <= start
    requires placed.Some? ==> t < |placed.value| && placed.value[t] == ClassSum(frames, hop, groups, start, t)
    ensures Partial(frames, hop, groups, start + 1, t)
            == Partial(frames, hop, groups, start, t) + (if placed.Some? then placed.value[t] else 0.0)
  {
    PartialStep(frames, hop, groups, start, t);
    if placed.None? { EmptyClass(frames, hop, groups, start, t); }
  }

  /** Overlap-add of one row, by groups. */
  method Run(frames: seq<seq<real>>, nfft: nat, hop: nat, width: nat) returns (r: Option<seq<real>>)
    requires nfft > 0 && hop > 0
    requires forall f :: 0 <= f < |frames| ==> |frames[f]| == nfft
    ensures r.None? <==> frames == []
    ensures r.Some? ==> |r.value| == width
    ensures r.Some? ==> forall t :: 0 <= t < width ==> r.value[t] == Naive(frames, hop, t)
  {
    SlotHoldsAFrame(nfft, hop);
    var groups := DivCeil(nfft, hop);
    var slot := groups * hop;
    var framed := PadFrames(frames, nfft, slot);
    var buffer := BufferFor(|frames|, hop, groups, slot, width);

    var total: Option<seq<real>> := None;
    for start := 0 to groups
      invariant total.None? <==> start == 0 || frames == []
      invariant total.Some? ==> |total.value| == buffer
      invariant total.Some? ==>
        forall t :: 0 <= t < buffer ==> total.value[t] == Partial(frames, hop, groups, start, t)
    {
      var placed := PlaceClass(frames, framed, nfft, hop, groups, slot, buffer, start);
      forall t: nat | t < buffer
        ensures Partial(frames, hop, groups, start + 1, t)
                == Partial(frames, hop, groups, start, t) + (if placed.Some? then placed.value[t] else 0.0)
        ensures Partial(frames, hop, groups, 0, t) == 0.0
      {
        TotalStep(frames, hop, groups, start, placed, t);
        PartialEnds(frames, hop, groups, t);
      }
      if placed.None? {
        continue;
      }
      total := Some(match total case Some(sum) => Plus(sum, placed.value) case None => placed.value);
    }
    if total.None? {
      return None;
    }
    forall t: nat | t < width ensures total.value[t] == Naive(frames, hop, t) {
      PartialEnds(frames, hop, groups, t);
    }
    r := Some(total.value[..width]);
  }
}
