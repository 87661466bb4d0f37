/**
 The preimage of a cache key: the uploaded samples, unprefixed, then nine fields each behind
 its length.

 The reading goes from the right: a length has zero bytes where fields have none.  Different
 ingredients give different preimages unless one model text holds a whole header and the other
 model text, zeros and all.
 */
module CacheKey {
  import opened Arith
  import Text

  type byte = x: int | 0 <= x < 256

  type Bytes = seq<byte>

  const U32_MAX := 0xffff_ffff

  /** A length as four little-endian bytes, held at the largest 32-bit value. */
  function Prefix(length: nat): (p: Bytes)
    ensures |p| == 4
  {
    var n := if length > U32_MAX then U32_MAX else length;
    [n % 0x100, n / 0x100 % 0x100, n / 0x1_0000 % 0x100, n / 0x100_0000]
  }

  function Encode(field: Bytes): (e: Bytes)
    ensures |e| == 4 + |field|
  {
    Prefix(|field|) + field
  }

  predicate ZeroFree(field: Bytes) {
    forall i :: 0 <= i < |field| ==> field[i] != 0
  }

  // ----- the ingredients

  datatype PcmFormat = S16le | F32le
  datatype StemFormat = Flac | Wav | Mp3 | Pcm16 | Pcm32
  datatype OutputRate = Hz24000 | Hz44100 | Hz48000 | Hz96000
  datatype DspMode = General | Mode1

  datatype Ingredients = Ingredients(
    pcm: Bytes, sampleRate: nat, channels: nat, inFormat: PcmFormat, outFormat: StemFormat,
    outRate: OutputRate, includeDerived: bool, dsp: DspMode, model: Bytes)

  const EPOCH := "2"

  predicate Ascii(s: string) {
    forall i :: 0 <= i < |s| ==> ' ' <= s[i] <= '~'
  }

  function AsBytes(s: string): (b: Bytes)
    requires Ascii(s)
    ensures |b| == |s| && forall i :: 0 <= i < |s| ==> b[i] == s[i] as int
  {
    seq(|s|, i requires 0 <= i < |s| => s[i] as int)
  }

  function PcmName(f: PcmFormat): (s: string)
    ensures Ascii(s) && 0 < |s| < 16
  {
    match f case S16le => "s16le" case F32le => "f32le"
  }

  function StemName(f: StemFormat): (s: string)
    ensures Ascii(s) && 0 < |s| < 16
  {
    match f
    case Flac => "flac" case Wav => "wav" case Mp3 => "mp3" case Pcm16 => "pcm16" case Pcm32 => "pcm32"
  }

  function RateName(r: OutputRate): (s: string)
    ensures Ascii(s) && 0 < |s| < 16
  {
    match r
    case Hz24000 => "24000" case Hz44100 => "44100" case Hz48000 => "48000" case Hz96000 => "96000"
  }

  function BoolName(b: bool): (s: string)
    ensures Ascii(s) && 0 < |s| < 16
  {
    if b then "true" else "false"
  }

  function DspName(d: DspMode): (s: string)
    ensures Ascii(s) && |s| == 1
  {
    match d case General => "0" case Mode1 => "1"
  }

  function Number(n: nat): (s: string)
    ensures Ascii(s) && |s| > 0
  {
    Text.Decimal(n)
  }

  /** The eight fields that come from closed sets or are numbers. */
  function Fields(a: Ingredients): (f: seq<string>)
    ensures |f| == 8 && forall i :: 0 <= i < 8 ==> Ascii(f[i])
  {
    [EPOCH, Number(a.sampleRate), Number(a.channels), PcmName(a.inFormat), StemName(a.outFormat),
     RateName(a.outRate), BoolName(a.includeDerived), DspName(a.dsp)]
  }

  function Upto(a: Ingredients, n: nat): Bytes
    requires n <= 8
  {
    if n == 0 then a.pcm else Upto(a, n - 1) + Encode(AsBytes(Fields(a)[n - 1]))
  }

  function Preimage(a: Ingredients): Bytes {
    Upto(a, 8) + Encode(a.model)
  }

  // ----- reading one field from the right

  /** Fields short enough that their length has a zero top byte, behind anything at all. */
  lemma LastField(x: Bytes, f: Bytes, y: Bytes, g: Bytes)
    requires ZeroFree(f) && ZeroFree(g) && |f| < 0x100_0000 && |g| < 0x100_0000
    requires x + Encode(f) == y + Encode(g)
    ensures f == g && x == y
  {
    var s := x + Encode(f);
    LastFieldAt(s, x, f);
    LastFieldAt(s, y, g);
    assert |f| == |g|;
  }

  lemma LastFieldAt(s: Bytes, x: Bytes, f: Bytes)
    requires ZeroFree(f) && |f| < 0x100_0000 && s == x + Encode(f)
    ensures |s| == |x| + 4 + |f| && s[|s| - |f| - 1] == 0
    ensures forall i :: |s| - |f| <= i < |s| ==> s[i] != 0
    ensures s[|s| - |f|..] == f && s[..|s| - |f| - 4] == x
  {
    assert s[|x| + 3] == Prefix(|f|)[3];
    assert forall i :: |s| - |f| <= i < |s| ==> s[i] == f[i - (|s| - |f|)];
  }

  /** What stands before the model: the last of the eight fields is one digit. */
  predicate EndsInDigit(x: Bytes) {
    |x| >= 5 && x[|x| - 5..|x| - 1] == [1, 0, 0, 0] && x[|x| - 1] in [48, 49]
  }

  lemma EndsInDigitAt(s: Bytes, x: Bytes, f: Bytes)
    requires EndsInDigit(x) && ZeroFree(f) && s == x + Encode(f)
    ensures var e := |s| - |f| - 4;
      && e == |x| >= 5 && s[e - 5] == 1 && s[e - 4] == s[e - 3] == s[e - 2] == 0 && s[e - 1] in [48, 49]
      && s[e..e + 4] == Prefix(|f|) && (forall i :: e + 4 <= i < |s| ==> s[i] != 0)
      && s[..e] == x && s[e + 4..] == f
  {
    var e := |x|;
    assert x[e - 5..e - 1][0] == 1 && x[e - 5..e - 1][1] == 0 && x[e - 5..e - 1][2] == 0 && x[e - 5..e - 1][3] == 0;
    assert forall i :: 0 <= i < e ==> s[i] == x[i];
    assert forall i :: e + 4 <= i < |s| ==> s[i] == f[i - e - 4];
  }

  lemma PrefixOfOne(n: nat)
    requires Prefix(n)[0] == 1 && Prefix(n)[1] == 0 && Prefix(n)[2] == 0 && Prefix(n)[3] == 0
    ensures n == 1
  {
  }

  /** A longer model would have to hold, or overlap, the zeros of the shorter one's header. */
  lemma NotLonger(s: Bytes, x: Bytes, f: Bytes, y: Bytes, g: Bytes)
    requires EndsInDigit(x) && EndsInDigit(y) && ZeroFree(f) && ZeroFree(g)
    requires s == x + Encode(f) && s == y + Encode(g)
    ensures |f| >= |g|
  {
    EndsInDigitAt(s, x, f);
    EndsInDigitAt(s, y, g);
    var e, d := |y|, |g| - |f|;
    if d == 5 {
      assert s[e..e + 4][0] == s[e] && s[e..e + 4][1] == s[e + 1];
      assert s[e..e + 4][2] == s[e + 2] && s[e..e + 4][3] == s[e + 3];
      PrefixOfOne(|g|);
    }
  }

  /** The model reads back, however long. */
  lemma LastModel(x: Bytes, f: Bytes, y: Bytes, g: Bytes)
    requires EndsInDigit(x) && EndsInDigit(y) && ZeroFree(f) && ZeroFree(g)
    requires x + Encode(f) == y + Encode(g)
    ensures f == g && x == y
  {
    var s := x + Encode(f);
    NotLonger(s, x, f, y, g);
    NotLonger(s, y, g, x, f);
    EndsInDigitAt(s, x, f);
    EndsInDigitAt(s, y, g);
  }

  // ----- the names

  lemma BytesAreInjective(s: string, t: string)
    requires Ascii(s) && Ascii(t) && AsBytes(s) == AsBytes(t)
    ensures s == t
  {
    forall i | 0 <= i < |s| ensures s[i] == t[i] {
      assert AsBytes(s)[i] == AsBytes(t)[i];
    }
  }

  lemma PcmNames(a: PcmFormat, b: PcmFormat)
    requires PcmName(a) == PcmName(b)
    ensures a == b
  {
    assert PcmName(S16le)[0] == 's' && PcmName(F32le)[0] == 'f';
  }

  lemma StemNames(a: StemFormat, b: StemFormat)
    requires StemName(a) == StemName(b)
    ensures a == b
  {
    assert StemName(Wav)[0] == 'w' && StemName(Mp3)[0] == 'm' && StemName(Flac)[0] == 'f';
    assert StemName(Pcm16)[3] == '1' && StemName(Pcm32)[3] == '3';
  }

  lemma RateNames(a: OutputRate, b: OutputRate)
    requires RateName(a) == RateName(b)
    ensures a == b
  {
    assert RateName(Hz24000)[0] == '2' && RateName(Hz96000)[0] == '9';
    assert RateName(Hz44100)[1] == '4' && RateName(Hz48000)[1] == '8';
  }

  lemma OtherNames(a: Ingredients, b: Ingredients)
    ensures BoolName(a.includeDerived) == BoolName(b.includeDerived) ==> a.includeDerived == b.includeDerived
    ensures DspName(a.dsp) == DspName(b.dsp) ==> a.dsp == b.dsp
  {
    assert BoolName(true)[0] == 't' && BoolName(false)[0] == 'f';
    assert DspName(General)[0] == '0' && DspName(Mode1)[0] == '1';
  }

  // ----- the whole preimage

  /** Numbers are machine words, so their numerals are short. */
  predicate Sane(a: Ingredients) {
    a.sampleRate < 0x1_0000_0000 && a.channels < 0x1_0000_0000_0000_0000
  }

  lemma {:induction false} DecimalIsShort(n: nat, k: nat, bound: nat)
    requires k > 0 && n < bound && bound <= Power(10, k)
    ensures |Text.Decimal(n)| <= k
  {
    assert Power(10, 1) == 10 * Power(10, 0);
    if n >= 10 {
      DecimalIsShort(n / 10, k - 1, Power(10, k - 1));
    }
  }

  lemma {:induction false} PowerOfSum(j: nat, k: nat)
    ensures Power(10, j + k) == Power(10, j) * Power(10, k)
  {
    if j > 0 {
      PowerOfSum(j - 1, k);
      assert 10 * (Power(10, j - 1) * Power(10, k)) == (10 * Power(10, j - 1)) * Power(10, k);
    }
  }

  lemma FieldsAreShort(a: Ingredients, i: nat)
    requires Sane(a) && i < 8
    ensures 0 < |Fields(a)[i]| < 48
  {
    assert Power(10, 5) == 100_000;
    PowerOfSum(5, 5);
    PowerOfSum(10, 10);
    DecimalIsShort(a.sampleRate, 20, 0x1_0000_0000);
    DecimalIsShort(a.channels, 20, 0x1_0000_0000_0000_0000);
  }

  lemma HeaderStep(a: Ingredients, b: Ingredients, n: nat)
    requires Sane(a) && Sane(b) && n < 8 && Upto(a, n + 1) == Upto(b, n + 1)
    ensures Upto(a, n) == Upto(b, n) && Fields(a)[n] == Fields(b)[n]
  {
    FieldsAreShort(a, n);
    FieldsAreShort(b, n);
    var f, g := Fields(a)[n], Fields(b)[n];
    LastField(Upto(a, n), AsBytes(f), Upto(b, n), AsBytes(g));
    BytesAreInjective(f, g);
  }

  lemma {:induction false} HeadersReadBack(a: Ingredients, b: Ingredients, n: nat)
    requires Sane(a) && Sane(b) && n <= 8 && Upto(a, n) == Upto(b, n)
    ensures a.pcm == b.pcm && forall i :: 0 <= i < n ==> Fields(a)[i] == Fields(b)[i]
  {
    if n > 0 {
      HeaderStep(a, b, n - 1);
      HeadersReadBack(a, b, n - 1);
    }
  }

  lemma HeaderEndsInDigit(a: Ingredients)
    ensures EndsInDigit(Upto(a, 8))
  {
    var digit := AsBytes(DspName(a.dsp));
    assert Upto(a, 8) == Upto(a, 7) + Encode(digit);
    assert Encode(digit) == [1, 0, 0, 0] + digit;
    assert digit == [48] || digit == [49];
  }

  /** What stands before the model determines everything else. */
  lemma HeaderTells(a: Ingredients, b: Ingredients)
    requires Sane(a) && Sane(b) && Upto(a, 8) == Upto(b, 8)
    ensures a == b.(model := a.model)
  {
    HeadersReadBack(a, b, 8);
    var f, g := Fields(a), Fields(b);
    assert f[1] == g[1] && f[2] == g[2] && f[3] == g[3] && f[4] == g[4] && f[5] == g[5] && f[6] == g[6] && f[7] == g[7];
    Text.DecimalIsInjective(a.sampleRate, b.sampleRate);
    Text.DecimalIsInjective(a.channels, b.channels);
    PcmNames(a.inFormat, b.inFormat);
    StemNames(a.outFormat, b.outFormat);
    RateNames(a.outRate, b.outRate);
    OtherNames(a, b);
  }

  // ----- which model texts can collide

  /** The eight fields as they stand between the samples and the model. */
  function Header(a: Ingredients): Bytes {
    Upto(a.(pcm := []), 8)
  }

  lemma PcmThenHeader(a: Ingredients)
    ensures Upto(a, 8) == a.pcm + Header(a)
  {
    HeaderMoves(a.(pcm := []), a.pcm, 8);
    assert a.pcm + [] == a.pcm;
  }

  predicate EndsIn(whole: Bytes, tail: Bytes) {
    |tail| <= |whole| && whole[|whole| - |tail|..] == tail
  }

  /** Two different sets of ingredients, with these model texts, that have one preimage. */
  ghost predicate CanCollide(m: Bytes, t: Bytes) {
    exists a, b :: Sane(a) && Sane(b) && a.model == m && b.model == t && a != b && Preimage(a) == Preimage(b)
  }

  /** Behind its length, `t` ends in some header and, behind its length, `m`. */
  ghost predicate Swallows(t: Bytes, m: Bytes) {
    exists c :: Sane(c) && EndsIn(Encode(t), Header(c) + Encode(m))
  }

  /** A digit behind the length of a one-byte field ends at `e`. */
  predicate DigitEndsAt(x: Bytes, e: nat) {
    5 <= e <= |x| && x[e - 5] == 1 && x[e - 4] == x[e - 3] == x[e - 2] == 0 && x[e - 1] in [48, 49]
  }

  lemma {:induction false} UptoIsPrefix(a: Ingredients, k: nat, n: nat)
    requires k <= n <= 8
    ensures Upto(a, k) <= Upto(a, n)
    decreases n
  {
    if k < n { UptoIsPrefix(a, k, n - 1); }
  }

  /** Inside a field behind `x`, such a digit can only be the whole field. */
  lemma DigitIsAField(x: Bytes, f: string, e: nat)
    requires Ascii(f) && 0 < |f| < 48 && |x| < e && DigitEndsAt(x + Encode(AsBytes(f)), e)
    ensures e == |x| + 4 + |f|
  {
    var s, o := x + Encode(AsBytes(f)), e - |x|;
    assert forall i :: 0 <= i < 4 ==> s[|x| + i] == Prefix(|f|)[i];
    assert forall i :: 0 <= i < |f| ==> s[|x| + 4 + i] == f[i] as int;
    assert forall i :: |x| + 4 <= i < |s| ==> s[i] != 0;
  }

  /** So past the samples it stands at the end of a field. */
  lemma {:induction false} DigitEndsAField(a: Ingredients, n: nat, e: nat) returns (k: nat)
    requires Sane(a) && n <= 8 && |a.pcm| < e && DigitEndsAt(Upto(a, n), e)
    ensures k <= n && e == |Upto(a, k)|
  {
    var x := Upto(a, n - 1);
    if e <= |x| {
      k := DigitEndsAField(a, n - 1, e);
    } else {
      FieldsAreShort(a, n - 1);
      DigitIsAField(x, Fields(a)[n - 1], e);
      k := n;
    }
  }

  lemma LengthTells(n: nat, k: nat)
    requires k < 0x100 && Prefix(n) == Prefix(k)
    ensures n == k
  {
    assert Prefix(k)[1] == 0 && Prefix(k)[2] == 0 && Prefix(k)[3] == 0 && Prefix(k)[0] == k;
    assert Prefix(n)[1] == 0 && Prefix(n)[2] == 0 && Prefix(n)[3] == 0 && Prefix(n)[0] == k;
  }

  /** A model cannot start where the next field does: it would be as long as that field alone. */
  lemma NoModelStartsAField(a: Ingredients, k: nat, t: Bytes)
    requires Sane(a) && k < 8
    ensures Preimage(a) != Upto(a, k) + Encode(t)
  {
    if Preimage(a) == Upto(a, k) + Encode(t) {
      var s, e, f := Preimage(a), |Upto(a, k)|, AsBytes(Fields(a)[k]);
      FieldsAreShort(a, k);
      UptoIsPrefix(a, k + 1, 8);
      assert s[..|Upto(a, k + 1)|] == Upto(a, k + 1);
      assert s[e..e + 4] == Prefix(|f|) by {
        assert forall i :: 0 <= i < 4 ==> Upto(a, k + 1)[e + i] == Prefix(|f|)[i];
      }
      assert s[e..e + 4] == Prefix(|t|);
      LengthTells(|t|, |f|);
    }
  }

  /** Of two that collide, the longer model swallows the other one's header and model. */
  lemma LongerSwallows(a: Ingredients, b: Ingredients)
    requires Sane(a) && Preimage(a) == Preimage(b) && |a.model| < |b.model|
    ensures EndsIn(Encode(b.model), Header(a) + Encode(a.model))
  {
    hide Upto, Encode, Header;
    PcmThenHeader(a);
    if |Upto(b, 8)| <= |a.pcm| {
      Tail(a.pcm, Header(a), Encode(a.model), Upto(b, 8), Encode(b.model));
    } else {
      NotInTheHeader(a, b);
    }
  }

  lemma Tail(x: Bytes, h: Bytes, f: Bytes, y: Bytes, g: Bytes)
    requires (x + h) + f == y + g && |y| <= |x|
    ensures EndsIn(g, h + f)
  {
    var s := y + g;
    assert s == x + (h + f);
    assert s[|y|..] == g && s[|x|..] == h + f;
    assert s[|x|..] == s[|y|..][|x| - |y|..];
  }

  /** The longer model starts among the other one's samples, since it cannot inside its header. */
  lemma NotInTheHeader(a: Ingredients, b: Ingredients)
    requires Sane(a) && Preimage(a) == Preimage(b) && |a.model| < |b.model|
    ensures |Upto(b, 8)| <= |a.pcm|
  {
    var s, e := Preimage(a), |Upto(b, 8)|;
    hide Upto, Encode;
    if e > |a.pcm| {
      HeaderEndsInDigit(b);
      DigitOf(Upto(b, 8), Upto(a, 8), Encode(b.model), Encode(a.model));
      var k := DigitEndsAField(a, 8, e);
      UptoIsPrefix(a, k, 8);
      assert s[..e] == Upto(b, 8) && s[..e] == Upto(a, k);
      NoModelStartsAField(a, k, b.model);
    }
  }

  lemma DigitOf(x: Bytes, y: Bytes, f: Bytes, g: Bytes)
    requires EndsInDigit(x) && x + f == y + g && |x| < |y|
    ensures DigitEndsAt(y, |x|)
  {
    var e := |x|;
    assert x[e - 5..e - 1][0] == 1 && x[e - 5..e - 1][1] == 0 && x[e - 5..e - 1][2] == 0 && x[e - 5..e - 1][3] == 0;
    assert forall i :: 0 <= i < e ==> (x + f)[i] == x[i] && (y + g)[i] == y[i];
  }

  /** And a model text that swallows another's lets the two collide, whatever else was asked for. */
  lemma SwallowedCollide(m: Bytes, t: Bytes, c: Ingredients, b: Ingredients)
    requires Sane(c) && Sane(b) && b.model == t && EndsIn(Encode(t), Header(c) + Encode(m))
    ensures exists p: Bytes :: var a := c.(pcm := Upto(b, 8) + p, model := m);
      a != b && Preimage(a) == Preimage(b)
  {
    var e, tail := Encode(t), Header(c) + Encode(m);
    var p := e[..|e| - |tail|];
    var a := c.(pcm := Upto(b, 8) + p, model := m);
    PcmThenHeader(a);
    HeaderIgnoresModel(c.(pcm := []), m, 8);
    assert Header(a) == Header(c);
    assert Preimage(a) == ((Upto(b, 8) + p) + Header(c)) + Encode(m);
    Reassociate(Upto(b, 8), p, Header(c), Encode(m));
    PcmThenHeader(b);
    HeaderEndsInDigit(b.(pcm := []));
  }

  /**
   Exactly which model texts can collide, byte for byte: those of which one, behind its length,
   ends in a whole header and the other model.
   */
  lemma CollideExactlyWhen(m: Bytes, t: Bytes)
    ensures CanCollide(m, t) <==> Swallows(t, m) || Swallows(m, t)
  {
    if CanCollide(m, t) {
      var a, b :| Sane(a) && Sane(b) && a.model == m && b.model == t && a != b && Preimage(a) == Preimage(b);
      CollidingSwallow(a, b);
    }
    if Swallows(t, m) { SwallowingCollides(m, t); }
    if Swallows(m, t) { SwallowingCollides(t, m); }
  }

  lemma CollidingSwallow(a: Ingredients, b: Ingredients)
    requires Sane(a) && Sane(b) && a != b && Preimage(a) == Preimage(b)
    ensures Swallows(b.model, a.model) || Swallows(a.model, b.model)
  {
    if |a.model| < |b.model| { LongerSwallows(a, b); }
    else if |b.model| < |a.model| { LongerSwallows(b, a); }
    else {
      var s, n := Preimage(a), |Upto(a, 8)|;
      assert s[..n] == Upto(a, 8) && s[..n] == Upto(b, 8);
      assert s[n + 4..] == a.model && s[n + 4..] == b.model;
      HeaderTells(a, b);
    }
  }

  lemma SwallowingCollides(m: Bytes, t: Bytes)
    requires Swallows(t, m)
    ensures CanCollide(m, t) && CanCollide(t, m)
  {
    var c :| Sane(c) && EndsIn(Encode(t), Header(c) + Encode(m));
    var b := c.(model := t);
    SwallowedCollide(m, t, c, b);
    var p: Bytes :| var a := c.(pcm := Upto(b, 8) + p, model := m); a != b && Preimage(a) == Preimage(b);
    var a := c.(pcm := Upto(b, 8) + p, model := m);
    assert Sane(a) && Sane(b);
  }

  // ----- so most never do

  lemma {:induction false} HeaderIsLong(a: Ingredients, n: nat)
    requires Sane(a) && n <= 8
    ensures |Upto(a, n)| >= |a.pcm| + 5 * n
  {
    if n > 0 {
      HeaderIsLong(a, n - 1);
      FieldsAreShort(a, n - 1);
    }
  }

  /** A text that swallows another holds a zero byte and is at least as long as a header. */
  lemma SwallowingTakes(t: Bytes, m: Bytes)
    requires Swallows(t, m)
    ensures !ZeroFree(t) && |t| >= |m| + 40
  {
    hide Header, Encode;
    var c :| Sane(c) && EndsIn(Encode(t), Header(c) + Encode(m));
    HeaderIsLongAndEndsInDigit(c);
    ZeroInside(t, Header(c), Encode(m));
  }

  lemma HeaderIsLongAndEndsInDigit(c: Ingredients)
    requires Sane(c)
    ensures |Header(c)| >= 40 && EndsInDigit(Header(c))
  {
    HeaderIsLong(c.(pcm := []), 8);
    HeaderEndsInDigit(c.(pcm := []));
  }

  lemma ZeroInside(t: Bytes, h: Bytes, f: Bytes)
    requires |h| >= 40 && EndsInDigit(h) && EndsIn(Encode(t), h + f)
    ensures !ZeroFree(t)
  {
    var e := Encode(t);
    var at := |e| - |h + f|;
    assert h[|h| - 2] == h[|h| - 5..|h| - 1][3] == 0;
    assert e[at..][|h| - 2] == (h + f)[|h| - 2] == 0;
    assert t[at + |h| - 6] == e[at + |h| - 2] == 0;
  }

  /** Different ingredients, different preimages, for every two model texts without a zero byte. */
  lemma PreimageIsInjective(a: Ingredients, b: Ingredients)
    requires Sane(a) && Sane(b) && ZeroFree(a.model) && ZeroFree(b.model)
    requires Preimage(a) == Preimage(b)
    ensures a == b
  {
    if a != b {
      CollidingSwallow(a, b);
      if Swallows(b.model, a.model) { SwallowingTakes(b.model, a.model); } else { SwallowingTakes(a.model, b.model); }
    }
  }

  /** And for every two whose lengths differ by less than a header, zero bytes or not. */
  lemma CloseLengthsNeverCollide(a: Ingredients, b: Ingredients)
    requires Sane(a) && Sane(b) && Preimage(a) == Preimage(b)
    requires |a.model| < |b.model| + 40 && |b.model| < |a.model| + 40
    ensures a == b
  {
    if a != b {
      CollidingSwallow(a, b);
      if Swallows(b.model, a.model) { SwallowingTakes(b.model, a.model); } else { SwallowingTakes(a.model, b.model); }
    }
  }

  /**
   There are such texts: the whole preimage of one set of ingredients, as the model text of
   another, swallows the first one's model.  `TextsCollide` says when it is a text.
   */
  lemma ZeroBytesCollide(a: Ingredients, b: Ingredients)
    ensures var text := Preimage(a);
      var other := a.(pcm := Upto(b, 8) + Prefix(|text|) + a.pcm);
      !ZeroFree(text) && Preimage(other) == Preimage(b.(model := text))
  {
    var text := Preimage(a);
    var front := Upto(b, 8) + Prefix(|text|);
    HeaderMoves(a, front, 8);
    HeaderIgnoresModel(b, text, 8);
    PreimageHasZeros(a);
    Reassociate(Upto(b, 8), Prefix(|text|), Upto(a, 8), Encode(a.model));
  }

  /** Characters of one byte each, which is UTF-8 as it stands. */
  predicate OneByteText(b: Bytes) {
    forall i :: 0 <= i < |b| ==> b[i] < 0x80
  }

  lemma {:induction false} HeaderIsText(a: Ingredients, n: nat)
    requires n <= 8 && Sane(a) && OneByteText(a.pcm)
    ensures OneByteText(Upto(a, n))
  {
    if n > 0 {
      HeaderIsText(a, n - 1);
      FieldsAreShort(a, n - 1);
      assert OneByteText(Encode(AsBytes(Fields(a)[n - 1])));
    }
  }

  /** With samples and a short model text below 0x80 it is text, zeros and all: a model can be called that. */
  lemma TextsCollide(a: Ingredients, b: Ingredients)
    requires Sane(a) && OneByteText(a.pcm) && OneByteText(a.model) && |a.model| < 0x80
    ensures var text := Preimage(a);
      var other := a.(pcm := Upto(b, 8) + Prefix(|text|) + a.pcm);
      OneByteText(text) && !ZeroFree(text) && Preimage(other) == Preimage(b.(model := text))
  {
    HeaderIsText(a, 8);
    assert OneByteText(Encode(a.model));
    ZeroBytesCollide(a, b);
  }

  lemma Reassociate(x: Bytes, p: Bytes, y: Bytes, z: Bytes)
    ensures ((x + p) + y) + z == x + (p + (y + z))
  {
  }

  lemma PreimageHasZeros(a: Ingredients)
    ensures !ZeroFree(Preimage(a))
  {
    HeaderEndsInDigit(a);
    var x := Upto(a, 8);
    assert x[|x| - 4] == x[|x| - 5..|x| - 1][1] == 0;
    assert Preimage(a)[|x| - 4] == x[|x| - 4];
  }

  lemma {:induction false} HeaderMoves(a: Ingredients, front: Bytes, n: nat)
    requires n <= 8
    ensures Upto(a.(pcm := front + a.pcm), n) == front + Upto(a, n)
  {
    if n > 0 { HeaderMoves(a, front, n - 1); }
  }

  lemma {:induction false} HeaderIgnoresModel(a: Ingredients, text: Bytes, n: nat)
    requires n <= 8
    ensures Upto(a.(model := text), n) == Upto(a, n)
  {
    if n > 0 { HeaderIgnoresModel(a, text, n - 1); }
  }
}
