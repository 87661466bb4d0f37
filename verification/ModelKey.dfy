/**
 The cache key from end to end: the text that names the model, written as UTF-8, among the
 ingredients that are hashed.
 */
module ModelKey {
  import opened Wrappers
  import opened CacheKey
  import opened Identity
  import Text

  // ----- UTF-8

  function OfChar(c: char): (b: Bytes)
    ensures 1 <= |b| <= 4
  {
    var n := c as int;
    if n < 0x80 then [n]
    else if n < 0x800 then [0xC0 + n / 0x40, 0x80 + n % 0x40]
    else if n < 0x1_0000 then [0xE0 + n / 0x1000, 0x80 + n / 0x40 % 0x40, 0x80 + n % 0x40]
    else [0xF0 + n / 0x4_0000, 0x80 + n / 0x1000 % 0x40, 0x80 + n / 0x40 % 0x40, 0x80 + n % 0x40]
  }

  function Utf8(s: string): Bytes {
    if s == [] then [] else OfChar(s[0]) + Utf8(s[1..])
  }

  /** The first byte tells how many there are, and they tell the character. */
  lemma CharTells(c: char, x: Bytes, d: char, y: Bytes)
    requires OfChar(c) + x == OfChar(d) + y
    ensures c == d && x == y
  {
    var s, b, e := OfChar(c) + x, OfChar(c), OfChar(d);
    assert s[0] == b[0] == e[0];
    assert |b| == |e|;
    assert b == s[..|b|] == e;
    assert x == s[|b|..] == y;
    SameBytes(c as int, d as int, c, d);
  }

  lemma SameBytes(m: nat, n: nat, c: char, d: char)
    requires m == c as int && n == d as int && OfChar(c) == OfChar(d)
    ensures m == n
  {
    Sixes(m);
    Sixes(n);
  }

  lemma Sixes(n: nat)
    ensures n == n / 0x40 * 0x40 + n % 0x40
    ensures n / 0x40 == n / 0x1000 * 0x40 + n / 0x40 % 0x40
    ensures n / 0x1000 == n / 0x4_0000 * 0x40 + n / 0x1000 % 0x40
  {
  }

  lemma {:induction false} Utf8IsInjective(s: string, t: string)
    requires Utf8(s) == Utf8(t)
    ensures s == t
  {
    if s != [] && t != [] {
      CharTells(s[0], Utf8(s[1..]), t[0], Utf8(t[1..]));
      Utf8IsInjective(s[1..], t[1..]);
      assert s == [s[0]] + s[1..] && t == [t[0]] + t[1..];
    }
  }

  lemma CharIsZeroFree(c: char)
    ensures ZeroFree(OfChar(c)) <==> c != '\0'
  {
    if c == '\0' { assert OfChar(c)[0] == 0; }
  }

  lemma ZeroFreeOfBoth(x: Bytes, y: Bytes)
    ensures ZeroFree(x + y) <==> ZeroFree(x) && ZeroFree(y)
  {
    if ZeroFree(x + y) {
      forall i | 0 <= i < |x| ensures x[i] != 0 { assert (x + y)[i] == x[i]; }
      forall i | 0 <= i < |y| ensures y[i] != 0 { assert (x + y)[|x| + i] == y[i]; }
    }
  }

  /** Only the character zero is written with a zero byte. */
  lemma {:induction false} Utf8IsZeroFree(s: string)
    ensures ZeroFree(Utf8(s)) <==> Text.Free(s, '\0')
  {
    if s != [] {
      hide ZeroFree;
      CharIsZeroFree(s[0]);
      ZeroFreeOfBoth(OfChar(s[0]), Utf8(s[1..]));
      Utf8IsZeroFree(s[1..]);
      assert Text.Free(s, '\0') <==> s[0] != '\0' && Text.Free(s[1..], '\0') by { FreeFromFirst(s, '\0'); }
    }
  }

  lemma FreeFromFirst(s: string, c: char)
    requires s != []
    ensures Text.Free(s, c) <==> s[0] != c && Text.Free(s[1..], c)
  {
    forall i | 0 < i < |s| ensures s[i] == s[1..][i - 1] {}
  }

  // ----- the identity has no zero of its own

  lemma FreeTogether(s: string, t: string, c: char)
    requires Text.Free(s, c) && Text.Free(t, c)
    ensures Text.Free(s + t, c)
  {
  }

  lemma {:induction false} JoinHasNoZero(ps: seq<Precision>)
    ensures Text.Free(Join(ps), '\0')
  {
    if |ps| > 1 {
      var front := Join(ps[..|ps| - 1]);
      JoinHasNoZero(ps[..|ps| - 1]);
      FreeTogether(front, "+", '\0');
      FreeTogether(front + "+", PrecisionName(ps[|ps| - 1]), '\0');
    }
  }

  lemma PrecisionKeyHasNoZero(ps: seq<Precision>)
    ensures Text.Free(PrecisionKey(ps), '\0')
  {
    JoinHasNoZero(ps);
  }

  lemma PieceHasNoZero(p: Preset, i: nat)
    requires i < 4
    ensures Text.Free(DigestParts(p)[i], '\0')
  {
    hide Text.Free;
    match p
    case Fast => FastHasNoZero(i);
    case Balanced => BalancedHasNoZero(i);
    case Quality => QualityHasNoZero(i);
  }

  lemma FastHasNoZero(i: nat)
    requires i < 4
    ensures Text.Free(DigestParts(Fast)[i], '\0')
  {
  }

  lemma BalancedHasNoZero(i: nat)
    requires i < 4
    ensures Text.Free(DigestParts(Balanced)[i], '\0')
  {
  }

  lemma QualityHasNoZero(i: nat)
    requires i < 4
    ensures Text.Free(DigestParts(Quality)[i], '\0')
  {
  }

  lemma DigestHasNoZero(p: Preset)
    ensures Text.Free(Digest(p), '\0')
  {
    hide DigestParts, Text.Free;
    var d := DigestParts(p);
    PieceHasNoZero(p, 0);
    PieceHasNoZero(p, 1);
    PieceHasNoZero(p, 2);
    PieceHasNoZero(p, 3);
    FreeTogether(d[0], d[1], '\0');
    FreeTogether(d[0] + d[1], d[2], '\0');
    FreeTogether(d[0] + d[1] + d[2], d[3], '\0');
  }

  lemma ModelPartHasNoZero(m: Option<Preset>, artefact: string)
    requires m.None? ==> Text.Free(artefact, '\0')
    ensures Text.Free(ModelPart(m, artefact), '\0')
  {
    hide Text.Free;
    match m
    case None =>
      NoZeroIn();
      FreeTogether("m=custom:", artefact, '\0');
    case Some(p) =>
      NoZeroIn();
      DigestHasNoZero(p);
      NumberHasNoZero(Recipe(p));
      FreeTogether("m=", Digest(p), '\0');
      FreeTogether("m=" + Digest(p), ";r=", '\0');
      FreeTogether("m=" + Digest(p) + ";r=", Text.Decimal(Recipe(p)), '\0');
  }

  lemma NumberHasNoZero(n: nat)
    ensures Text.Free(Text.Decimal(n), '\0')
  {
  }

  /** None of the fixed pieces holds one. */
  lemma NoZeroIn()
    ensures Text.Free("m=custom:", '\0') && Text.Free("m=", '\0') && Text.Free(";r=", '\0')
    ensures Text.Free(";p=", '\0') && Text.Free(";o=", '\0')
  {
  }

  lemma IdentityHasNoZero(m: Option<Preset>, artefact: string, ps: seq<Precision>, overlap: string)
    requires (m.None? ==> Text.Free(artefact, '\0')) && Text.Free(overlap, '\0')
    ensures ZeroFree(Utf8(IdentityOf(m, artefact, ps, overlap)))
  {
    hide Text.Free, ModelPart, PrecisionKey, ZeroFree, Utf8;
    NoZeroIn();
    ModelPartHasNoZero(m, artefact);
    PrecisionKeyHasNoZero(ps);
    var head, key := ModelPart(m, artefact), PrecisionKey(ps);
    FreeTogether(head, ";p=", '\0');
    FreeTogether(head + ";p=", key, '\0');
    FreeTogether(head + ";p=" + key, ";o=", '\0');
    FreeTogether(head + ";p=" + key + ";o=", overlap, '\0');
    Utf8IsZeroFree(IdentityOf(m, artefact, ps, overlap));
  }

  // ----- end to end

  /** What the server was set to when it made a key; the text of it is the only model text a key ever has. */
  datatype Setting = Setting(model: Option<Preset>, artefact: string, precisions: seq<Precision>, overlap: string) {
    /** As many precisions as models, the overlap a printed number, and no zero in either text. */
    predicate Sound() {
      && |precisions| == Models(model)
      && Text.Free(overlap, ';') && Text.Free(overlap, '\0')
      && (model.None? ==> Text.Free(artefact, '\0'))
    }

    function Identity(): string {
      IdentityOf(model, artefact, precisions, overlap)
    }
  }

  /**
   Equal preimages come from the same samples, the same output, and the same preset or custom
   artefact at the same precisions and overlap.
   */
  lemma KeyTellsTheRun(a: Ingredients, s: Setting, b: Ingredients, t: Setting)
    requires Sane(a) && Sane(b) && s.Sound() && t.Sound()
    requires a.model == Utf8(s.Identity()) && b.model == Utf8(t.Identity())
    requires Preimage(a) == Preimage(b)
    ensures a == b
    ensures s.model == t.model && s.precisions == t.precisions && s.overlap == t.overlap
    ensures s.model.None? ==> s.artefact == t.artefact
  {
    IdentityHasNoZero(s.model, s.artefact, s.precisions, s.overlap);
    IdentityHasNoZero(t.model, t.artefact, t.precisions, t.overlap);
    PreimageIsInjective(a, b);
    Utf8IsInjective(s.Identity(), t.Identity());
    IdentityTellsAll(s.model, s.artefact, s.precisions, s.overlap, t.model, t.artefact, t.precisions, t.overlap);
  }
}
