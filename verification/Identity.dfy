/**
 The string that names the model in a cache key: which weights and recipe, at what
 precisions, with what overlap.

 It reads back uniquely from the right, because only the artefact's name is arbitrary text.
 */
module Identity {
  import opened Wrappers
  import Text

  datatype Preset = Fast | Balanced | Quality

  datatype Precision = F16 | F32

  /** A pinned digest in four pieces, so that no proof reads all of it at once. */
  function DigestParts(p: Preset): (parts: seq<string>)
    ensures |parts| == 4
  {
    match p
    case Fast => ["339d267a7a6983a1", "1eedbdc00413c602", "a65e9b9103f695fb", "5c2b2a481cd9d297"]
    case Balanced => ["53f03b1ad4b4d211", "025a35da65460ba6", "1a17547adf9c0544", "cad0ebcc8d7bbabb"]
    case Quality => ["9e08a5e075204e89", "3a4eb393ae64d471", "77c76f11a306686d", "b1343d7cc7c468f6"]
  }

  function Digest(p: Preset): string {
    var parts := DigestParts(p);
    parts[0] + parts[1] + parts[2] + parts[3]
  }

  function Recipe(p: Preset): nat {
    match p case Fast => 1 case Balanced => 2 case Quality => 2
  }

  /** How many models run: the presets that take each stem from its own model run two. */
  function Models(model: Option<Preset>): nat {
    match model
    case Some(Quality) => 2
    case Some(Balanced) => 2
    case _ => 1
  }

  function PrecisionName(p: Precision): string {
    match p case F16 => "f16" case F32 => "f32"
  }

  function Join(ps: seq<Precision>): string {
    if ps == [] then ""
    else if |ps| == 1 then PrecisionName(ps[0])
    else Join(ps[..|ps| - 1]) + "+" + PrecisionName(ps[|ps| - 1])
  }

  /** One name where every model agrees, the names joined where they do not. */
  function PrecisionKey(ps: seq<Precision>): string {
    if |ps| > 0 && forall i :: 0 <= i < |ps| ==> ps[i] == ps[0] then PrecisionName(ps[0]) else Join(ps)
  }

  function ModelIdentity(p: Preset): string {
    "m=" + Digest(p) + ";r=" + Text.Decimal(Recipe(p))
  }

  /** Fast runs one model by its first recipe; the other presets two by their second; a custom one, one. */
  lemma PresetsAre()
    ensures ModelIdentity(Fast) == "m=" + Digest(Fast) + ";r=1" && Models(Some(Fast)) == 1
    ensures ModelIdentity(Balanced) == "m=" + Digest(Balanced) + ";r=2" && Models(Some(Balanced)) == 2
    ensures ModelIdentity(Quality) == "m=" + Digest(Quality) + ";r=2" && Models(Some(Quality)) == 2
    ensures Models(None) == 1
  {
    assert Text.Decimal(1) == "1" && Text.Decimal(2) == "2";
  }

  function ModelPart(model: Option<Preset>, artefact: string): string {
    match model
    case Some(p) => ModelIdentity(p)
    case None => "m=custom:" + artefact
  }

  function IdentityOf(model: Option<Preset>, artefact: string, ps: seq<Precision>, overlap: string): string {
    ModelPart(model, artefact) + ";p=" + PrecisionKey(ps) + ";o=" + overlap
  }

  // ----- the parts

  lemma {:induction false} JoinIsFree(ps: seq<Precision>)
    ensures Text.Free(Join(ps), ';')
  {
    if |ps| > 1 { JoinIsFree(ps[..|ps| - 1]); }
  }

  lemma PrecisionKeyIsFree(ps: seq<Precision>)
    ensures Text.Free(PrecisionKey(ps), ';')
  {
    JoinIsFree(ps);
  }

  lemma NamesDiffer(p: Precision, q: Precision)
    requires PrecisionName(p) == PrecisionName(q)
    ensures p == q
  {
    assert PrecisionName(F16)[1] == '1' && PrecisionName(F32)[1] == '3';
  }

  lemma JoinOfTwo(ps: seq<Precision>)
    requires |ps| == 2
    ensures Join(ps) == PrecisionName(ps[0]) + "+" + PrecisionName(ps[1])
  {
    assert ps[..1] == [ps[0]];
  }

  /** One name where all agree, so that keys made before the models could differ stay valid; else both. */
  lemma PrecisionKeyIs(p: Precision, q: Precision)
    ensures PrecisionKey([p]) == PrecisionName(p)
    ensures PrecisionKey([p, q]) == if p == q then PrecisionName(p) else PrecisionName(p) + "+" + PrecisionName(q)
  {
    JoinOfTwo([p, q]);
  }

  /** Runs of as many models with the same precision key ran at the same precisions. */
  lemma PrecisionKeyTells(ps: seq<Precision>, qs: seq<Precision>)
    requires |ps| == |qs| && 1 <= |ps| <= 2 && PrecisionKey(ps) == PrecisionKey(qs)
    ensures ps == qs
  {
    if |ps| == 1 {
      NamesDiffer(ps[0], qs[0]);
    } else {
      JoinOfTwo(ps);
      JoinOfTwo(qs);
      var s, t := PrecisionKey(ps), PrecisionKey(qs);
      assert s[..3] == PrecisionName(ps[0]) && t[..3] == PrecisionName(qs[0]);
      NamesDiffer(ps[0], qs[0]);
      if ps[0] != ps[1] && qs[0] != qs[1] {
        assert s[4..] == PrecisionName(ps[1]) && t[4..] == PrecisionName(qs[1]);
        NamesDiffer(ps[1], qs[1]);
      }
    }
  }

  function Head(model: Option<Preset>): char {
    match model
    case None => 'c'
    case Some(Fast) => '3'
    case Some(Balanced) => '5'
    case Some(Quality) => '9'
  }

  lemma PresetHead(p: Preset)
    ensures |ModelIdentity(p)| > 2 && ModelIdentity(p)[2] == Head(Some(p))
  {
    assert ModelIdentity(p) == "m=" + (Digest(p) + ";r=" + Text.Decimal(Recipe(p)));
  }

  lemma CustomTail(artefact: string)
    ensures var s := ModelPart(None, artefact); |s| > 2 && s[2] == Head(None) && s[9..] == artefact
  {
  }

  /** A preset's weights are named by a digest, which no custom name can pass for. */
  lemma ModelPartTells(m: Option<Preset>, a: string, n: Option<Preset>, b: string)
    requires ModelPart(m, a) == ModelPart(n, b)
    ensures m == n && (m.None? ==> a == b)
  {
    if m.Some? { PresetHead(m.value); } else { CustomTail(a); }
    if n.Some? { PresetHead(n.value); } else { CustomTail(b); }
    assert Head(m) == Head(n);
  }

  /** The string without its overlap, and without its precisions, by splitting at the last `;`. */
  lemma Split(front: string, back: string, tag: char, x: string, y: string)
    requires tag != ';' && Text.Free(x, ';') && Text.Free(y, ';')
    requires front + [';', tag, '='] + x == back + [';', tag, '='] + y
    ensures front == back && x == y
  {
    var p, q := [tag, '='] + x, [tag, '='] + y;
    assert front + [';', tag, '='] + x == front + [';'] + p;
    assert back + [';', tag, '='] + y == back + [';'] + q;
    Text.LastSeparator(front, back, p, q, ';');
    assert p[2..] == x && q[2..] == y;
  }

  /**
   Equal identities come from the same preset, or the same artefact even when its name holds
   `;p=` or `;o=`, at the same precisions and with the same overlap.
   */
  lemma IdentityTellsAll(
    m: Option<Preset>, a: string, ps: seq<Precision>, o: string,
    n: Option<Preset>, b: string, qs: seq<Precision>, w: string)
    requires 1 <= |ps| <= 2 && 1 <= |qs| <= 2 && (m == n ==> |ps| == |qs|)
    requires Text.Free(o, ';') && Text.Free(w, ';')
    requires IdentityOf(m, a, ps, o) == IdentityOf(n, b, qs, w)
    ensures m == n && ps == qs && o == w && (m.None? ==> a == b)
  {
    PrecisionKeyIsFree(ps);
    PrecisionKeyIsFree(qs);
    var s, t := ModelPart(m, a), ModelPart(n, b);
    Split(s + ";p=" + PrecisionKey(ps), t + ";p=" + PrecisionKey(qs), 'o', o, w);
    Split(s, t, 'p', PrecisionKey(ps), PrecisionKey(qs));
    ModelPartTells(m, a, n, b);
    PrecisionKeyTells(ps, qs);
  }
}
