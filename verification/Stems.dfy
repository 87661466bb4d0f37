/**
 Parts of a track: the stems the server ships, the part a player rebuilds by subtraction,
 the arrangement of two models that makes the rebuilt part exact, and the conversion of
 all of them to the output rate.
 */
module Stems {
  import opened Wrappers
  import opened Sums
  import Mode1

  /** Planar samples, `data[channel][sample]`. */
  datatype Audio = Audio(data: seq<seq<real>>, rate: nat) {
    function Frames(): nat {
      if |data| == 0 then 0 else |data[0]|
    }

    predicate Rectangular() {
      forall c :: 0 <= c < |data| ==> |data[c]| == Frames()
    }
  }

  datatype Part = Part(name: string, audio: Audio)

  /** Sample `c`, `i`, or silence past the end. */
  function Sample(audio: Audio, c: nat, i: int): real {
    if c < |audio.data| then At(audio.data[c], i) else 0.0
  }

  /** Past either end of a channel, and in a channel that is not there, there is silence. */
  lemma SampleIs(audio: Audio, c: nat, i: int)
    ensures Sample(audio, c, i) == if c < |audio.data| && 0 <= i < |audio.data[c]| then audio.data[c][i] else 0.0
  {
  }

  predicate SameShape(x: seq<seq<real>>, y: seq<seq<real>>) {
    |x| == |y| && forall c :: 0 <= c < |x| ==> |x[c]| == |y[c]|
  }

  /** What the parts add up to at one sample. */
  function PartsAt(parts: seq<Part>, c: nat, i: int): real {
    if parts == [] then 0.0
    else PartsAt(parts[..|parts| - 1], c, i) + Sample(parts[|parts| - 1].audio, c, i)
  }

  // ----- the derived part

  /** The mix less what ships, sample by sample. */
  function Derived(mix: Audio, shipped: seq<Part>, c: nat): (r: seq<real>)
    requires c < |mix.data|
    ensures |r| == |mix.data[c]| && forall i :: 0 <= i < |r| ==> r[i] == mix.data[c][i] - PartsAt(shipped, c, i)
  {
    seq(|mix.data[c]|, i requires 0 <= i < |mix.data[c]| => mix.data[c][i] - PartsAt(shipped, c, i))
  }

  /** One stem taken away from every sample. */
  method Subtract(data: seq<seq<real>>, stem: Audio) returns (out: seq<seq<real>>)
    ensures SameShape(out, data)
    ensures forall c, i :: 0 <= c < |data| && 0 <= i < |data[c]| ==> out[c][i] == data[c][i] - Sample(stem, c, i)
  {
    out := data;
    for c := 0 to |data|
      invariant SameShape(out, data)
      invariant forall d, i :: 0 <= d < |data| && 0 <= i < |data[d]| ==>
        out[d][i] == data[d][i] - (if d < c then Sample(stem, d, i) else 0.0)
    {
      var channel := out[c];
      for i := 0 to |channel|
        invariant |channel| == |data[c]|
        invariant forall j :: 0 <= j < |channel| ==>
          channel[j] == data[c][j] - (if j < i then Sample(stem, c, j) else 0.0)
      {
        channel := channel[i := channel[i] - Sample(stem, c, i)];
      }
      out := out[c := channel];
    }
  }

  /** `mix` without the shipped stems. */
  method DerivedPart(shipped: seq<Part>, mix: Audio) returns (out: Audio)
    ensures out.rate == mix.rate && |out.data| == |mix.data|
    ensures forall c :: 0 <= c < |mix.data| ==> out.data[c] == Derived(mix, shipped, c)
  {
    var data := mix.data;
    for s := 0 to |shipped|
      invariant SameShape(data, mix.data)
      invariant forall c, i :: 0 <= c < |mix.data| && 0 <= i < |mix.data[c]| ==>
        data[c][i] == mix.data[c][i] - PartsAt(shipped[..s], c, i)
    {
      data := Subtract(data, shipped[s].audio);
      assert shipped[..s + 1][..s] == shipped[..s];
    }
    assert shipped[..|shipped|] == shipped;
    assert forall c :: 0 <= c < |mix.data| ==> data[c] == Derived(mix, shipped, c);
    out := Audio(data, mix.rate);
  }

  // ----- the faders

  datatype PartGains = PartGains(drums: real, harmonics: real, vocals: real) {
    function Get(part: string): real {
      if part == "drums" then drums
      else if part == "harmonics" then harmonics
      else if part == "vocals" then vocals
      else 0.0
    }

    predicate Unity() {
      drums == 1.0 && harmonics == 1.0 && vocals == 1.0
    }
  }

  /** Each part has its own fader, and a part that has none is silent. */
  lemma FaderOf(gains: PartGains, part: string)
    ensures gains.Get("drums") == gains.drums && gains.Get("harmonics") == gains.harmonics && gains.Get("vocals") == gains.vocals
    ensures part !in {"drums", "harmonics", "vocals"} ==> gains.Get(part) == 0.0
  {
  }

  const DERIVED: string := "drums"

  /** Each shipped stem at its fader's distance from the derived part's. */
  function TermsAt(parts: seq<Part>, gains: PartGains, c: nat, i: int): real {
    if parts == [] then 0.0
    else
      var last := parts[|parts| - 1];
      TermsAt(parts[..|parts| - 1], gains, c, i)
      + Product(gains.Get(last.name) - gains.Get(DERIVED), Sample(last.audio, c, i))
  }

  method MixSample(parts: seq<Part>, gains: PartGains, sample: real, c: nat, i: nat) returns (acc: real)
    ensures acc == Product(gains.Get(DERIVED), sample) + TermsAt(parts, gains, c, i)
  {
    var base := gains.Get(DERIVED);
    acc := Product(base, sample);
    for s := 0 to |parts|
      invariant acc == Product(base, sample) + TermsAt(parts[..s], gains, c, i)
    {
      acc := acc + Product(gains.Get(parts[s].name) - base, Sample(parts[s].audio, c, i));
      assert parts[..s + 1][..s] == parts[..s];
    }
    assert parts[..|parts|] == parts;
  }

  /** The three faders applied, without ever building the derived part. */
  method Mix(shipped: seq<Part>, mix: Audio, gains: PartGains) returns (out: Audio)
    ensures out.rate == mix.rate && SameShape(out.data, mix.data)
    ensures gains.Unity() ==> out == mix
    ensures !gains.Unity() ==>
      forall c, i :: 0 <= c < |mix.data| && 0 <= i < |mix.data[c]| ==>
        out.data[c][i] == Product(gains.Get(DERIVED), mix.data[c][i]) + TermsAt(shipped, gains, c, i)
  {
    if gains.Unity() {
      return mix;
    }
    var data := mix.data;
    for c := 0 to |data|
      invariant SameShape(data, mix.data)
      invariant forall d :: c <= d < |mix.data| ==> data[d] == mix.data[d]
      invariant forall d, i :: 0 <= d < c && 0 <= i < |mix.data[d]| ==>
        data[d][i] == Product(gains.Get(DERIVED), mix.data[d][i]) + TermsAt(shipped, gains, d, i)
    {
      var channel := data[c];
      for i := 0 to |channel|
        invariant |channel| == |mix.data[c]|
        invariant forall j :: i <= j < |channel| ==> channel[j] == mix.data[c][j]
        invariant forall j :: 0 <= j < i ==>
          channel[j] == Product(gains.Get(DERIVED), mix.data[c][j]) + TermsAt(shipped, gains, c, j)
      {
        var acc := MixSample(shipped, gains, channel[i], c, i);
        channel := channel[i := acc];
      }
      data := data[c := channel];
    }
    out := Audio(data, mix.rate);
  }

  /** Every part at its own fader, summed. */
  function FadedAt(parts: seq<Part>, gains: PartGains, c: nat, i: int): real {
    if parts == [] then 0.0
    else
      var last := parts[|parts| - 1];
      FadedAt(parts[..|parts| - 1], gains, c, i) + Product(gains.Get(last.name), Sample(last.audio, c, i))
  }

  /** What the faders compute is each part at its own gain, the derived one included. */
  lemma {:induction false} FadersActOnParts(parts: seq<Part>, gains: PartGains, sample: real, c: nat, i: int)
    ensures Product(gains.Get(DERIVED), sample) + TermsAt(parts, gains, c, i)
            == Product(gains.Get(DERIVED), sample - PartsAt(parts, c, i)) + FadedAt(parts, gains, c, i)
  {
    if parts != [] {
      var front, last := parts[..|parts| - 1], parts[|parts| - 1];
      FadersActOnParts(front, gains, sample, c, i);
      Regain(gains.Get(DERIVED), gains.Get(last.name), sample - PartsAt(front, c, i), Sample(last.audio, c, i));
    }
  }

  lemma Regain(base: real, gain: real, rest: real, s: real)
    ensures Product(base, rest) + Product(gain - base, s) == Product(base, rest - s) + Product(gain, s)
  {
  }

  /** So at unity the arithmetic would give the mix as well: the shortcut changes nothing. */
  lemma {:induction false} UnityNeedsNoShortcut(parts: seq<Part>, gains: PartGains, sample: real, c: nat, i: int)
    requires gains.Unity()
    requires forall k :: 0 <= k < |parts| ==> parts[k].name in ["drums", "harmonics", "vocals"]
    ensures Product(gains.Get(DERIVED), sample) + TermsAt(parts, gains, c, i) == sample
  {
    if parts != [] {
      UnityNeedsNoShortcut(parts[..|parts| - 1], gains, sample, c, i);
      assert parts[|parts| - 1].name in ["drums", "harmonics", "vocals"];
      assert Product(0.0, Sample(parts[|parts| - 1].audio, c, i)) == 0.0;
    }
  }

  // ----- the arrangement of two models

  /** A model run over a whole track: its one source's planes, or nothing if it was stopped. */
  datatype Half = Half(run: Audio -> Option<seq<seq<real>>>)

  function Run(half: Half, source: Audio): Option<seq<seq<real>>> {
    half.run(source)
  }

  /** A half gives back planes of the shape it was given. */
  ghost predicate Shaped(half: Half) {
    forall source :: Run(half, source).Some? ==> SameShape(Run(half, source).value, source.data)
  }

  datatype Error = WrongGeometry | NoFrames | Stopped

  datatype Hybrid = Hybrid(vocals: Half, drums: Half, channels: nat, rate: nat, cascade: bool)

  function Without(x: seq<seq<real>>, y: seq<seq<real>>): (r: seq<seq<real>>)
    requires SameShape(x, y)
    ensures SameShape(r, x)
    ensures forall c :: 0 <= c < |x| ==> r[c] == Mode1.Minus(x[c], y[c])
  {
    seq(|x|, c requires 0 <= c < |x| => Mode1.Minus(x[c], y[c]))
  }

  /** What the drums half is given: the mix, or what the vocals half left of it. */
  function ForDrums(h: Hybrid, mix: Audio, vocals: seq<seq<real>>): Audio
    requires SameShape(mix.data, vocals)
  {
    if h.cascade then Audio(Without(mix.data, vocals), h.rate) else mix
  }

  /** Chained, the drums half hears the mix less the vocals, sample by sample; otherwise the mix itself. */
  ghost predicate GivenToDrums(h: Hybrid, mix: Audio, vocals: seq<seq<real>>, given: Audio)
    requires SameShape(mix.data, vocals)
  {
    if h.cascade then
      && given.rate == h.rate && SameShape(given.data, mix.data)
      && forall c, i :: 0 <= c < |mix.data| && 0 <= i < |mix.data[c]| ==>
        given.data[c][i] == mix.data[c][i] - vocals[c][i]
    else given == mix
  }

  method Separate(h: Hybrid, mix: Audio) returns (r: Result<seq<Part>, Error>)
    requires mix.Rectangular() && Shaped(h.vocals) && Shaped(h.drums)
    ensures r == Err(WrongGeometry) <==> |mix.data| != h.channels || mix.rate != h.rate
    ensures r == Err(NoFrames) <==>
      |mix.data| == h.channels && mix.rate == h.rate && (|mix.data| == 0 || |mix.data[0]| == 0)
    ensures r.Ok? <==>
      && |mix.data| == h.channels && mix.rate == h.rate && mix.Frames() > 0
      && Run(h.vocals, mix).Some?
      && Run(h.drums, ForDrums(h, mix, Run(h.vocals, mix).value)).Some?
    ensures r.Ok? ==>
      && Run(h.vocals, mix).Some?
      && Run(h.drums, ForDrums(h, mix, Run(h.vocals, mix).value)).Some?
      && GivenToDrums(h, mix, Run(h.vocals, mix).value, ForDrums(h, mix, Run(h.vocals, mix).value))
      && Arranged(mix, Run(h.vocals, mix).value, Run(h.drums, ForDrums(h, mix, Run(h.vocals, mix).value)).value, r.value)
  {
    if |mix.data| != h.channels || mix.rate != h.rate {
      return Err(WrongGeometry);
    }
    if mix.Frames() == 0 {
      return Err(NoFrames);
    }
    var vocals := Run(h.vocals, mix);
    if vocals.None? {
      return Err(Stopped);
    }
    var drums := Run(h.drums, ForDrums(h, mix, vocals.value));
    if drums.None? {
      return Err(Stopped);
    }
    var harmonics := Without(Without(mix.data, vocals.value), drums.value);
    r := Ok([Part("harmonics", Audio(harmonics, h.rate)), Part("vocals", Audio(vocals.value, h.rate))]);
  }

  /** The harmonics are what neither half took, and ship beside the vocals. */
  ghost predicate Arranged(mix: Audio, vocals: seq<seq<real>>, drums: seq<seq<real>>, shipped: seq<Part>) {
    && SameShape(vocals, mix.data) && SameShape(drums, mix.data)
    && shipped == [
      Part("harmonics", Audio(Without(Without(mix.data, vocals), drums), mix.rate)),
      Part("vocals", Audio(vocals, mix.rate))]
  }

  /** Subtracting what ships returns the drums estimate untouched, chained or not. */
  lemma DerivedIsDrums(mix: Audio, vocals: seq<seq<real>>, drums: seq<seq<real>>, shipped: seq<Part>, c: nat, i: nat)
    requires Arranged(mix, vocals, drums, shipped) && c < |mix.data| && i < |mix.data[c]|
    ensures mix.data[c][i] - PartsAt(shipped, c, i) == drums[c][i]
  {
    TwoParts(shipped, c, i);
  }

  lemma TwoParts(parts: seq<Part>, c: nat, i: int)
    requires |parts| == 2
    ensures PartsAt(parts, c, i) == Sample(parts[0].audio, c, i) + Sample(parts[1].audio, c, i)
  {
    assert parts[..1][..0] == [];
    assert PartsAt(parts[..1], c, i) == PartsAt([], c, i) + Sample(parts[0].audio, c, i);
  }

  // ----- conversion to the output rate

  const IN_RATE := 44100
  const OUT_RATE := 96000

  datatype DspMode = General | Fixed

  datatype RateError = ZeroRate | WrongRates | Refused

  /** The fixed converter's prototype, and a general resampler taken as it comes. */
  datatype Filters = Filters(
    prototype: seq<real>, general: (seq<seq<real>>, nat, nat) -> Option<seq<seq<real>>>)

  ghost function FixedPlanes(data: seq<seq<real>>, p: seq<real>): (planes: seq<seq<real>>) {
    seq(|data|, c requires 0 <= c < |data| => Mode1.Converted(data[c], p))
  }

  /** A part at `target`, or why not: untouched where there is nothing to convert, and never
      through another filter than the one asked for. */
  ghost function AtRate(audio: Audio, target: nat, mode: DspMode, f: Filters): Result<Audio, RateError> {
    if audio.rate == target || audio.Frames() == 0 then Ok(audio)
    else if target == 0 then Err(ZeroRate)
    else if mode == Fixed && !(audio.rate == IN_RATE && target == OUT_RATE) then Err(WrongRates)
    else if mode == Fixed then Ok(Audio(FixedPlanes(audio.data, f.prototype), OUT_RATE))
    else
      match f.general(audio.data, audio.rate, target)
      case None => Err(Refused)
      case Some(planes) => Ok(Audio(planes, target))
  }

  method ToRate(audio: Audio, target: nat, mode: DspMode, f: Filters, par: nat) returns (r: Result<Audio, RateError>)
    requires Mode1.Prototype(f.prototype) && par > 0 && audio.Rectangular()
    ensures r == AtRate(audio, target, mode, f)
  {
    if audio.rate == target || audio.Frames() == 0 {
      return Ok(audio);
    }
    if target == 0 {
      return Err(ZeroRate);
    }
    if mode == Fixed {
      if audio.rate != IN_RATE || target != OUT_RATE {
        return Err(WrongRates);
      }
      var planes := Mode1.Resample(audio.data, f.prototype, par);
      assert planes == FixedPlanes(audio.data, f.prototype);
      return Ok(Audio(planes, OUT_RATE));
    }
    var planes := f.general(audio.data, audio.rate, target);
    if planes.None? {
      return Err(Refused);
    }
    r := Ok(Audio(planes.value, target));
  }

  /** An accepted part with any frames comes back at the rate asked for, and the general filter is told
      where from and where to. */
  lemma AcceptedIsAtTarget(audio: Audio, target: nat, mode: DspMode, f: Filters)
    ensures var r := AtRate(audio, target, mode, f);
      && (r.Ok? && audio.Frames() > 0 ==> r.value.rate == target)
      && (audio.rate != target && audio.Frames() > 0 && target > 0 && mode == General ==>
            match f.general(audio.data, audio.rate, target)
            case None => r == Err(Refused)
            case Some(planes) => r == Ok(Audio(planes, target)))
      && (audio.rate == target || audio.Frames() == 0 ==> r == Ok(audio))
      && (audio.rate == 44100 && target == 96000 && mode == Fixed && audio.Frames() > 0 ==>
            r.Ok? && |r.value.data| == |audio.data|
            && forall c :: 0 <= c < |audio.data| ==> r.value.data[c] == Mode1.Converted(audio.data[c], f.prototype))
      && (audio.rate != target && audio.Frames() > 0 && mode == Fixed && !(audio.rate == 44100 && target == 96000) ==>
            r.Err?)
  {
  }

  /** The converter's two factors are the ratio of the two rates, in lowest terms. */
  lemma FactorsAreTheRates(d: nat)
    requires d > 0 && Mode1.L % d == 0 && Mode1.M % d == 0
    ensures IN_RATE * Mode1.L == OUT_RATE * Mode1.M && d == 1
  {
    var x, y := Mode1.L / d, Mode1.M / d;
    assert d * (17 * x - 37 * y) == 17 * Mode1.L - 37 * Mode1.M == 1;
  }

  /** What an entry stores at the separation's own rate, the derived part last when asked for. */
  function Native(mix: Audio, shipped: seq<Part>, derived: bool): (parts: seq<Part>) {
    if !derived then shipped
    else shipped + [Part(DERIVED, Audio(seq(|mix.data|, c requires 0 <= c < |mix.data| => Derived(mix, shipped, c)), mix.rate))]
  }

  /** Every part an entry stores, in order, at the output rate; or the first one's refusal. */
  method ToOutputRate(
    mix: Audio, shipped: seq<Part>, derived: bool, target: nat, mode: DspMode, f: Filters, par: nat)
    returns (r: Result<seq<Part>, RateError>)
    requires Mode1.Prototype(f.prototype) && par > 0
    requires mix.Rectangular() && forall k :: 0 <= k < |shipped| ==> shipped[k].audio.Rectangular()
    ensures var native := Native(mix, shipped, derived);
      match r
      case Ok(parts) =>
        && |parts| == |native|
        && forall k :: 0 <= k < |native| ==>
          parts[k].name == native[k].name && AtRate(native[k].audio, target, mode, f) == Ok(parts[k].audio)
      case Err(error) =>
        exists k :: 0 <= k < |native| && AtRate(native[k].audio, target, mode, f) == Err(error)
          && forall j :: 0 <= j < k ==> AtRate(native[j].audio, target, mode, f).Ok?
  {
    var native := shipped;
    if derived {
      var audio := DerivedPart(shipped, mix);
      native := shipped + [Part(DERIVED, audio)];
      assert audio.data == Native(mix, shipped, true)[|shipped|].audio.data;
    }
    assert native == Native(mix, shipped, derived);
    var parts: seq<Part> := [];
    for k := 0 to |native|
      invariant |parts| == k
      invariant forall j :: 0 <= j < k ==>
        parts[j].name == native[j].name && AtRate(native[j].audio, target, mode, f) == Ok(parts[j].audio)
    {
      var converted := ToRate(native[k].audio, target, mode, f, par);
      if converted.Err? {
        return Err(converted.error);
      }
      parts := parts + [Part(native[k].name, converted.value)];
    }
    r := Ok(parts);
  }

  // ----- and the client's own subtraction, after conversion

  /** A conversion that subtraction passes through. */
  ghost predicate Additive(convert: seq<real> -> seq<real>) {
    && (forall x: seq<real>, y: seq<real> :: |x| == |y| ==> |convert(x)| == |convert(y)|)
    && (forall x: seq<real>, y: seq<real> {:trigger convert(Mode1.Minus(x, y))} :: |x| == |y| ==>
          convert(Mode1.Minus(x, y)) == Mode1.Minus(convert(x), convert(y)))
  }

  /** Every part has a channel `c`, as long as `x`. */
  ghost predicate Fit(parts: seq<Part>, c: nat, x: seq<real>) {
    forall k :: 0 <= k < |parts| ==> c < |parts[k].audio.data| && |parts[k].audio.data[c]| == |x|
  }

  /** `x` less the parts' channel `c`, one after the other, as the client takes them away. */
  ghost function LessAll(x: seq<real>, parts: seq<Part>, c: nat): (r: seq<real>)
    requires Fit(parts, c, x)
    ensures |r| == |x|
  {
    if parts == [] then x
    else Mode1.Minus(LessAll(x, parts[..|parts| - 1], c), parts[|parts| - 1].audio.data[c])
  }

  lemma DerivedTakesOneMore(mix: Audio, shipped: seq<Part>, n: nat, c: nat)
    requires n < |shipped| && c < |mix.data| && SameShape(shipped[n].audio.data, mix.data)
    ensures Derived(mix, shipped[..n + 1], c) == Mode1.Minus(Derived(mix, shipped[..n], c), shipped[n].audio.data[c])
  {
    var more := shipped[..n + 1];
    assert more[..|more| - 1] == shipped[..n];
    forall i | 0 <= i < |mix.data[c]|
      ensures Derived(mix, more, c)[i] == Derived(mix, shipped[..n], c)[i] - shipped[n].audio.data[c][i]
    {
      assert PartsAt(more, c, i) == PartsAt(shipped[..n], c, i) + Sample(shipped[n].audio, c, i);
    }
  }

  lemma AdditiveAt(convert: seq<real> -> seq<real>, x: seq<real>, y: seq<real>)
    requires Additive(convert) && |x| == |y|
    ensures |convert(x)| == |convert(y)| && convert(Mode1.Minus(x, y)) == Mode1.Minus(convert(x), convert(y))
  {
  }

  /** Channel `c` of every part sent is that of the part at home, converted. */
  ghost predicate SentAs(convert: seq<real> -> seq<real>, shipped: seq<Part>, sent: seq<Part>, c: nat) {
    && |sent| == |shipped|
    && forall k :: 0 <= k < |shipped| ==>
      && c < |shipped[k].audio.data| && c < |sent[k].audio.data|
      && sent[k].audio.data[c] == convert(shipped[k].audio.data[c])
  }

  lemma SentFits(convert: seq<real> -> seq<real>, mix: Audio, shipped: seq<Part>, sent: seq<Part>, c: nat)
    requires Additive(convert) && c < |mix.data| && SentAs(convert, shipped, sent, c)
    requires forall k :: 0 <= k < |shipped| ==> SameShape(shipped[k].audio.data, mix.data)
    ensures Fit(sent, c, convert(mix.data[c]))
  {
    hide Additive;
    forall k | 0 <= k < |sent| ensures |sent[k].audio.data[c]| == |convert(mix.data[c])| {
      assert |shipped[k].audio.data[c]| == |mix.data[c]|;
      AdditiveAt(convert, shipped[k].audio.data[c], mix.data[c]);
    }
  }

  /** For any number of parts: converted and then taken away is taken away and then converted. */
  lemma {:induction false} SubtractionPassesThrough(
    convert: seq<real> -> seq<real>, mix: Audio, shipped: seq<Part>, sent: seq<Part>, c: nat)
    requires Additive(convert) && c < |mix.data| && SentAs(convert, shipped, sent, c)
    requires forall k :: 0 <= k < |shipped| ==> SameShape(shipped[k].audio.data, mix.data)
    ensures Fit(sent, c, convert(mix.data[c]))
    ensures LessAll(convert(mix.data[c]), sent, c) == convert(Derived(mix, shipped, c))
    decreases |shipped|
  {
    hide Additive;
    SentFits(convert, mix, shipped, sent, c);
    if shipped == [] {
      assert Derived(mix, shipped, c) == mix.data[c];
    } else {
      var n := |shipped| - 1;
      SubtractionPassesThrough(convert, mix, shipped[..n], sent[..n], c);
      DerivedTakesOneMore(mix, shipped, n, c);
      assert shipped[..n + 1] == shipped;
      AdditiveAt(convert, Derived(mix, shipped[..n], c), shipped[n].audio.data[c]);
    }
  }

  lemma FixedIsAdditive(p: seq<real>)
    ensures Additive(x => Mode1.Converted(x, p))
  {
    forall x: seq<real>, y: seq<real> | |x| == |y|
      ensures Mode1.Converted(Mode1.Minus(x, y), p) == Mode1.Minus(Mode1.Converted(x, p), Mode1.Converted(y, p))
    {
      Mode1.ConvertedMinus(x, y, p);
    }
  }

  lemma FixedAtRate(audio: Audio, f: Filters, c: nat)
    requires audio.rate == IN_RATE && audio.Frames() > 0 && c < |audio.data|
    ensures var r := AtRate(audio, OUT_RATE, Fixed, f);
      r.Ok? && c < |r.value.data| && r.value.data[c] == Mode1.Converted(audio.data[c], f.prototype)
  {
  }

  lemma SentByFixed(shipped: seq<Part>, sent: seq<Part>, f: Filters, c: nat)
    requires |sent| == |shipped|
    requires forall k :: 0 <= k < |shipped| ==>
      && shipped[k].audio.rate == IN_RATE && shipped[k].audio.Frames() > 0 && c < |shipped[k].audio.data|
      && AtRate(shipped[k].audio, OUT_RATE, Fixed, f) == Ok(sent[k].audio)
    ensures SentAs(x => Mode1.Converted(x, f.prototype), shipped, sent, c)
  {
    hide AtRate;
    forall k | 0 <= k < |shipped|
      ensures c < |sent[k].audio.data| && sent[k].audio.data[c] == Mode1.Converted(shipped[k].audio.data[c], f.prototype)
    {
      FixedAtRate(shipped[k].audio, f, c);
    }
  }

  /** What a client of the fixed converter gets by subtraction from its own converted mix is, on
      every channel, the derived part the server would have sent. */
  lemma ConvertedRemainder(mix: Audio, shipped: seq<Part>, sent: seq<Part>, f: Filters, c: nat)
    requires mix.rate == IN_RATE && mix.Frames() > 0 && c < |mix.data|
    requires forall k :: 0 <= k < |shipped| ==>
      shipped[k].audio.rate == IN_RATE && SameShape(shipped[k].audio.data, mix.data)
    requires var native := Native(mix, shipped, true);
      |sent| == |native|
      && forall k :: 0 <= k < |native| ==> AtRate(native[k].audio, OUT_RATE, Fixed, f) == Ok(sent[k].audio)
    ensures c < |sent[|shipped|].audio.data|
    ensures Fit(sent[..|shipped|], c, Mode1.Converted(mix.data[c], f.prototype))
    ensures LessAll(Mode1.Converted(mix.data[c], f.prototype), sent[..|shipped|], c) == sent[|shipped|].audio.data[c]
  {
    hide Additive, SentAs;
    var convert := (x: seq<real>) => Mode1.Converted(x, f.prototype);
    var native := Native(mix, shipped, true);
    FixedIsAdditive(f.prototype);
    FixedAtRate(native[|shipped|].audio, f, c);
    forall k | 0 <= k < |shipped|
      ensures c < |shipped[k].audio.data|
      ensures AtRate(shipped[k].audio, OUT_RATE, Fixed, f) == Ok(sent[k].audio) && shipped[k].audio.Frames() > 0
    {
      assert SameShape(shipped[k].audio.data, mix.data) && native[k] == shipped[k];
    }
    SentByFixed(shipped, sent[..|shipped|], f, c);
    SubtractionPassesThrough(convert, mix, shipped, sent[..|shipped|], c);
  }

  /** And for the two-model arrangement, the converted drums estimate itself. */
  lemma ClientRebuildsTheDrums(
    mix: Audio, vocals: seq<seq<real>>, drums: seq<seq<real>>, shipped: seq<Part>, p: seq<real>, c: nat)
    requires Arranged(mix, vocals, drums, shipped) && c < |mix.data|
    ensures Derived(mix, shipped, c) == drums[c]
    ensures SameShape(shipped[0].audio.data, mix.data) && SameShape(shipped[1].audio.data, mix.data)
    ensures Mode1.Minus(
              Mode1.Minus(Mode1.Converted(mix.data[c], p), Mode1.Converted(shipped[0].audio.data[c], p)),
              Mode1.Converted(shipped[1].audio.data[c], p))
            == Mode1.Converted(drums[c], p)
  {
    forall i | 0 <= i < |mix.data[c]| ensures Derived(mix, shipped, c)[i] == drums[c][i] {
      DerivedIsDrums(mix, vocals, drums, shipped, c, i);
    }
    assert Derived(mix, shipped, c) == drums[c];
    var x, h, v := mix.data[c], shipped[0].audio.data[c], shipped[1].audio.data[c];
    Mode1.ConvertedMinus(x, h, p);
    Mode1.ConvertedMinus(Mode1.Minus(x, h), v, p);
    assert Mode1.Minus(Mode1.Minus(x, h), v) == drums[c];
  }
}
