/** The TrueWind class of truewind.js: `getTrue` (back-fill of legacy fields,
    validation, awa folding, attitude correction, leeway, true wind, VMG and
    current) and `getAttitudeCorrections`. Floating-point trigonometry is the
    `Trig` parameter; the branching, defaulting and folding around it is
    modelled exactly. */
module TrueWind {
  import opened Records
  import opened Trigonometry
  import opened Angles

  /** Knots per metre per second. */
  const MsToKt: real := 1.94384

  /** The readings getAttitudeCorrections acts on: both roll and pitch given. */
  predicate Tilted(s: Reading) {
    s.roll.Some? && s.pitch.Some?
  }

  // ---------------------------------------------------------------------------
  // getAttitudeCorrections

  /** Correction of the apparent wind for the tilt of the sensor. Without roll
      or pitch the reading is returned as it is; otherwise only awa and aws
      are replaced, awa by an angle in [0, 360), and a calm reading stays calm. */
  function AttitudeCorrections(t: Trig, src: Reading): (r: Reading)
    requires t.Valid()
    requires Tilted(src) ==> src.awa.Some? && src.aws.Some?
    ensures !Tilted(src) ==> r == src
    ensures r.(awa := src.awa, aws := src.aws) == src
    ensures Tilted(src) ==> r.awa.Some? && 0.0 <= r.awa.value < 360.0 && r.aws.Some?
    ensures Tilted(src) && src.aws == Some(0.0) ==> r.aws == Some(0.0)
  {
    if src.roll.None? || src.pitch.None? then src
    else
      var awa := if src.awa.value < 0.0 then src.awa.value + 360.0 else src.awa.value;
      var ws0 := src.aws.value;
      var wx0 := ws0 * t.sin(awa);
      var wy0 := ws0 * t.cos(awa);
      var roll, pitch := src.roll.value, src.pitch.value;
      assert t.cos(roll) != 0.0 && t.cos(pitch) != 0.0;
      var wx2 := wx0 / t.cos(roll);
      var wy2 := wy0 / t.cos(pitch);
      var ws1 := t.sqrt(wx2 * wx2 + wy2 * wy2);
      var rwa1 := t.atan2(wx2, wy2);
      src.(aws := Some(ws1), awa := Some(if rwa1 < 0.0 then rwa1 + 360.0 else rwa1))
  }

  // ---------------------------------------------------------------------------
  // getTrue, step by step as functions

  /** Back-fill of the legacy fields: a missing variation becomes 0, and when
      exactly one of bspd/sog (or of heading/cog) is missing it is copied from
      the other. A field already given is never overwritten. */
  function BackFill(inp: Reading): (s: Reading)
    ensures s.variation == Some(inp.variation.GetOr(0.0))
    ensures inp.bspd.Some? ==> s.bspd == inp.bspd
    ensures inp.sog.Some? ==> s.sog == inp.sog
    ensures inp.bspd.None? ==> s.bspd == inp.sog
    ensures inp.sog.None? ==> s.sog == inp.bspd
    ensures inp.heading.Some? ==> s.heading == inp.heading
    ensures inp.cog.Some? ==> s.cog == inp.cog
    ensures inp.heading.None? ==> s.heading == inp.cog
    ensures inp.cog.None? ==> s.cog == inp.heading
    ensures s.(bspd := inp.bspd, sog := inp.sog, heading := inp.heading,
               cog := inp.cog, variation := inp.variation) == inp
  {
    var s := if inp.variation.None? then inp.(variation := Some(0.0)) else inp;
    var s := if s.bspd.None? && s.sog.Some? then s.(bspd := s.sog)
             else if s.sog.None? && s.bspd.Some? then s.(sog := s.bspd)
             else s;
    if s.heading.None? && s.cog.Some? then s.(heading := s.cog)
    else if s.cog.None? && s.heading.Some? then s.(cog := s.heading)
    else s
  }

  /** Conversion of the deprecated awd into awa when awa is absent: awd minus
      (heading + variation), folded into [-180, 180]. An awa already given is
      kept. (With heading absent the library computes NaN and then rejects the
      input for the missing heading; here awa simply stays absent.) */
  function ConvertAwd(s: Reading): (r: Reading)
    requires s.variation.Some?
    ensures r == s.(awa := r.awa)
    ensures s.awa.Some? || s.awd.None? || s.heading.None? ==> r.awa == s.awa
    ensures s.awa.None? && s.awd.Some? && s.heading.Some? ==>
      var raw := s.awd.value - (s.heading.value + s.variation.value);
      r.awa.Some? && -180.0 <= r.awa.value <= 180.0 && WholeTurns(r.awa.value - raw)
  {
    if s.awa.None? && s.awd.Some? && s.heading.Some? then
      s.(awa := Some(FoldAwd(s.awd.value - (s.heading.value + s.variation.value))))
    else s
  }

  /** The two checks, in order: the required fields, then the unit that K needs.
      The unit is only checked once every required field is present. */
  function Validate(s: Reading): (r: Option<InputError>)
    ensures r == Some(MissingParameters) <==>
      s.awa.None? || s.aws.None? || s.heading.None? || s.bspd.None?
    ensures r == Some(SpeedUnitRequired) <==>
      && s.awa.Some? && s.aws.Some? && s.heading.Some? && s.bspd.Some?
      && s.K.Some? && s.speedunit != Some("kt") && s.speedunit != Some("m/s")
    ensures r.None? <==>
      && s.awa.Some? && s.aws.Some? && s.heading.Some? && s.bspd.Some?
      && (s.K.None? || s.speedunit == Some("kt") || s.speedunit == Some("m/s"))
  {
    if s.awa.None? || s.aws.None? || s.heading.None? || s.bspd.None? then
      Some(MissingParameters)
    else if s.K.Some? && s.speedunit != Some("kt") && s.speedunit != Some("m/s") then
      Some(SpeedUnitRequired)
    else None
  }

  /** The working record once it has passed validation. */
  predicate Validated(s: Reading) {
    && s.awa.Some? && s.aws.Some? && s.heading.Some? && s.bspd.Some?
    && s.sog.Some? && s.cog.Some? && s.variation.Some?
  }

  /** When no leeway is estimated: not moving, not heeling, no coefficient, or
      heeling to the side the apparent wind comes from. */
  predicate NoLeeway(s: Reading) {
    || Falsy(s.bspd) || Falsy(s.roll) || Falsy(s.K)
    || (Positive(s.roll) && Positive(s.awa))
    || (Negative(s.roll) && Negative(s.awa))
  }

  /** The unit factor of the leeway formula: 1 for "kt", MS_TO_KT for any other
      unit (validation leaves only "m/s" once K is given). Always positive. */
  function UnitFactor(speedunit: Option<string>): (f: real)
    ensures f > 0.0
    ensures f == 1.0 <==> speedunit == Some("kt")
    ensures speedunit != Some("kt") ==> f == MsToKt
  {
    if speedunit == Some("kt") then 1.0 else MsToKt
  }

  lemma SquarePositive(a: real, f: real)
    requires a != 0.0 && f > 0.0
    ensures a * f * (a * f) > 0.0
  {
    assert a * f != 0.0;
  }

  lemma QuotientSign(n: real, d: real)
    requires d > 0.0
    ensures n / d > 0.0 <==> n > 0.0
    ensures n / d < 0.0 <==> n < 0.0
  {
    assert n / d * d == n;
  }

  /** The leeway formula K·roll / (bspd·f)², unclamped. Its sign is that of K·roll. */
  function RawLeeway(s: Reading): (lw: real)
    requires !NoLeeway(s)
    ensures lw > 0.0 <==> s.K.value * s.roll.value > 0.0
    ensures lw < 0.0 <==> s.K.value * s.roll.value < 0.0
  {
    var f := UnitFactor(s.speedunit);
    SquarePositive(s.bspd.value, f);
    QuotientSign(s.K.value * s.roll.value, s.bspd.value * f * (s.bspd.value * f));
    s.K.value * s.roll.value / (s.bspd.value * f * (s.bspd.value * f))
  }

  /** Clamp into [-45, 45]. */
  function Clamp45(x: real): (r: real)
    ensures -45.0 <= r <= 45.0
    ensures -45.0 <= x <= 45.0 ==> r == x
    ensures x > 45.0 ==> r == 45.0
    ensures x < -45.0 ==> r == -45.0
  {
    if x > 45.0 then 45.0 else if x < -45.0 then -45.0 else x
  }

  /** Leeway in degrees: zero when NoLeeway holds, otherwise the formula
      clamped to [-45, 45], with the sign of K·roll. */
  function Leeway(s: Reading): (lw: real)
    ensures -45.0 <= lw <= 45.0
    ensures NoLeeway(s) ==> lw == 0.0
    ensures !NoLeeway(s) ==> lw == Clamp45(RawLeeway(s))
    ensures !NoLeeway(s) ==> (lw > 0.0 <==> s.K.value * s.roll.value > 0.0)
    ensures !NoLeeway(s) ==> (lw < 0.0 <==> s.K.value * s.roll.value < 0.0)
  {
    if NoLeeway(s) then 0.0 else Clamp45(RawLeeway(s))
  }

  /** Leeway is nonzero exactly when the boat moves, heels and has a
      coefficient, and does not heel to the side the apparent wind comes from
      (an absent or zero awa counts as neither side). */
  lemma LeewayGate(s: Reading)
    ensures Leeway(s) != 0.0 <==>
      && s.bspd.Some? && s.bspd.value != 0.0
      && s.roll.Some? && s.roll.value != 0.0
      && s.K.Some? && s.K.value != 0.0
      && (s.roll.value > 0.0 ==> s.awa.None? || s.awa.value <= 0.0)
      && (s.roll.value < 0.0 ==> s.awa.None? || s.awa.value >= 0.0)
  {
    if !NoLeeway(s) {
      assert s.K.value * s.roll.value != 0.0;
    }
  }

  // ---------------------------------------------------------------------------
  // The vector arithmetic of getTrue, over the Trig parameter

  /** Speed through water: bspd / cos(leeway). Without leeway it is bspd. */
  function SpeedThroughWater(t: Trig, bspd: real, leeway: real): (stw: real)
    requires t.Valid()
    ensures leeway == 0.0 ==> stw == bspd
  {
    bspd / t.cos(leeway)
  }

  /** The true wind vector (x, y): the apparent wind at cartesian angle
      270 - awa, plus the boat's own motion, stw·sin(leeway) across and bspd
      along. */
  function TrueWindVector(t: Trig, aws: real, awa: real, stw: real, leeway: real, bspd: real): (r: (real, real))
    requires t.Valid()
    ensures aws == 0.0 && leeway == 0.0 ==> r == (0.0, bspd)
  {
    var lateralSpeed := stw * t.sin(leeway);
    (aws * t.cos(270.0 - awa) + lateralSpeed, aws * t.sin(270.0 - awa) + bspd)
  }

  /** The current vector (x, y): the ground track (sog along cog, magnetic)
      minus the water track (stw along heading + leeway), in cartesian angles
      90 - bearing. */
  function CurrentVector(t: Trig, sog: real, cogMag: real, stw: real, heading: real, leeway: real): (r: (real, real))
    ensures sog == stw && cogMag == heading + leeway ==> r == (0.0, 0.0)
  {
    var alpha := 90.0 - (heading + leeway);
    var gamma := 90.0 - cogMag;
    var r := (sog * t.cos(gamma) - stw * t.cos(alpha), sog * t.sin(gamma) - stw * t.sin(alpha));
    assert sog == stw && cogMag == heading + leeway ==> r.0 == 0.0 && r.1 == 0.0 by {
      if sog == stw && cogMag == heading + leeway {
        assert gamma == alpha;
      }
    }
    r
  }

  /** The length of a vector. */
  function Magnitude(t: Trig, x: real, y: real): (m: real)
    requires t.Valid()
    ensures x == 0.0 && y == 0.0 ==> m == 0.0
  {
    t.sqrt(x * x + y * y)
  }

  /** Velocity made good: stw·cos(leeway - twa). */
  function Vmg(t: Trig, stw: real, twa: real, leeway: real): (vmg: real)
    requires t.Valid()
    ensures twa == leeway ==> vmg == stw
  {
    stw * t.cos(-twa + leeway)
  }

  /** Everything getTrue computes after validation, the single awa fold and
      attitude correction: leeway, speed through water, true wind, VMG and
      current. Leeway is in [-45, 45] and is zero, with stw equal to bspd,
      whenever it is not estimated; twa is in [-180, 180]; twd minus variation
      is heading + twa folded once, and doc minus variation lies in [0, 360):
      variation is added after the folds. */
  function SolveCorrected(t: Trig, c: Reading): (r: TrueWindResult)
    requires t.Valid()
    requires Validated(c)
    ensures r.awa == c.awa.value && r.aws == c.aws.value
    ensures -45.0 <= r.leeway <= 45.0
    ensures NoLeeway(c) ==> r.leeway == 0.0 && r.stw == c.bspd.value
    ensures !NoLeeway(c) ==> r.leeway == Clamp45(RawLeeway(c))
    ensures -180.0 <= r.twa <= 180.0
    ensures r.twd - c.variation.value == FoldCompass(c.heading.value + r.twa)
    ensures -180.0 <= c.heading.value <= 540.0 ==> 0.0 <= r.twd - c.variation.value <= 360.0
    ensures 0.0 <= r.doc - c.variation.value < 360.0
    ensures NoLeeway(c) && c.sog == c.bspd && c.cog.value - c.variation.value == c.heading.value ==>
      r.soc == 0.0
  {
    var leeway := Leeway(c);
    var stw := SpeedThroughWater(t, c.bspd.value, leeway);
    var (twsX, twsY) := TrueWindVector(t, c.aws.value, c.awa.value, stw, leeway, c.bspd.value);
    var twa := FoldTwa(t.atan2(twsY, twsX), c.awa.value);
    var wdir := FoldCompass(c.heading.value + twa);
    var (currX, currY) :=
      CurrentVector(t, c.sog.value, c.cog.value - c.variation.value, stw, c.heading.value, leeway);
    var doc := FoldDoc(t.atan2(currY, currX));
    TrueWindResult(
      awa := c.awa.value, aws := c.aws.value, leeway := leeway, stw := stw,
      vmg := Vmg(t, stw, twa, leeway), tws := Magnitude(t, twsX, twsY), twa := twa,
      twd := wdir + c.variation.value,
      soc := Magnitude(t, currX, currY), doc := doc + c.variation.value)
  }

  /** After back-fill, a required field is still absent. */
  predicate MissingAfterBackFill(inp: Reading) {
    || (inp.awa.None? && inp.awd.None?)
    || inp.aws.None?
    || (inp.heading.None? && inp.cog.None?)
    || (inp.bspd.None? && inp.sog.None?)
  }

  /** K is given without a speed unit the leeway formula knows. */
  predicate UnitMissingForK(inp: Reading) {
    inp.K.Some? && inp.speedunit != Some("kt") && inp.speedunit != Some("m/s")
  }

  /** getTrue as a function of its input. It fails exactly when a required
      field is still absent after back-fill, and otherwise exactly when K
      comes without a valid speed unit. The returned awa lies in [-180, 180]
      when no attitude correction applies and in [0, 360) when one does. */
  function Solve(t: Trig, inp: Reading): (r: Result<TrueWindResult>)
    requires t.Valid()
    ensures r == Err(MissingParameters) <==> MissingAfterBackFill(inp)
    ensures r == Err(SpeedUnitRequired) <==> !MissingAfterBackFill(inp) && UnitMissingForK(inp)
    ensures r.Ok? ==> -45.0 <= r.value.leeway <= 45.0 && -180.0 <= r.value.twa <= 180.0
    ensures r.Ok? ==> 0.0 <= r.value.doc - inp.variation.GetOr(0.0) < 360.0
    ensures r.Ok? && Tilted(inp) ==> 0.0 <= r.value.awa < 360.0
    ensures r.Ok? && !Tilted(inp) && inp.awa.None? ==> -180.0 <= r.value.awa <= 180.0
    ensures r.Ok? && !Tilted(inp) && inp.awa.Some? ==>
      var d := r.value.awa - inp.awa.value;
      && (-540.0 <= inp.awa.value <= 540.0 ==> -180.0 <= r.value.awa <= 180.0)
      && (d == 0.0 || d == 360.0 || d == -360.0)
  {
    var s := ConvertAwd(BackFill(inp));
    match Validate(s)
    case Some(e) => Err(e)
    case None => Ok(SolveCorrected(t, AttitudeCorrections(t, s.(awa := Some(FoldSigned(s.awa.value))))))
  }

  // ---------------------------------------------------------------------------
  // getTrue as the library writes it

  /** The backward-compatibility part of getTrue: the input is cloned into a
      working record whose missing fields are filled in place (variation,
      bspd/sog, heading/cog), and a deprecated awd becomes an awa folded into
      [-180, 180] by two loops. */
  method CompleteInput(input: Reading) returns (s: Reading)
    ensures s == ConvertAwd(BackFill(input))
  {
    s := input;

    if s.variation.None? {
      s := s.(variation := Some(0.0));
    }

    if s.bspd.None? && s.sog.Some? {
      s := s.(bspd := s.sog);
    } else if s.sog.None? && s.bspd.Some? {
      s := s.(sog := s.bspd);
    }

    if s.heading.None? && s.cog.Some? {
      s := s.(heading := s.cog);
    } else if s.cog.None? && s.heading.Some? {
      s := s.(cog := s.heading);
    }
    assert s == BackFill(input);

    // The library would compute NaN here when heading is absent; the check
    // in getTrue rejects that input either way.
    if s.awa.None? && s.awd.Some? && s.heading.Some? {
      var awa := s.awd.value - (s.heading.value + s.variation.value);
      ghost var start := awa;
      while awa > 180.0
        invariant LowerInto(awa) == LowerInto(start)
        decreases awa.Floor
      {
        awa := awa - 360.0;
      }
      ghost var lowered := awa;
      while awa < -180.0
        invariant RaiseInto(awa) == RaiseInto(lowered)
        decreases -awa.Floor
      {
        awa := awa + 360.0;
      }
      s := s.(awa := Some(awa));
    }
  }

  /** getTrue: completes the input, validates it, folds awa once, corrects
      for attitude, and computes leeway, true wind and current. */
  method GetTrue(t: Trig, input: Reading) returns (r: Result<TrueWindResult>)
    requires t.Valid()
    ensures r == Solve(t, input)
  {
    var s := CompleteInput(input);
    ghost var completed := s;

    if s.awa.None? || s.aws.None? || s.heading.None? || s.bspd.None? {
      return Err(MissingParameters);
    }
    if s.K.Some? && s.speedunit != Some("kt") && s.speedunit != Some("m/s") {
      return Err(SpeedUnitRequired);
    }

    if s.awa.value > 180.0 {
      s := s.(awa := Some(s.awa.value - 360.0));
    } else if s.awa.value < -180.0 {
      s := s.(awa := Some(s.awa.value + 360.0));
    }
    assert Validate(completed) == None;
    assert s == completed.(awa := Some(FoldSigned(completed.awa.value)));
    assert Solve(t, input) == Ok(SolveCorrected(t, AttitudeCorrections(t, s)));

    s := AttitudeCorrections(t, s);
    var result := TrueWindFrom(t, s);
    r := Ok(result);
  }

  /** The leeway estimate of getTrue: zero when not moving, not heeling, without
      K, or when heeling into the wind; otherwise K·roll / (bspd·f)² clamped
      to [-45, 45]. */
  method EstimateLeeway(s: Reading) returns (leeway: real)
    ensures leeway == Leeway(s)
  {
    if || Falsy(s.bspd) || Falsy(s.roll) || Falsy(s.K)
       || (Positive(s.roll) && Positive(s.awa))
       || (Negative(s.roll) && Negative(s.awa))
    {
      // Not moving, not heeling, or heeling into the wind.
      leeway := 0.0;
    } else {
      var f := UnitFactor(s.speedunit);
      SquarePositive(s.bspd.value, f);
      leeway := s.K.value * s.roll.value / (s.bspd.value * f * (s.bspd.value * f));
      assert leeway == RawLeeway(s);
      if leeway > 45.0 {
        leeway := 45.0;
      } else if leeway < -45.0 {
        leeway := -45.0;
      }
    }
  }

  /** The part of getTrue after attitude correction: the leeway estimate,
      then speed through water, true wind angle (two
      folds), direction (one fold) and current (one fold). */
  method TrueWindFrom(t: Trig, s: Reading) returns (r: TrueWindResult)
    requires t.Valid()
    requires Validated(s)
    ensures r == SolveCorrected(t, s)
  {
    var leeway := EstimateLeeway(s);

    // Speed through water and the true wind vector.
    var stw := SpeedThroughWater(t, s.bspd.value, leeway);
    var (twsX, twsY) := TrueWindVector(t, s.aws.value, s.awa.value, stw, leeway, s.bspd.value);
    var tws := Magnitude(t, twsX, twsY);

    var twaCartesian := t.atan2(twsY, twsX);
    var twa := 270.0 - twaCartesian;
    if s.awa.value >= 0.0 {
      twa := JsRem360(twa);
    } else {
      twa := twa - 360.0;
    }
    if twa > 180.0 {
      twa := twa - 360.0;
    } else if twa < -180.0 {
      twa := twa + 360.0;
    }

    assert twa == FoldTwa(twaCartesian, s.awa.value);
    var vmg := Vmg(t, stw, twa, leeway);

    var wdir := s.heading.value + twa;
    if wdir > 360.0 {
      wdir := wdir - 360.0;
    } else if wdir < 0.0 {
      wdir := wdir + 360.0;
    }

    assert wdir == FoldCompass(s.heading.value + twa);

    // The current: ground track minus water track.
    var (currX, currY) :=
      CurrentVector(t, s.sog.value, s.cog.value - s.variation.value, stw, s.heading.value, leeway);
    var soc := Magnitude(t, currX, currY);

    var docCartesian := t.atan2(currY, currX);
    var doc := 90.0 - docCartesian;
    if doc > 360.0 {
      doc := doc - 360.0;
    } else if doc < 0.0 {
      doc := doc + 360.0;
    }

    assert doc == FoldDoc(docCartesian);
    r := TrueWindResult(
      awa := s.awa.value, aws := s.aws.value, leeway := leeway, stw := stw,
      vmg := vmg, tws := tws, twa := twa, twd := wdir + s.variation.value,
      soc := soc, doc := doc + s.variation.value);
  }
}
