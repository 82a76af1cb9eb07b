/** The behaviours the library's tests check, stated for every admissible
    `Trig`, and two consequences of not re-folding awa after attitude
    correction. */
module TrueWindCases {
  import opened Records
  import opened Trigonometry
  import opened TrueWind

  /** A reading with no field given. */
  const Blank := Reading(None, None, None, None, None, None, None, None, None, None, None, None)

  /** Only awa and aws given: bspd and heading are missing. */
  lemma MissingFieldsRejected(t: Trig)
    requires t.Valid()
    ensures Solve(t, Blank.(aws := Some(15.0), awa := Some(45.0))) == Err(MissingParameters)
  {
  }

  /** K given with a speed unit other than "kt" or "m/s". */
  lemma InvalidSpeedUnitRejected(t: Trig)
    requires t.Valid()
    ensures Solve(t, Blank.(aws := Some(15.0), awa := Some(45.0), bspd := Some(6.0),
                            heading := Some(180.0), K := Some(10.0),
                            speedunit := Some("invalid"))) == Err(SpeedUnitRequired)
  {
  }

  /** The four required fields alone are enough; with no roll and no K there
      is no leeway and stw is bspd. */
  lemma MinimalInputAccepted(t: Trig)
    requires t.Valid()
    ensures var r := Solve(t, Blank.(aws := Some(15.0), awa := Some(45.0), bspd := Some(6.0),
                                     heading := Some(180.0)));
      r.Ok? && r.value.leeway == 0.0 && r.value.stw == 6.0 && r.value.awa == 45.0
  {
  }

  /** The deprecated awd: 50 - (10 + 5) gives awa 35. */
  lemma AwdConverted(t: Trig)
    requires t.Valid()
    ensures var r := Solve(t, Blank.(aws := Some(10.0), awd := Some(50.0), bspd := Some(5.0),
                                     heading := Some(10.0), variation := Some(5.0)));
      r.Ok? && r.value.awa == 35.0
  {
  }

  /** An awa of 200 is folded to -160. */
  lemma AwaNormalized(t: Trig)
    requires t.Valid()
    ensures var r := Solve(t, Blank.(aws := Some(10.0), awa := Some(200.0), bspd := Some(5.0),
                                     heading := Some(10.0)));
      r.Ok? && r.value.awa == -160.0
  {
  }

  /** Heeling to port (roll -10) with the wind from starboard (awa 30):
      leeway is 15·(-10) / 6², inside the clamp. */
  lemma LeewayEstimated(t: Trig)
    requires t.Valid()
    ensures var r := Solve(t, Blank.(aws := Some(12.0), awa := Some(30.0), bspd := Some(6.0),
                                     heading := Some(90.0), roll := Some(-10.0), K := Some(15.0),
                                     speedunit := Some("kt")));
      r.Ok? && r.value.leeway == -150.0 / 36.0
  {
    var s := Blank.(aws := Some(12.0), awa := Some(30.0), bspd := Some(6.0),
                    heading := Some(90.0), roll := Some(-10.0), K := Some(15.0),
                    speedunit := Some("kt"), variation := Some(0.0), sog := Some(6.0),
                    cog := Some(90.0));
    assert !NoLeeway(s);
    assert RawLeeway(s) == -150.0 / 36.0;
  }

  /** Heeling to starboard with the wind from starboard: no leeway. */
  lemma HeelingIntoWindHasNoLeeway(t: Trig)
    requires t.Valid()
    ensures var r := Solve(t, Blank.(aws := Some(12.0), awa := Some(30.0), bspd := Some(6.0),
                                     heading := Some(90.0), roll := Some(10.0), K := Some(15.0),
                                     speedunit := Some("kt")));
      r.Ok? && r.value.leeway == 0.0 && r.value.stw == 6.0
  {
  }

  /** Once roll and pitch are given, the awa the leeway gate sees is in
      [0, 360), so "roll < 0 and awa < 0" never holds there: the gate reduces
      to zero speed, roll or K, or heeling to starboard with awa above 0. */
  lemma TiltedGate(t: Trig, s: Reading)
    requires t.Valid()
    requires Tilted(s) && s.awa.Some? && s.aws.Some?
    ensures var c := AttitudeCorrections(t, s);
      NoLeeway(c) <==> Falsy(c.bspd) || Falsy(c.roll) || Falsy(c.K) || (Positive(c.roll) && Positive(c.awa))
  {
  }

  /** A sensor that reports the wind from port: atan2 always -90, so the
      corrected awa is 270. With the boat heeling to port the wind comes from
      the side it heels to, yet leeway is estimated: 10·(-5) / 5² = -2. */
  lemma PortWindAfterCorrectionGetsLeeway()
    ensures var t := Trig(x => 0.0, x => 1.0, x => 0.0, (y, x) => -90.0);
      && t.Valid()
      && var r := Solve(t, Blank.(aws := Some(10.0), awa := Some(-90.0), bspd := Some(5.0),
                                  heading := Some(0.0), roll := Some(-5.0), pitch := Some(0.0),
                                  K := Some(10.0), speedunit := Some("kt")));
      && r.Ok? && r.value.awa == 270.0 && r.value.leeway == -2.0
  {
    var t := Trig(x => 0.0, x => 1.0, x => 0.0, (y, x) => -90.0);
    var s := Blank.(aws := Some(10.0), awa := Some(-90.0), bspd := Some(5.0),
                    heading := Some(0.0), roll := Some(-5.0), pitch := Some(0.0),
                    K := Some(10.0), speedunit := Some("kt"), variation := Some(0.0),
                    sog := Some(5.0), cog := Some(0.0));
    var c := AttitudeCorrections(t, s);
    assert c.awa == Some(270.0);
    assert !NoLeeway(c);
    assert RawLeeway(c) == -2.0;
  }

  /** getAttitudeCorrections without roll and pitch returns its input. */
  lemma UncorrectedReadingUnchanged(t: Trig)
    requires t.Valid()
    ensures AttitudeCorrections(t, Blank.(aws := Some(10.0), awa := Some(45.0)))
         == Blank.(aws := Some(10.0), awa := Some(45.0))
  {
  }

  /** A negative awa comes back in [0, 360); a calm reading stays calm. */
  lemma CorrectedReadings(t: Trig)
    requires t.Valid()
    ensures var r := AttitudeCorrections(t, Blank.(aws := Some(10.0), awa := Some(-30.0),
                                                   roll := Some(5.0), pitch := Some(2.0)));
      0.0 <= r.awa.value < 360.0
    ensures AttitudeCorrections(t, Blank.(aws := Some(0.0), awa := Some(0.0),
                                          roll := Some(10.0), pitch := Some(5.0))).aws == Some(0.0)
  {
  }
}
