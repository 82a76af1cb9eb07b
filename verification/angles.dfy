/** The angle-folding rules of truewind.js. Each fold moves an angle by whole
    turns of 360 degrees; they differ in the target range, in whether they
    repeat, and in which end of the range is kept. */
module Angles {

  /** `d` is a whole number of turns. */
  predicate WholeTurns(d: real) {
    (d / 360.0).Floor as real * 360.0 == d
  }

  lemma WholeTurnsOf(k: int)
    ensures WholeTurns(360.0 * k as real)
  {
    assert (360.0 * k as real) / 360.0 == k as real;
  }

  /** Whole turns are closed under sums and differences. */
  lemma WholeTurnsAdd(a: real, b: real)
    requires WholeTurns(a) && WholeTurns(b)
    ensures WholeTurns(a + b) && WholeTurns(a - b)
  {
    var i, j := (a / 360.0).Floor, (b / 360.0).Floor;
    assert a + b == 360.0 * (i + j) as real;
    assert a - b == 360.0 * (i - j) as real;
    WholeTurnsOf(i + j);
    WholeTurnsOf(i - j);
  }

  /** The first awd loop: subtract 360 while the angle exceeds 180. */
  function LowerInto(x: real): (r: real)
    ensures r <= 180.0
    ensures x <= 180.0 ==> r == x
    ensures x > 180.0 ==> -180.0 < r
    ensures WholeTurns(r - x)
    decreases x.Floor
  {
    if x > 180.0 then
      var r := LowerInto(x - 360.0);
      WholeTurnsOf(1);
      WholeTurnsAdd(r - (x - 360.0), 360.0);
      r
    else
      WholeTurnsOf(0);
      x
  }

  /** The second awd loop: add 360 while the angle is below -180. */
  function RaiseInto(x: real): (r: real)
    ensures -180.0 <= r
    ensures -180.0 <= x ==> r == x
    ensures x < -180.0 ==> r < 180.0
    ensures WholeTurns(r - x)
    decreases -x.Floor
  {
    if x < -180.0 then
      var r := RaiseInto(x + 360.0);
      WholeTurnsOf(1);
      WholeTurnsAdd(r - (x + 360.0), -360.0);
      r
    else
      WholeTurnsOf(0);
      x
  }

  /** Both awd loops in turn: any angle ends in [-180, 180], a whole number of
      turns away; 180 and -180 are kept as they are, and an angle that had to
      come down never lands on -180, one that had to go up never on 180. */
  function FoldAwd(x: real): (r: real)
    ensures -180.0 <= r <= 180.0
    ensures WholeTurns(r - x)
    ensures -180.0 <= x <= 180.0 ==> r == x
    ensures x > 180.0 ==> -180.0 < r
    ensures x < -180.0 ==> r < 180.0
  {
    var l := LowerInto(x);
    var r := RaiseInto(l);
    WholeTurnsAdd(r - l, l - x);
    r
  }

  /** One step of folding into [-180, 180]: awa before attitude correction and
      the last step of twa. Only inputs within one turn of that range end in it. */
  function FoldSigned(x: real): (r: real)
    ensures -540.0 <= x <= 540.0 ==> -180.0 <= r <= 180.0
    ensures -180.0 <= x <= 180.0 ==> r == x
    ensures r - x == 0.0 || r - x == 360.0 || r - x == -360.0
  {
    if x > 180.0 then x - 360.0
    else if x < -180.0 then x + 360.0
    else x
  }

  /** One step of folding into [0, 360] for twd and doc; it tests `> 360`, so
      exactly 360 is kept. Only inputs within one turn of that range end in it. */
  function FoldCompass(x: real): (r: real)
    ensures -360.0 <= x <= 720.0 ==> 0.0 <= r <= 360.0
    ensures 0.0 <= x <= 360.0 ==> r == x
    ensures r - x == 0.0 || r - x == 360.0 || r - x == -360.0
  {
    if x > 360.0 then x - 360.0
    else if x < 0.0 then x + 360.0
    else x
  }

  /** JavaScript's `x % 360`: the quotient is truncated toward zero, so the
      remainder takes the sign of `x`. */
  function JsRem360(x: real): (r: real)
    ensures 0.0 <= x ==> 0.0 <= r < 360.0
    ensures x < 0.0 ==> -360.0 < r <= 0.0
    ensures -360.0 < x < 360.0 ==> r == x
    ensures WholeTurns(x - r)
  {
    var q := if x >= 0.0 then (x / 360.0).Floor else -((-x) / 360.0).Floor;
    WholeTurnsOf(q);
    x - 360.0 * q as real
  }

  /** The true wind angle from the atan2 of the true wind vector (degrees) and
      the sign of awa. For atan2 in (-180, 180] it lies in [-180, 180], a whole
      number of turns from 270 - atan2; it is never -180 when awa >= 0 and
      never 180 when awa < 0. */
  function FoldTwa(cartesian: real, awa: real): (r: real)
    ensures -180.0 < cartesian <= 180.0 ==> -180.0 <= r <= 180.0
    ensures WholeTurns(r - (270.0 - cartesian))
    ensures -180.0 < cartesian <= 180.0 && awa >= 0.0 ==> -180.0 < r
    ensures -180.0 < cartesian <= 180.0 && awa < 0.0 ==> r < 180.0
  {
    var twa0 := 270.0 - cartesian;
    var twa1 := if awa >= 0.0 then JsRem360(twa0) else twa0 - 360.0;
    var r := FoldSigned(twa1);
    WholeTurnsOf(1);
    WholeTurnsOf(0);
    WholeTurnsOf(-1);
    assert WholeTurns(twa1 - twa0) by {
      if awa >= 0.0 { WholeTurnsAdd(0.0, twa0 - twa1); }
    }
    WholeTurnsAdd(r - twa1, twa1 - twa0);
    r
  }

  /** The direction of the current from the atan2 of the current vector:
      always in [0, 360). */
  function FoldDoc(cartesian: real): (r: real)
    ensures -180.0 < cartesian <= 180.0 ==> 0.0 <= r < 360.0
    ensures WholeTurns(r - (90.0 - cartesian))
  {
    var r := FoldCompass(90.0 - cartesian);
    WholeTurnsOf(1);
    WholeTurnsOf(0);
    WholeTurnsOf(-1);
    r
  }
}
