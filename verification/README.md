# truewind in Dafny

A model of the `TrueWind` class of the truewind library (`truewind.js`). The
library turns apparent wind and boat-motion readings into true wind, leeway,
velocity made good (VMG) and the set and drift of the current. It has two
operations:

- `getTrue(input)`. It clones the input into a working record and back-fills
  legacy fields: a missing `variation` becomes 0, `bspd`/`sog` and
  `heading`/`cog` are copied across, and a deprecated `awd` becomes `awa`,
  folded by two `while` loops. It then validates the record and folds `awa`
  once by ±360. Only an `awa` within [-540, 540] is sure to land in
  [-180, 180]. Then it corrects `awa` for sensor attitude. After that it
  estimates leeway (a gate, the formula `K·roll/(bspd·f)²` and a clamp to
  [-45, 45]) and solves the true-wind and current vectors. The true wind
  angle, wind direction and current direction are each folded, and the
  variation is added after the folds.
- `getAttitudeCorrections(src)` corrects `awa`/`aws` for sensor roll and
  pitch. It returns its input when either roll or pitch is absent.

Floating-point trigonometry is not modelled. `Math.sin`, `Math.cos` (in
degrees), `Math.sqrt` and `Math.atan2` (converted to degrees) are the fields
of a `Trig` value passed as a parameter. Only these facts about them are
known (`Trig.Valid`):

- cos 0 = 1, sin 0 = 0 and sqrt 0 = 0;
- atan2 lies in (-180, 180];
- cos is never exactly 0. No finite double lies close enough to an odd
  multiple of π/2 for its rounded cosine to be 0. So the library's divisions
  by a cosine (truewind.js:115, 216, 217) never divide by zero.

Everything else is exact: the branching, defaulting, gating, clamping and
folding, over `real` numbers.

Layout:

- `records.dfy`: module `Records` holds the input record `Reading` (every
  field an `Option`), the result record, the two input errors and `Result`.
  Module `Trigonometry` holds `Trig`.
- `angles.dfy`: module `Angles` holds every fold used by the library. These
  are the two awd loops, the single signed fold, the single compass fold
  (which keeps exactly 360), JavaScript's `%` on reals, and the twa and doc
  folds.
- `truewind.dfy`: module `TrueWind` has two parts.
  - Specification functions for each step: `BackFill`, `ConvertAwd`,
    `Validate`, `AttitudeCorrections`, `Leeway`, `SolveCorrected` and `Solve`.
  - `getTrue` as the library writes it, as methods. `CompleteInput` does the
    in-place back-fill and the two loops. `GetTrue` does validation, the awa
    fold and the correction. `EstimateLeeway` is the leeway gate and clamp.
    `TrueWindFrom` computes stw and does the twa, twd and doc folds. Each
    method is proved equal to its specification function.
  - The vector arithmetic (`TrueWindVector`, `CurrentVector`, `Magnitude`,
    `Vmg`) is written over `Trig`. Its contracts state only the cases the
    axioms of `Trig` decide, such as calm air and zero current.
- `cases.dfy`: module `TrueWindCases` holds the library's test cases, proved
  for every admissible `Trig`. It also has two consequences of not re-folding
  `awa` after attitude correction.

Quirks kept as the code has them:

- After attitude correction `awa` is in [0, 360) and is not folded again. The
  returned `awa` can therefore exceed 180, and the `roll < 0 && awa < 0`
  branch of the leeway gate cannot fire on that path (`TiltedGate`). A boat
  heeling to port with the wind from port still gets leeway
  (`PortWindAfterCorrectionGetsLeeway`).
- The direction fold tests `> 360`, so exactly 360 is kept. The variation is
  added to `twd` and `doc` after the fold and not folded again.
- A corrected wind component of exactly zero gets no special treatment. `aws`
  is recomputed as sqrt(wx² + wy²) (truewind.js:219).
- The two error messages differ between code and tests ("paramter" at
  truewind.js:75 against "parameter" at truewind.test.js:70). The model has
  two error values and no strings.

## Model

| member | source | states |
|---|---|---|
| TrueWind.GetTrue | truewind.js:30-183 | getTrue's result equals `Solve` of its input, for every input |
| TrueWind.CompleteInput | truewind.js:31-62 | the in-place back-fill and the two awd loops (which terminate over exact reals) produce exactly `ConvertAwd(BackFill(input))` |
| TrueWind.EstimateLeeway | truewind.js:88-112 | the leeway gate, formula and clamp compute exactly `Leeway` of the corrected record |
| TrueWind.TrueWindFrom | truewind.js:114-182 | stw, the twa folds, the wdir fold and the doc fold compute exactly `SolveCorrected` |
| TrueWind.BackFill | truewind.js:33-48 | a missing variation becomes 0; if one of bspd/sog (heading/cog) is missing it takes the other's value; a field already present is never overwritten; no other field changes |
| TrueWind.ConvertAwd | truewind.js:50-62 | only awa changes, and only when awa is absent and awd present; it becomes awd − (heading + variation) plus whole turns, in [-180, 180] |
| Angles.LowerInto | truewind.js:55-57 | the first awd loop ends at or below 180, above -180 if it ran, a whole number of turns from its start |
| Angles.RaiseInto | truewind.js:59-61 | the second awd loop ends at or above -180, below 180 if it ran, a whole number of turns from its start |
| Angles.FoldAwd | truewind.js:52-62 | both loops give [-180, 180], a whole number of turns away; values already in range are kept |
| Angles.FoldSigned | truewind.js:79-83 | the single awa fold maps [-540, 540] into [-180, 180], keeps [-180, 180], and moves by 0 or ±360 |
| TrueWind.Solve | truewind.js:30-183 | fails with MissingParameters exactly when awa, aws, heading or bspd is absent after back-fill. Otherwise it fails with SpeedUnitRequired exactly when K comes without "kt"/"m/s". On success: leeway in [-45, 45], twa in [-180, 180], doc − variation in [0, 360), and awa in [0, 360) when roll and pitch are given. Without attitude correction, awa is within 0 or ±360 of the input, and lies in [-180, 180] for an input awa in [-540, 540] |
| TrueWind.AttitudeCorrections | truewind.js:190-230 | identity unless roll and pitch are both given; otherwise only awa and aws change, awa lands in [0, 360), and aws 0 stays 0 |
| TrueWind.Validate | truewind.js:65-76 | fails with MissingParameters exactly when awa, aws, heading or bspd is absent. Otherwise it fails with SpeedUnitRequired exactly when K is given without "kt" or "m/s". It passes exactly when neither holds |
| TrueWind.LeewayGate | truewind.js:91-112 | leeway is nonzero exactly when bspd, roll and K are present and nonzero, and the boat does not heel to the side the wind comes from |
| TrueWind.UnitFactor | truewind.js:104 | the factor is positive; it is 1 exactly for "kt" and MS_TO_KT otherwise |
| TrueWind.RawLeeway | truewind.js:100-105 | K·roll / (bspd·f)² with f = 1 for "kt" and 1.94384 otherwise; its sign is the sign of K·roll |
| TrueWind.Clamp45 | truewind.js:107-111 | the result is in [-45, 45], equals the input inside that range, and equals the nearer bound outside it |
| TrueWind.Leeway | truewind.js:91-112 | in [-45, 45]; 0 when bspd, roll or K is absent or zero or the boat heels to the side the wind comes from; otherwise the clamped formula, with the sign of K·roll |
| TrueWind.SpeedThroughWater | truewind.js:114-115 | stw = bspd / cos(leeway) equals bspd when leeway is 0 |
| TrueWind.TrueWindVector | truewind.js:117-126 | with calm apparent wind and no leeway, the true wind vector is (0, bspd), the boat's own motion |
| TrueWind.Magnitude | truewind.js:127 | tws here and soc at line 157: the zero vector has length 0; other lengths are numeric values and are not modelled |
| TrueWind.Vmg | truewind.js:146 | VMG equals stw when twa equals leeway; other values are numeric and are not modelled |
| TrueWind.CurrentVector | truewind.js:152-156 | the current is zero when sog equals stw and the magnetic cog equals heading + leeway |
| Angles.JsRem360 | truewind.js:139 | JavaScript `%` by 360 keeps the sign of its operand, stays within one turn of 0, leaves (-360, 360) alone and removes whole turns |
| Angles.FoldTwa | truewind.js:129-144 | for atan2 in (-180, 180], twa is in [-180, 180] and a whole number of turns from 270 − atan2. It is never -180 when awa ≥ 0 and never 180 when awa < 0 |
| Angles.FoldCompass | truewind.js:148-150 | one fold maps [-360, 720] into [0, 360], keeps [0, 360] (360 included), and moves by 0 or ±360 |
| Angles.FoldDoc | truewind.js:159-169 | doc before the variation is added lies in [0, 360) and is a whole number of turns from 90 − atan2 |
| TrueWind.SolveCorrected | truewind.js:88-182 | on a validated, corrected record: leeway in [-45, 45]; leeway 0 and stw = bspd whenever the gate applies; the clamped formula otherwise. twa is in [-180, 180]. twd − variation is heading + twa folded once, and lies in [0, 360] for heading in [-180, 540]. doc − variation is in [0, 360). With no leeway, sog = bspd and magnetic cog = heading, the current's speed is 0 |
| TrueWindCases.MissingFieldsRejected | truewind.test.js:47-57 | awa and aws alone are rejected as missing parameters |
| TrueWindCases.InvalidSpeedUnitRejected | truewind.test.js:59-72 | K with speedunit "invalid" is rejected |
| TrueWindCases.MinimalInputAccepted | truewind.test.js:31-45 | the four required fields suffice; leeway is 0 and stw is bspd |
| TrueWindCases.AwdConverted | truewind.test.js:74-87 | awd 50, heading 10, variation 5 give awa 35 |
| TrueWindCases.AwaNormalized | truewind.test.js:89-102 | awa 200 is returned as -160 |
| TrueWindCases.LeewayEstimated | truewind.test.js:104-120 | roll -10, K 15, bspd 6 kt with wind from starboard give leeway -150/36 |
| TrueWindCases.HeelingIntoWindHasNoLeeway | truewind.test.js:122-137 | roll 10 with awa 30 gives leeway 0 and stw = bspd |
| TrueWindCases.TiltedGate | truewind.js:91-97 | after attitude correction the gate reduces to zero speed, roll or K, or roll > 0 with awa > 0 |
| TrueWindCases.PortWindAfterCorrectionGetsLeeway | truewind.js:96 | with a corrected awa of 270 and roll -5, leeway is -2, not 0 |
| TrueWindCases.UncorrectedReadingUnchanged | truewind.test.js:141-150 | without roll and pitch the reading comes back unchanged |
| TrueWindCases.CorrectedReadings | truewind.test.js:167-194 | awa -30 comes back in [0, 360); aws 0 comes back 0 |

## Left out

- Numeric values of tws, twa, vmg, soc and doc (truewind.js:115-127, 146, 152-159). They come from floating-point sin, cos, sqrt and atan2, which are the uninterpreted `Trig` parameter. The end-to-end numeric example (truewind.test.js:6-29) is left out for the same reason.
- The `isNaN(atan2(...))` branches (truewind.js:133-136, 162-165). `Math.atan2` is NaN only for NaN arguments, and every argument here is a finite real.
- The `correct for roll and pitch` test (truewind.test.js:152-165). It checks that the corrected values differ from the input, which depends on actual trigonometric values.
- Floating-point rounding: every quantity is an exact real.
- JavaScript truthiness and loose typing: a field is either absent or a real number. NaN, `null` and non-numeric values are not modelled. `speedunit` is an optional string.
- Fields other than the twelve named ones, which `Object.assign` would carry through, are not modelled.
- TrueWind.ConvertAwd: with `awd` given but `heading` absent, the library computes `awa` as NaN. The model leaves `awa` absent. Both then fail with MissingParameters, because heading is missing.
- TrueWind.AttitudeCorrections: requires awa and aws when roll and pitch are both given. The type declaration (truewind.d.ts:4-27) makes them mandatory. Without them the library returns NaN fields, which reals cannot express.
- TrueWind.CompleteInput: the awd loops (truewind.js:55-61) are modelled over exact reals, where they always terminate. In IEEE doubles, `s.awa -= 360` no longer changes a value at or above about 2^62, or an infinite one. From there the loop never ends, and near 1e15 it already needs about 3·10¹² iterations. The model does not capture this non-termination.
- The exact text of the two thrown messages.
- eslint.config.js, rollup.config.js and truewind.d.ts are build, lint and type configuration with no behaviour.
