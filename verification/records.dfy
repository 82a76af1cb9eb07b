/** The value types of the true-wind library: optional fields, the input
    record (which getTrue clones and back-fills), the result record and the
    two input errors. */
module Records {

  datatype Option<T> = None | Some(value: T) {
    /** The value, or `d` when it is absent. */
    function GetOr(d: T): T {
      if Some? then value else d
    }
  }

  /** The two ways getTrue rejects its input. */
  datatype InputError =
    | MissingParameters   // one of awa, aws, heading, bspd is absent after back-fill
    | SpeedUnitRequired   // K given without speedunit "kt" or "m/s"

  datatype Result<T> = Ok(value: T) | Err(error: InputError)

  /** The input object of getTrue and getAttitudeCorrections. Every field may
      be absent (`undefined` in the library); `awd` is the deprecated absolute
      wind direction that older callers give instead of `awa`. */
  datatype Reading = Reading(
    bspd: Option<real>,        // boat speed through water, as measured
    sog: Option<real>,         // speed over ground
    cog: Option<real>,         // course over ground (degrees)
    aws: Option<real>,         // apparent wind speed
    awa: Option<real>,         // apparent wind angle (degrees)
    heading: Option<real>,     // heading (degrees magnetic)
    variation: Option<real>,   // magnetic variation (degrees)
    roll: Option<real>,        // sensor roll (degrees)
    pitch: Option<real>,       // sensor pitch (degrees)
    K: Option<real>,           // leeway coefficient
    speedunit: Option<string>, // unit of bspd for the leeway formula
    awd: Option<real>          // deprecated: apparent wind direction
  )

  /** The object getTrue returns. */
  datatype TrueWindResult = TrueWindResult(
    awa: real, aws: real, leeway: real, stw: real, vmg: real,
    tws: real, twa: real, twd: real, soc: real, doc: real
  )

  /** Absent, or zero: the values JavaScript treats as false for a number. */
  predicate Falsy(o: Option<real>) {
    o.None? || o.value == 0.0
  }

  predicate Positive(o: Option<real>) {
    o.Some? && o.value > 0.0
  }

  predicate Negative(o: Option<real>) {
    o.Some? && o.value < 0.0
  }
}

/** The transcendental functions the library takes from `Math`, all working
    in degrees (the library multiplies by DEG_TO_RAD before sin and cos, and
    by RAD_TO_DEG after atan2). They are a parameter of the model: only the
    facts in `Valid` are known about them. */
module Trigonometry {

  datatype Trig = Trig(
    sin: real -> real,          // Math.sin(x · π/180)
    cos: real -> real,          // Math.cos(x · π/180)
    sqrt: real -> real,         // Math.sqrt(x)
    atan2: (real, real) -> real // Math.atan2(y, x) · 180/π
  ) {
    /** cos 0 = 1, sin 0 = 0, sqrt 0 = 0, atan2 lies in (-180, 180], and cos
        is never exactly zero (no finite double is an odd multiple of π/2). */
    ghost predicate Valid() {
      && cos(0.0) == 1.0
      && sin(0.0) == 0.0
      && sqrt(0.0) == 0.0
      && (forall x :: cos(x) != 0.0)
      && (forall y, x :: -180.0 < atan2(y, x) <= 180.0)
    }
  }
}
