/**
 * The brightness model: `calculate_brightness` and the backlight setpoint the
 * change handler derives from it (main.c:26-27, 38-46, 124).
 *
 * The lux-to-brightness curve `log10(level + 1) / 5.0` works on doubles; it is
 * a parameter `curve` here, and only the unit guard in front of it is modelled
 * exactly. Doubles are modelled as `real`.
 */
module Brightness {
  import opened CStrings

  const LowerBacklight: int := 6
  /** Declared next to LowerBacklight; nothing in the daemon reads it. */
  const UpperBacklight: int := 100

  /** The unit literal and the bound `strncmp` is given, which covers its terminator. */
  const Lux: string := "lux"
  const LuxCompareLength: nat := 4

  /** The unit guard: `strncmp(unit, "lux", 4) == 0`. */
  predicate UnitAccepted(unit: string): (r: bool)
    ensures r ==> CView(unit) == Lux
  {
    CViewOfPlain(Lux);
    StrNCmpMeaning(unit, Lux, LuxCompareLength);
    StrNCmpZero(unit, Lux, LuxCompareLength)
  }

  /** The guard accepts exactly the C string "lux": "luxx" and "lu" both fail it. */
  lemma UnitAcceptedMeaning(unit: string)
    ensures UnitAccepted(unit) <==> CView(unit) == Lux
  {
    CViewOfPlain(Lux);
    StrNCmpMeaning(unit, Lux, LuxCompareLength);
  }

  /** `calculate_brightness`: the curve for a lux reading, 0 for any other unit. */
  function CalculateBrightness(level: real, unit: string, curve: real -> real): (b: real)
    ensures CView(unit) == Lux ==> b == curve(level)
    ensures CView(unit) != Lux ==> b == 0.0
  {
    UnitAcceptedMeaning(unit);
    if !UnitAccepted(unit) then 0.0 else curve(level)
  }

  /**
   * The value handed to `xbacklight -set`: brightness scaled by 10 and offset
   * by LowerBacklight, with no clamp against UpperBacklight.
   */
  function Setpoint(b: real): (x: real)
    ensures 0.0 <= b <= 1.0 ==> LowerBacklight as real <= x <= (LowerBacklight + 10) as real
    ensures b <= 0.0 ==> x <= LowerBacklight as real
    ensures b > ((UpperBacklight - LowerBacklight) as real) / 10.0 ==> x > UpperBacklight as real
  {
    b * 10.0 + LowerBacklight as real
  }

  /** The setpoint for one light reading. */
  function BacklightSetpoint(level: real, unit: string, curve: real -> real): real {
    Setpoint(CalculateBrightness(level, unit, curve))
  }

  /** A reading in lux sets the backlight by the curve. */
  lemma LuxSetpoint(level: real, curve: real -> real)
    ensures BacklightSetpoint(level, Lux, curve) == Setpoint(curve(level))
  {
    CViewOfPlain(Lux);
  }

  /** Any unit other than "lux" sets the backlight to exactly LowerBacklight. */
  lemma ForeignUnitSetpoint(level: real, unit: string, curve: real -> real)
    requires CView(unit) != Lux
    ensures BacklightSetpoint(level, unit, curve) == LowerBacklight as real
  {
  }

  /**
   * The setpoint is not kept under UpperBacklight: a lux reading the curve maps
   * above 9.4 yields a setpoint above it.
   */
  lemma SetpointUnclamped(level: real, unit: string, curve: real -> real)
    requires CView(unit) == Lux && curve(level) > 9.4
    ensures BacklightSetpoint(level, unit, curve) > UpperBacklight as real
  {
  }

  /** "luxx" shares the literal's first three characters and is still rejected. */
  lemma LongerUnitRejected()
    ensures !UnitAccepted("luxx") && !UnitAccepted("lu") && UnitAccepted("lux")
  {
    UnitAcceptedMeaning("luxx");
    UnitAcceptedMeaning("lu");
    UnitAcceptedMeaning("lux");
    CViewOfPlain("luxx");
    CViewOfPlain("lu");
  }
}
