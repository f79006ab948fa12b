/** The simulated battery of the dashboard (track.js, updateBattery).

    The level is a percentage held in one mutable variable for the whole page
    session. Every tick (once a second) it moves by a per-minute rate divided
    by 60: down during peak hours, up otherwise, and it is clamped to
    [0, MaxBattery] right after the move. Arithmetic is exact (`real`). */
module Battery {

  const MaxBattery: real := 100.0
  /** Charging rate, percent per minute. */
  const ChargeRate: real := 0.5
  /** Discharging rate, percent per minute. */
  const DischargeRate: real := 1.0
  /** Level when the page is loaded. */
  const InitialLevel: real := 50.0
  const TicksPerMinute: real := 60.0

  const DischargeStep: real := DischargeRate / TicksPerMinute
  const ChargeStep: real := ChargeRate / TicksPerMinute

  const DischargingLabel: string := "Battery Status: Discharging"
  const ChargingLabel: string := "Battery Status: Charging"

  predicate InRange(level: real)
  {
    0.0 <= level <= MaxBattery
  }

  function Max(a: real, b: real): real
  {
    if a < b then b else a
  }

  function Min(a: real, b: real): real
  {
    if a < b then a else b
  }

  /** The level after one tick: peak ticks discharge and stop at 0, other
      ticks charge and stop at MaxBattery. */
  function Step(level: real, peak: bool): real
  {
    if peak then Max(0.0, level - DischargeStep) else Min(MaxBattery, level + ChargeStep)
  }

  /** The status text written by the tick. */
  function StatusLabel(peak: bool): string
  {
    if peak then DischargingLabel else ChargingLabel
  }

  /** The level after a run of ticks, one peak flag per tick, in order. */
  function Charge(level: real, peaks: seq<bool>): real
    decreases |peaks|
  {
    if peaks == [] then level else Charge(Step(level, peaks[0]), peaks[1..])
  }

  /** n ticks all of the same kind. */
  function Repeat(peak: bool, n: nat): (r: seq<bool>)
    ensures |r| == n
    ensures forall i :: 0 <= i < n ==> r[i] == peak
  {
    if n == 0 then [] else [peak] + Repeat(peak, n - 1)
  }

  /** One tick keeps the level in [0, MaxBattery]. */
  lemma StepInRange(level: real, peak: bool)
    requires InRange(level)
    ensures InRange(Step(level, peak))
  {
  }

  /** A peak tick never raises the level and lowers it unless it is already 0;
      an off-peak tick never lowers it and raises it unless it is already full. */
  lemma StepDirection(level: real, peak: bool)
    requires InRange(level)
    ensures peak ==> Step(level, peak) <= level && (Step(level, peak) < level <==> level > 0.0)
    ensures !peak ==> Step(level, peak) >= level && (Step(level, peak) > level <==> level < MaxBattery)
  {
  }

  /** The status label names the direction the level moved in the same tick. */
  lemma LabelMatchesDirection(level: real, peak: bool)
    requires InRange(level)
    ensures StatusLabel(peak) == DischargingLabel <==> peak
    ensures StatusLabel(peak) == ChargingLabel <==> !peak
    ensures Step(level, peak) < level ==> StatusLabel(peak) == DischargingLabel
    ensures Step(level, peak) > level ==> StatusLabel(peak) == ChargingLabel
  {
    StepDirection(level, peak);
  }

  /** From a level in range, any run of ticks keeps the level in range. */
  lemma {:induction false} ChargeInRange(level: real, peaks: seq<bool>)
    requires InRange(level)
    ensures InRange(Charge(level, peaks))
    decreases |peaks|
  {
    if peaks != [] {
      StepInRange(level, peaks[0]);
      ChargeInRange(Step(level, peaks[0]), peaks[1..]);
    }
  }

  /** n peak ticks lower a non-negative level by n steps, but never below 0. */
  lemma {:induction false} DrainClosedForm(level: real, n: nat)
    requires level >= 0.0
    ensures Charge(level, Repeat(true, n)) == Max(0.0, level - n as real * DischargeStep)
    decreases n
  {
    if n > 0 {
      assert Repeat(true, n)[1..] == Repeat(true, n - 1);
      DrainClosedForm(Step(level, true), n - 1);
    }
  }

  /** n off-peak ticks raise a level of at most MaxBattery by n steps, but never above MaxBattery. */
  lemma {:induction false} FillClosedForm(level: real, n: nat)
    requires level <= MaxBattery
    ensures Charge(level, Repeat(false, n)) == Min(MaxBattery, level + n as real * ChargeStep)
    decreases n
  {
    if n > 0 {
      assert Repeat(false, n)[1..] == Repeat(false, n - 1);
      FillClosedForm(Step(level, false), n - 1);
    }
  }

  /** Enough peak ticks empty the battery exactly, and an empty battery stays empty. */
  lemma DrainsToZero(level: real, n: nat)
    requires 0.0 <= level <= n as real * DischargeStep
    ensures Charge(level, Repeat(true, n)) == 0.0
  {
    DrainClosedForm(level, n);
  }

  /** Enough off-peak ticks fill the battery exactly, and a full battery stays full. */
  lemma FillsToMax(level: real, n: nat)
    requires level <= MaxBattery <= level + n as real * ChargeStep
    ensures Charge(level, Repeat(false, n)) == MaxBattery
  {
    FillClosedForm(level, n);
  }

  /** Saturation at either bound is idempotent under further ticks of the same kind. */
  lemma SaturationIdempotent(n: nat)
    ensures Charge(0.0, Repeat(true, n)) == 0.0
    ensures Charge(MaxBattery, Repeat(false, n)) == MaxBattery
  {
    DrainsToZero(0.0, n);
    FillsToMax(MaxBattery, n);
  }

  /** From the initial 50 %: one peak tick gives exactly 50 - 1/60, one off-peak
      tick exactly 50 + 0.5/60; 50 minutes of peak ticks empty the battery and
      100 minutes of off-peak ticks fill it. */
  lemma FromInitialLevel()
    ensures Step(InitialLevel, true) == 50.0 - 1.0 / 60.0
    ensures Step(InitialLevel, false) == 50.0 + 0.5 / 60.0
    ensures Charge(InitialLevel, Repeat(true, 3000)) == 0.0
    ensures Charge(InitialLevel, Repeat(false, 6000)) == MaxBattery
  {
    DrainsToZero(InitialLevel, 3000);
    FillsToMax(InitialLevel, 6000);
  }

  /** The module-level `batteryLevel` variable. */
  class BatteryState {
    var level: real

    ghost predicate Valid()
      reads this
    {
      InRange(level)
    }

    constructor ()
      ensures level == InitialLevel && Valid()
    {
      level := InitialLevel;
    }

    /** The level update of one updateBattery call. */
    method Tick(peak: bool)
      modifies this
      ensures level == Step(old(level), peak)
      ensures old(Valid()) ==> Valid()
    {
      if peak {
        level := level - DischargeRate / TicksPerMinute;
        if level < 0.0 {
          level := 0.0;
        }
      } else {
        level := level + ChargeRate / TicksPerMinute;
        if level > MaxBattery {
          level := MaxBattery;
        }
      }
    }
  }
}
