/** The tick of the dashboard (track.js, updateAll and the functions it calls).

    Each tick reads the clock once and passes that one reading to both the
    indicator update and the battery update, then refreshes the flow readout
    and the buzzer. The page runs one tick when it loads and then one every
    second; a run of ticks is the sequence of clock readings they see. */
module Dashboard {
  import opened PeakHours
  import opened ClassList
  import opened Battery
  import opened Ats
  import opened Readouts

  /** What the dashboard shows and keeps: the indicator, the battery level and
      its status text, and the buzzer. */
  datatype Panel = Panel(
    atsText: string,
    atsClasses: set<string>,
    level: real,
    batteryStatus: string,
    buzzerText: string,
    buzzerClasses: set<string>)

  /** updateATSStatus(now) */
  function AtsStep(p: Panel, now: Timestamp): Panel
  {
    var peak := IsPeakHours(now);
    p.(atsText := AtsText(peak), atsClasses := AtsClasses(p.atsClasses, peak))
  }

  /** updateBattery(now) */
  function BatteryStep(p: Panel, now: Timestamp): Panel
  {
    var peak := IsPeakHours(now);
    p.(level := Step(p.level, peak), batteryStatus := StatusLabel(peak))
  }

  /** The buzzer part of updateFlowRate() */
  function BuzzerStep(p: Panel, flowLps: real): Panel
  {
    var alert := IsFlowAlert(flowLps);
    p.(buzzerText := BuzzerText(alert), buzzerClasses := BuzzerClasses(p.buzzerClasses, alert))
  }

  /** updateAll() with the clock reading `now`, in the program's order. */
  function Tick(p: Panel, now: Timestamp, flowLps: real): Panel
  {
    BuzzerStep(BatteryStep(AtsStep(p, now), now), flowLps)
  }

  /** The panel after one tick per clock reading, in order. */
  function RunTicks(p: Panel, times: seq<Timestamp>, flowLps: real): Panel
    decreases |times|
  {
    if times == [] then p else RunTicks(Tick(p, times[0], flowLps), times[1..], flowLps)
  }

  /** What every tick leaves on the panel: exactly one indicator class and one
      buzzer class; indicator text, indicator class and battery status all name
      the same mode; the buzzer shows the alarm exactly when the flow exceeds
      the limit; the level is in range. */
  predicate Consistent(p: Panel, flowLps: real)
  {
    && (BessMode in p.atsClasses <==> GridMode !in p.atsClasses)
    && (BessMode in p.atsClasses <==> p.atsText == BessText)
    && (BessMode in p.atsClasses <==> p.batteryStatus == DischargingLabel)
    && (AlertClass in p.buzzerClasses <==> SafeClass !in p.buzzerClasses)
    && (AlertClass in p.buzzerClasses <==> IsFlowAlert(flowLps))
    && (AlertClass in p.buzzerClasses <==> p.buzzerText == AlertText)
    && InRange(p.level)
  }

  /** Within one tick the indicator and the battery agree: "bess-mode" is set
      exactly when the battery status says it is discharging, the level never
      rises in BESS mode nor falls in grid mode, and a level that moved names
      the mode. Classes other than the two pairs are left as they were. */
  lemma TickAgreement(p: Panel, now: Timestamp, flowLps: real)
    requires InRange(p.level)
    ensures var q := Tick(p, now, flowLps);
      && (BessMode in q.atsClasses <==> IsPeakHours(now))
      && (BessMode in q.atsClasses <==> q.batteryStatus == DischargingLabel)
      && (BessMode in q.atsClasses ==> q.level <= p.level)
      && (GridMode in q.atsClasses ==> q.level >= p.level)
      && (q.level < p.level ==> BessMode in q.atsClasses)
      && (q.level > p.level ==> GridMode in q.atsClasses)
      && (forall c :: c != BessMode && c != GridMode ==> (c in q.atsClasses <==> c in p.atsClasses))
      && (forall c :: c != AlertClass && c != SafeClass ==> (c in q.buzzerClasses <==> c in p.buzzerClasses))
  {
    var peak := IsPeakHours(now);
    AtsExactlyOne(p.atsClasses, peak);
    LabelMatchesDirection(p.level, peak);
    StepDirection(p.level, peak);
    BuzzerExactlyOne(p.buzzerClasses, flowLps);
  }

  /** One tick from a level in range leaves a consistent panel. */
  lemma TickConsistent(p: Panel, now: Timestamp, flowLps: real)
    requires InRange(p.level)
    ensures Consistent(Tick(p, now, flowLps), flowLps)
  {
    var peak := IsPeakHours(now);
    AtsExactlyOne(p.atsClasses, peak);
    LabelMatchesDirection(p.level, peak);
    StepInRange(p.level, peak);
    BuzzerExactlyOne(p.buzzerClasses, flowLps);
  }

  /** The battery part of a run of ticks is the battery run over the ticks'
      peak classifications. */
  lemma {:induction false} RunTicksLevel(p: Panel, times: seq<Timestamp>, flowLps: real)
    ensures RunTicks(p, times, flowLps).level == Charge(p.level, Classify(times))
    decreases |times|
  {
    if times != [] {
      assert Classify(times)[1..] == Classify(times[1..]);
      RunTicksLevel(Tick(p, times[0], flowLps), times[1..], flowLps);
    }
  }

  /** The peak classification of each clock reading. */
  function Classify(times: seq<Timestamp>): (peaks: seq<bool>)
    ensures |peaks| == |times|
    ensures forall i :: 0 <= i < |times| ==> peaks[i] == IsPeakHours(times[i])
  {
    seq(|times|, i requires 0 <= i < |times| => IsPeakHours(times[i]))
  }

  /** After at least one tick the panel is consistent, whatever it showed
      before, as long as the level started in range. */
  lemma {:induction false} RunTicksConsistent(p: Panel, times: seq<Timestamp>, flowLps: real)
    requires InRange(p.level)
    ensures InRange(RunTicks(p, times, flowLps).level)
    ensures times != [] ==> Consistent(RunTicks(p, times, flowLps), flowLps)
    decreases |times|
  {
    if times != [] {
      TickConsistent(p, times[0], flowLps);
      RunTicksConsistent(Tick(p, times[0], flowLps), times[1..], flowLps);
    }
  }

  /** The page: its three page elements, the battery variable and the flow rate
      computed at load. */
  class Page {
    const ats: Element
    const batteryStatus: Element
    const buzzer: Element
    const battery: BatteryState
    const flowRateLps: real

    /** The three elements are distinct page elements. */
    ghost predicate Valid()
    {
      ats != batteryStatus && ats != buzzer && batteryStatus != buzzer
    }

    ghost function Snapshot(): Panel
      reads ats, batteryStatus, buzzer, battery
    {
      Panel(ats.text, ats.classes, battery.level, batteryStatus.text, buzzer.text, buzzer.classes)
    }

    /** Page load: the element lookups are given, the battery starts at 50 %
        and the flow rate is computed from the pipe constants. */
    constructor (ats: Element, batteryStatus: Element, buzzer: Element, pi: real)
      requires ats != batteryStatus && ats != buzzer && batteryStatus != buzzer
      ensures Valid()
      ensures this.ats == ats && this.batteryStatus == batteryStatus && this.buzzer == buzzer
      ensures fresh(battery) && battery.level == InitialLevel
      ensures flowRateLps == FlowRateLps(pi)
    {
      this.ats := ats;
      this.batteryStatus := batteryStatus;
      this.buzzer := buzzer;
      battery := new BatteryState();
      flowRateLps := FlowRateLps(pi);
    }

    method UpdateATSStatus(now: Timestamp)
      requires Valid()
      modifies ats
      ensures Snapshot() == AtsStep(old(Snapshot()), now)
    {
      if IsPeakHours(now) {
        ats.SetText(BessText);
        ats.Add(BessMode);
        ats.Remove(GridMode);
      } else {
        ats.SetText(GridText);
        ats.Add(GridMode);
        ats.Remove(BessMode);
      }
    }

    method UpdateBattery(now: Timestamp)
      requires Valid()
      modifies battery, batteryStatus
      ensures Snapshot() == BatteryStep(old(Snapshot()), now)
    {
      var peak := IsPeakHours(now);
      battery.Tick(peak);
      if peak {
        batteryStatus.SetText(DischargingLabel);
      } else {
        batteryStatus.SetText(ChargingLabel);
      }
    }

    method UpdateFlowRate()
      requires Valid()
      modifies buzzer
      ensures Snapshot() == BuzzerStep(old(Snapshot()), flowRateLps)
    {
      if flowRateLps > 5.0 {
        buzzer.SetText(AlertText);
        buzzer.Add(AlertClass);
        buzzer.Remove(SafeClass);
      } else {
        buzzer.SetText(SafeText);
        buzzer.Add(SafeClass);
        buzzer.Remove(AlertClass);
      }
    }

    /** One tick; `now` is the clock reading it takes once and shares. */
    method UpdateAll(now: Timestamp)
      requires Valid()
      modifies ats, batteryStatus, buzzer, battery
      ensures Snapshot() == Tick(old(Snapshot()), now, flowRateLps)
      ensures InRange(old(battery.level)) ==> Consistent(Snapshot(), flowRateLps)
    {
      UpdateATSStatus(now);
      UpdateBattery(now);
      UpdateFlowRate();
      if InRange(old(battery.level)) {
        TickConsistent(old(Snapshot()), now, flowRateLps);
      }
    }

    /** The tick at load followed by the timer's ticks, one per clock reading. */
    method Run(times: seq<Timestamp>)
      requires Valid()
      modifies ats, batteryStatus, buzzer, battery
      ensures Snapshot() == RunTicks(old(Snapshot()), times, flowRateLps)
    {
      var i := 0;
      while i < |times|
        invariant 0 <= i <= |times|
        invariant RunTicks(Snapshot(), times[i..], flowRateLps) == RunTicks(old(Snapshot()), times, flowRateLps)
      {
        assert times[i..][1..] == times[i + 1..];
        UpdateAll(times[i]);
        i := i + 1;
      }
    }
  }
}
