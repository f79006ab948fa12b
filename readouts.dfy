/** The static readouts of the dashboard (track.js, lines 16-28 and
    updateFlowRate): motor speed from the supply frequency and pole count, the
    flow rate through a pipe, and the buzzer that signals a flow rate above
    the limit. */
module Readouts {
  import opened ClassList

  /** Supply frequency, Hz. */
  const Frequency: real := 50.0
  const Poles: real := 5.0
  /** Motor speed, revolutions per minute. */
  const Rpm: real := (120.0 * Frequency) / Poles

  /** Pipe diameter, cm. */
  const DiameterCm: real := 5.0
  /** Flow velocity, m/s. */
  const Velocity: real := 10.0
  /** Alarm threshold, litres per second. */
  const FlowLimitLps: real := 5.0

  const AlertClass: string := "buzzer-status-alert"
  const SafeClass: string := "buzzer-status-safe"
  const AlertText: string := "\U{1F6A8} Flow Limit Exceeded!"
  const SafeText: string := "SAFE"

  /** The motor speed readout for 50 Hz and 5 poles is exactly 1200 RPM. */
  lemma RpmValue()
    ensures Rpm == 1200.0
    ensures Rpm * Poles == 120.0 * Frequency
  {
  }

  /** Flow rate in litres per second, for a given value of the circle constant
      (the program uses its floating-point approximation). */
  function FlowRateLps(pi: real): real
  {
    var radiusM := (DiameterCm / 100.0) / 2.0;
    var area := pi * radiusM * radiusM;
    var flowRateM3s := area * Velocity;
    flowRateM3s * 1000.0
  }

  /** The alarm rule: strictly above the limit. */
  predicate IsFlowAlert(flowLps: real)
  {
    flowLps > FlowLimitLps
  }

  /** For any approximation of pi between 3.14 and 3.15 the flow rate is about
      19.63 L/s, so the buzzer is always in the alert state. */
  lemma FlowRateRaisesAlert(pi: real)
    requires 3.14 <= pi <= 3.15
    ensures 19.625 <= FlowRateLps(pi) <= 19.6875
    ensures IsFlowAlert(FlowRateLps(pi))
  {
  }

  /** The buzzer's classes after one update: add the active state, remove the other. */
  function BuzzerClasses(classes: set<string>, alert: bool): set<string>
  {
    if alert then Select(classes, AlertClass, SafeClass) else Select(classes, SafeClass, AlertClass)
  }

  /** The buzzer's text after one update. */
  function BuzzerText(alert: bool): string
  {
    if alert then AlertText else SafeText
  }

  /** After an update exactly one buzzer class is present, the alert class
      exactly when the flow exceeds 5 L/s, the text agrees with the class, and
      no other class changed. */
  lemma BuzzerExactlyOne(classes: set<string>, flowLps: real)
    ensures AlertClass in BuzzerClasses(classes, IsFlowAlert(flowLps)) <==> flowLps > 5.0
    ensures SafeClass in BuzzerClasses(classes, IsFlowAlert(flowLps)) <==> flowLps <= 5.0
    ensures BuzzerText(IsFlowAlert(flowLps)) == AlertText <==> flowLps > 5.0
    ensures forall c :: c != AlertClass && c != SafeClass ==>
              (c in BuzzerClasses(classes, IsFlowAlert(flowLps)) <==> c in classes)
  {
    assert AlertText[0] != SafeText[0];
  }
}
