/**
 The thermal policy: thresholds, the hysteresis step taken on a telemetry
 reading, capacity and admission.  Temperatures and times are reals; a reading
 may carry one of the non-finite floating-point values.
 */
module ThermalPolicy {
  import opened Common

  datatype State = Normal | Warm | Hot | VeryHot | Critical | TelemetryDegraded

  datatype Celsius = Finite(degrees: real) | NotANumber | PlusInfinity | MinusInfinity
  {
    // Floating-point comparison with a finite threshold.
    predicate AtLeast(threshold: real) {
      match this
      case Finite(d) => d >= threshold
      case PlusInfinity => true
      case NotANumber => false
      case MinusInfinity => false
    }

    // Floating-point `>`: false whenever either side is not a number.
    predicate Above(other: Celsius) {
      match (this, other)
      case (NotANumber, _) => false
      case (_, NotANumber) => false
      case (MinusInfinity, _) => false
      case (_, PlusInfinity) => false
      case (PlusInfinity, _) => true
      case (_, MinusInfinity) => true
      case (Finite(a), Finite(b)) => a > b
    }
  }

  const MIN_CREDIBLE := -20.0
  const MAX_CREDIBLE := 125.0

  datatype Config = Config(
    enabled: bool,
    sensorId: Option<string>,
    warm: real, hot: real, veryHot: real, critical: real,
    warmRecovery: real, hotRecovery: real, veryHotRecovery: real,
    staleSeconds: real,
    minimumDwell: real,
    recoveryStep: real,
    recoveryCount: int,
    heavyConcurrency: int,
    backgroundConcurrency: int)
  {
    // What the configuration record accepts on construction.
    predicate Valid() {
      && MIN_CREDIBLE < warm < hot < veryHot < critical <= MAX_CREDIBLE
      && MIN_CREDIBLE < warmRecovery < hotRecovery < veryHotRecovery
      && warmRecovery < warm && hotRecovery < hot && veryHotRecovery < veryHot
      && staleSeconds > 0.0
      && minimumDwell >= 0.0 && recoveryStep >= 0.0
      && recoveryCount >= 1
      && heavyConcurrency >= 1 && backgroundConcurrency >= 1
    }

    // The dwell that matters: both clocks are set together on every transition.
    function EffectiveDwell(): real {
      if minimumDwell >= recoveryStep then minimumDwell else recoveryStep
    }
  }

  const DEFAULT := Config(true, None, 75.0, 80.0, 83.0, 85.0, 72.0, 76.0, 79.0, 15.0, 30.0, 30.0, 3, 2, 1)

  datatype Reading = Reading(sensorId: string, celsius: Celsius, observed: real)

  datatype Transition = Transition(
    previous: State, next: State, celsius: Option<Celsius>, sensorId: Option<string>,
    age: Option<real>, reason: string)

  datatype Machine = Machine(
    state: State,
    entered: real,
    lastRecovery: real,
    reading: Option<Reading>,
    reason: string,
    recoveryReadings: nat,
    transitions: seq<Transition>,
    lastObservation: Option<(string, real)>,
    selected: Option<string>)

  function Initial(c: Config, now: real): Machine {
    Machine(
      if c.enabled then TelemetryDegraded else Normal, now, now, None,
      if c.enabled then "awaiting_fresh_telemetry" else "thermal_throttling_disabled",
      0, [], None, c.sensorId)
  }

  function Severity(s: State): nat
    requires s != TelemetryDegraded
  {
    match s
    case Normal => 0
    case Warm => 1
    case Hot => 2
    case VeryHot => 3
    case Critical => 4
  }

  function StateName(s: State): string {
    match s
    case Normal => "normal"
    case Warm => "warm"
    case Hot => "hot"
    case VeryHot => "very_hot"
    case Critical => "critical"
    case TelemetryDegraded => "telemetry_degraded"
  }

  // Why a reading cannot be used at time `now`, if it cannot.
  function InvalidReason(c: Config, selected: Option<string>, reading: Option<Reading>, now: real): Option<string> {
    if reading.None? then Some("thermal_telemetry_unavailable")
    else
      var r := reading.value;
      if r.sensorId == "" then Some("thermal_sensor_missing")
      else if selected.Some? && r.sensorId != selected.value then Some("thermal_sensor_identity_changed")
      else if !r.celsius.Finite? || !(MIN_CREDIBLE <= r.celsius.degrees <= MAX_CREDIBLE) then
        Some("thermal_reading_invalid")
      else if now - r.observed < 0.0 then Some("thermal_clock_invalid")
      else if now - r.observed > c.staleSeconds then Some("thermal_telemetry_stale")
      else None
  }

  function EntryState(c: Config, degrees: real): State {
    if degrees >= c.critical then Critical
    else if degrees >= c.veryHot then VeryHot
    else if degrees >= c.hot then Hot
    else if degrees >= c.warm then Warm
    else Normal
  }

  function Age(m: Machine, now: real): Option<real> {
    if m.reading.None? then None
    else
      var age := now - m.reading.value.observed;
      Some(if age > 0.0 then age else 0.0)
  }

  function Enter(m: Machine, s: State, reason: string, now: real): Machine {
    if s == m.state then m.(reason := reason)
    else
      m.(state := s, reason := reason, entered := now, lastRecovery := now, recoveryReadings := 0,
         transitions := m.transitions + [
           Transition(m.state, s,
                      if m.reading.Some? then Some(m.reading.value.celsius) else None,
                      if m.reading.Some? then Some(m.reading.value.sensorId) else m.selected,
                      Age(m, now), reason)])
  }

  predicate RecoveryReady(c: Config, m: Machine, now: real) {
    && m.recoveryReadings >= c.recoveryCount
    && now - m.entered >= c.minimumDwell
    && now - m.lastRecovery >= c.recoveryStep
  }

  // The threshold to fall below, and the state then entered.
  function RecoveryTarget(c: Config, s: State): Option<(real, State)> {
    match s
    case Critical => Some((c.veryHotRecovery, VeryHot))
    case VeryHot => Some((c.veryHotRecovery, Hot))
    case Hot => Some((c.hotRecovery, Warm))
    case Warm => Some((c.warmRecovery, Normal))
    case _ => None
  }

  function RecoverOneStep(c: Config, m: Machine, degrees: real, now: real): Machine {
    match RecoveryTarget(c, m.state)
    case None => m.(recoveryReadings := 0)
    case Some((threshold, target)) =>
      if degrees >= threshold then m.(recoveryReadings := 0)
      else
        var counted := m.(recoveryReadings := m.recoveryReadings + 1);
        if RecoveryReady(c, counted, now)
        then Enter(counted, target, "recovered_below_" + StateName(m.state) + "_threshold", now)
        else counted
  }

  function RecoverFromDegraded(c: Config, m: Machine, target: State, now: real): Machine {
    var counted := m.(recoveryReadings := m.recoveryReadings + 1);
    if target == VeryHot || target == Hot then Enter(counted, target, StateName(target) + "_threshold_exceeded", now)
    else if RecoveryReady(c, counted, now) then Enter(counted, target, "fresh_telemetry_restored", now)
    else counted
  }

  // A usable, new reading has arrived and is about to be judged.
  function Absorb(m: Machine, r: Reading): Machine {
    m.(reading := Some(r), lastObservation := Some((r.sensorId, r.observed)),
       selected := if m.selected.None? then Some(r.sensorId) else m.selected)
  }

  function Judge(c: Config, m: Machine, degrees: real, now: real): Machine {
    var target := EntryState(c, degrees);
    if target == Critical then
      Enter(m.(recoveryReadings := 0), Critical, "critical_threshold_exceeded", now)
    else if m.state == TelemetryDegraded then RecoverFromDegraded(c, m, target, now)
    else if Severity(target) > Severity(m.state) then
      Enter(m.(recoveryReadings := 0), target, StateName(target) + "_threshold_exceeded", now)
    else RecoverOneStep(c, m, degrees, now)
  }

  // A reading is accepted when it is usable and was not already observed.
  predicate Accepts(c: Config, m: Machine, reading: Option<Reading>, now: real) {
    && c.enabled
    && InvalidReason(c, m.selected, reading, now).None?
    && m.lastObservation != Some((reading.value.sensorId, reading.value.observed))
  }

  function Update(c: Config, m: Machine, reading: Option<Reading>, now: real): Machine {
    if !c.enabled then m.(state := Normal, reason := "thermal_throttling_disabled")
    else
      var invalid := InvalidReason(c, m.selected, reading, now);
      if invalid.Some? then
        Enter(m.(reading := reading, recoveryReadings := 0), TelemetryDegraded, invalid.value, now)
      else if !Accepts(c, m, reading, now) then m
      else Judge(c, Absorb(m, reading.value), reading.value.celsius.degrees, now)
  }

  function Refresh(c: Config, m: Machine, now: real): Machine {
    if InvalidReason(c, m.selected, m.reading, now).Some? then Update(c, m, None, now) else m
  }

  // ----- Capacity and admission -----

  datatype Capacity = Capacity(heavy: int, modelLoad: int, background: int)

  function CapacityFor(c: Config, s: State): Capacity {
    if !c.enabled || s == Normal then Capacity(c.heavyConcurrency, 1, c.backgroundConcurrency)
    else match s
      case Warm => Capacity(c.heavyConcurrency, 1, 0)
      case Hot => Capacity(1, 0, 0)
      case TelemetryDegraded => Capacity(1, 0, 0)
      case _ => Capacity(0, 0, 0)
  }

  datatype Workload = LightControl | Interactive | Background | Benchmark | ModelLoad | HeavyInference

  datatype Action = Allow | AllowDegraded | Queue | Pause | RejectRetryable | Cancel

  // `active` is the number of heavy workloads in flight, None when it is not known.
  function Outcome(c: Config, w: Workload, automatic: bool, s: State, active: Option<int>): Action {
    if !c.enabled then Allow
    else if w.LightControl? then Allow
    else if s.Critical? then Cancel
    else if w.Background? || w.Benchmark? then
      if s.Normal? then Allow else Pause
    else if w.ModelLoad? then
      if s.Warm? && (active.None? || active.value > 0) then RejectRetryable
      else if s.Hot? || s.VeryHot? || s.TelemetryDegraded? then RejectRetryable
      else Allow
    else if s.TelemetryDegraded? then
      if w.Interactive? && !automatic then AllowDegraded else RejectRetryable
    else if s.VeryHot? then
      if w.Interactive? && !automatic then RejectRetryable else Pause
    else if s.Hot? then
      if w.Interactive? then AllowDegraded else Queue
    else if s.Warm? && w.Interactive? then AllowDegraded
    else Allow
  }

  predicate Admitted(a: Action) {
    a.Allow? || a.AllowDegraded?
  }

  /** Admission never lets in a class of work for which the published capacity is
      zero, and background work is let in exactly when its capacity is not zero. */
  lemma AdmissionAgreesWithCapacity(c: Config, automatic: bool, s: State, active: Option<int>)
    requires c.Valid()
    ensures Admitted(Outcome(c, Background, automatic, s, active)) <==> CapacityFor(c, s).background > 0
    ensures Admitted(Outcome(c, Benchmark, automatic, s, active)) <==> CapacityFor(c, s).background > 0
    ensures Admitted(Outcome(c, ModelLoad, automatic, s, active)) ==> CapacityFor(c, s).modelLoad > 0
    ensures active == Some(0) ==>
      (Admitted(Outcome(c, ModelLoad, automatic, s, active)) <==> CapacityFor(c, s).modelLoad > 0)
    ensures Admitted(Outcome(c, HeavyInference, automatic, s, active)) ==> CapacityFor(c, s).heavy > 0
    ensures Admitted(Outcome(c, Interactive, automatic, s, active)) ==> CapacityFor(c, s).heavy > 0
  {
  }

  /** Heating up never opens a door: a workload admitted in a more severe state is
      admitted, and not more degraded, in every less severe one, and no capacity grows. */
  lemma SeverityIsMonotone(c: Config, w: Workload, automatic: bool, cooler: State, hotter: State, active: Option<int>)
    requires c.Valid()
    requires cooler != TelemetryDegraded && hotter != TelemetryDegraded
    requires Severity(cooler) <= Severity(hotter)
    ensures Admitted(Outcome(c, w, automatic, hotter, active)) ==> Admitted(Outcome(c, w, automatic, cooler, active))
    ensures Outcome(c, w, automatic, hotter, active) == Allow ==> Outcome(c, w, automatic, cooler, active) == Allow
    ensures CapacityFor(c, cooler).heavy >= CapacityFor(c, hotter).heavy
    ensures CapacityFor(c, cooler).modelLoad >= CapacityFor(c, hotter).modelLoad
    ensures CapacityFor(c, cooler).background >= CapacityFor(c, hotter).background
  {
  }
}
