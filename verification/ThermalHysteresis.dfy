/**
 The thermal policy in the configuration's own numbers: which readings count, exactly when
 the state rises and falls, what it takes to leave telemetry loss, and which work each
 state lets in.
 */
module ThermalHysteresis {
  import opened Common
  import opened ThermalPolicy
  import opened ThermalRuns

  // ----- Which readings count -----

  /** A reading is accepted exactly when it names the selected sensor (any sensor while none
      is selected), carries a credible finite number, is neither from the future nor stale,
      and was not observed before.  An unusable one loses telemetry and the count, a
      repeated one changes nothing, and a disabled machine is NORMAL. */
  lemma AcceptedExactly(c: Config, m: Machine, reading: Option<Reading>, now: real)
    ensures
      var usable := reading.Some? && var r := reading.value;
        && r.sensorId != "" && (m.selected.None? || m.selected == Some(r.sensorId))
        && r.celsius.Finite? && -20.0 <= r.celsius.degrees <= 125.0
        && 0.0 <= now - r.observed <= c.staleSeconds;
      var repeated := reading.Some? && m.lastObservation == Some((reading.value.sensorId, reading.value.observed));
      var n := Update(c, m, reading, now);
      && (Accepts(c, m, reading, now) <==> c.enabled && usable && !repeated)
      && (!c.enabled ==> n.state == Normal && n.transitions == m.transitions)
      && (c.enabled && usable && repeated ==> n == m)
      && (c.enabled && !usable ==>
            n.state == TelemetryDegraded && n.recoveryReadings == 0 && n.reading == reading
            && n.selected == m.selected && n.lastObservation == m.lastObservation)
  {
    hide Age;
  }

  /** Why a reading is not usable: the first thing wrong with it, in this order. */
  lemma InvalidExactly(c: Config, selected: Option<string>, reading: Option<Reading>, now: real)
    ensures
      var reason := InvalidReason(c, selected, reading, now);
      if reading.None? then reason == Some("thermal_telemetry_unavailable")
      else
        var r := reading.value;
        var named := r.sensorId != "";
        var same := named && (selected.None? || selected == Some(r.sensorId));
        var credible := same && r.celsius.Finite? && -20.0 <= r.celsius.degrees <= 125.0;
        && (reason == Some("thermal_sensor_missing") <==> !named)
        && (reason == Some("thermal_sensor_identity_changed") <==> named && !same)
        && (reason == Some("thermal_reading_invalid") <==> same && !credible)
        && (reason == Some("thermal_clock_invalid") <==> credible && r.observed > now)
        && (reason == Some("thermal_telemetry_stale") <==>
              credible && r.observed <= now && now - r.observed > c.staleSeconds)
        && (reason == None <==> credible && 0.0 <= now - r.observed <= c.staleSeconds)
  {
  }

  // If the state changed, the log has one more entry, which tells what changed it.
  ghost predicate Logs(m: Machine, n: Machine, reading: Option<Reading>, selected: Option<string>, now: real) {
    n.state != m.state ==>
      && n.transitions != [] && n.transitions == m.transitions + [Last(n.transitions)]
      && var entry := Last(n.transitions);
         && entry.previous == m.state && entry.next == n.state && entry.reason == n.reason
         && (reading.Some? ==>
               && entry.celsius == Some(reading.value.celsius) && entry.sensorId == Some(reading.value.sensorId)
               && (reading.value.observed <= now ==> entry.age == Some(now - reading.value.observed)))
         && (reading.None? ==> entry.celsius == None && entry.age == None && entry.sensorId == selected)
  }

  lemma EnterLogs(m: Machine, s: State, reason: string, now: real)
    ensures Logs(m, Enter(m, s, reason, now), m.reading, m.selected, now)
  {
  }

  lemma JudgeLogs(c: Config, m: Machine, degrees: real, now: real)
    ensures Logs(m, Judge(c, m, degrees, now), m.reading, m.selected, now)
  {
    hide StateName, RecoveryReady;
  }

  /** A change of state logs the reading that caused it, with its age, and why; so does one
      caused by a reading that cannot be used, or by none. */
  lemma ChangesAreLogged(c: Config, m: Machine, reading: Option<Reading>, now: real)
    requires c.enabled
    ensures Logs(m, Update(c, m, reading, now), reading, m.selected, now)
  {
    hide Judge, Enter, Age;
    var invalid := InvalidReason(c, m.selected, reading, now);
    if invalid.Some? {
      EnterLogs(m.(reading := reading, recoveryReadings := 0), TelemetryDegraded, invalid.value, now);
    } else {
      JudgeLogs(c, Absorb(m, reading.value), reading.value.celsius.degrees, now);
    }
  }

  // ----- Rising and falling -----

  // The count and both waits that a step down needs, this reading included.
  predicate Ripe(c: Config, m: Machine, now: real) {
    && m.recoveryReadings + 1 >= c.recoveryCount
    && now - m.entered >= c.minimumDwell && now - m.lastRecovery >= c.recoveryStep
  }

  /** Hysteresis.  Away from telemetry loss an accepted reading raises the state at once to
      the highest level whose threshold it reaches, if that is higher.  Otherwise it counts
      exactly if it is below the recovery limit of the current state, and then lowers the
      state by one level exactly if the count and both waits are met; a reading at or above
      the limit starts the count again. */
  lemma RisesAndFallsExactly(c: Config, m: Machine, r: Reading, now: real)
    requires c.Valid() && Accepts(c, m, Some(r), now) && m.state != TelemetryDegraded
    ensures
      var n, degrees := Update(c, m, Some(r), now), r.celsius.degrees;
      n.state != TelemetryDegraded
      && (Severity(n.state) > Severity(m.state) <==>
            || (degrees >= c.critical && m.state != Critical)
            || (degrees >= c.veryHot && (m.state == Normal || m.state == Warm || m.state == Hot))
            || (degrees >= c.hot && (m.state == Normal || m.state == Warm))
            || (degrees >= c.warm && m.state == Normal))
      && (Severity(n.state) > Severity(m.state) ==>
            && (n.state == Critical <==> degrees >= c.critical)
            && (n.state == VeryHot <==> c.veryHot <= degrees < c.critical)
            && (n.state == Hot <==> c.hot <= degrees < c.veryHot)
            && (n.state == Warm <==> c.warm <= degrees < c.hot))
    ensures
      var n, degrees := Update(c, m, Some(r), now), r.celsius.degrees;
      && (n.state == Warm && m.state == Hot <==> m.state == Hot && degrees < c.hotRecovery && Ripe(c, m, now))
      && (n.state == Normal && m.state == Warm <==> m.state == Warm && degrees < c.warmRecovery && Ripe(c, m, now))
      && (n.state == Hot && m.state == VeryHot <==>
            m.state == VeryHot && degrees < c.veryHotRecovery && Ripe(c, m, now))
      && (n.state == VeryHot && m.state == Critical <==>
            m.state == Critical && degrees < c.veryHotRecovery && Ripe(c, m, now))
      && (Severity(n.state) < Severity(m.state) ==> Severity(n.state) + 1 == Severity(m.state))
    ensures
      var n, degrees := Update(c, m, Some(r), now), r.celsius.degrees;
      var cool := match m.state
        case Warm => degrees < c.warmRecovery
        case Hot => degrees < c.hotRecovery
        case VeryHot => degrees < c.veryHotRecovery
        case Critical => degrees < c.veryHotRecovery
        case _ => false;
      && n.recoveryReadings == (if n.state == m.state && cool then m.recoveryReadings + 1 else 0)
      && n.entered == (if n.state == m.state then m.entered else now)
      && n.lastRecovery == (if n.state == m.state then m.lastRecovery else now)
  {
    hide Age, StateName, InvalidReason;
  }

  /** Leaving telemetry loss: a reading from the hot threshold on is believed at once, a
      cooler one only when the count and both waits are met. */
  lemma LeavesLossExactly(c: Config, m: Machine, r: Reading, now: real)
    requires c.Valid() && Accepts(c, m, Some(r), now) && m.state == TelemetryDegraded
    ensures
      var n, degrees := Update(c, m, Some(r), now), r.celsius.degrees;
      && (n.state == Critical <==> degrees >= c.critical)
      && (n.state == VeryHot <==> c.veryHot <= degrees < c.critical)
      && (n.state == Hot <==> c.hot <= degrees < c.veryHot)
      && (n.state == Warm <==> c.warm <= degrees < c.hot && Ripe(c, m, now))
      && (n.state == Normal <==> degrees < c.warm && Ripe(c, m, now))
      && n.recoveryReadings == (if n.state == TelemetryDegraded then m.recoveryReadings + 1 else 0)
  {
    hide Age, StateName, InvalidReason;
  }

  // ----- Over runs -----

  // The limit below which a reading must be for this state to be left downwards.
  function RecoveryLimit(c: Config, s: State): real {
    match s
    case Warm => c.warmRecovery
    case Hot => c.hotRecovery
    case _ => c.veryHotRecovery
  }

  // Every reading accepted since the first `n0` was at or above the limit.
  ghost predicate NoneBelow(accepted: seq<Reading>, n0: nat, limit: real) {
    forall k :: n0 <= k < |accepted| && accepted[k].celsius.Finite? ==> accepted[k].celsius.degrees >= limit
  }

  lemma StepStaysAbove(c: Config, h: History, e: Event, floor: State)
    requires c.Valid() && c.enabled
    requires h.machine.state != TelemetryDegraded && Step(c, h, e).machine.state != TelemetryDegraded
    requires floor.Warm? || floor.Hot? || floor.VeryHot? || floor.Critical?
    requires Severity(h.machine.state) >= Severity(floor)
    requires NoneBelow(Step(c, h, e).accepted, |h.accepted|, RecoveryLimit(c, floor))
    ensures Severity(Step(c, h, e).machine.state) >= Severity(floor)
  {
    hide Update, InvalidReason;
    if e.Telemetry? {
      AcceptedExactly(c, h.machine, e.reading, e.at);
      if Accepts(c, h.machine, e.reading, e.at) {
        assert Step(c, h, e).accepted[|h.accepted|] == e.reading.value;
        RisesAndFallsExactly(c, h.machine, e.reading.value, e.at);
      }
    } else {
      AcceptedExactly(c, h.machine, None, e.at);
    }
  }

  /** No cooling, no recovery: over any run that does not lose telemetry, a machine at some
      level or above stays there while no accepted reading is below that level's recovery
      limit.  In particular one at WARM or above is never NORMAL again before a reading
      below the warm recovery limit. */
  lemma {:induction false} StaysUntilCooledBelowTheLimit(c: Config, h: History, events: seq<Event>, floor: State)
    requires c.Valid() && c.enabled && NeverDegraded(c, h, events)
    requires floor.Warm? || floor.Hot? || floor.VeryHot? || floor.Critical?
    requires h.machine.state != TelemetryDegraded && Severity(h.machine.state) >= Severity(floor)
    requires NoneBelow(Run(c, h, events).accepted, |h.accepted|, RecoveryLimit(c, floor))
    ensures h.accepted <= Run(c, h, events).accepted
    ensures Run(c, h, events).machine.state != TelemetryDegraded
    ensures Severity(Run(c, h, events).machine.state) >= Severity(floor)
  {
    hide Update, NeverDegraded, Accepts;
    if events != [] {
      var init := events[..|events| - 1];
      var before, after := Run(c, h, init), Run(c, h, events);
      NeverDegradedPrefix(c, h, events);
      assert before.accepted <= after.accepted;
      assert NoneBelow(before.accepted, |h.accepted|, RecoveryLimit(c, floor)) by {
        assert forall k :: 0 <= k < |before.accepted| ==> before.accepted[k] == after.accepted[k];
      }
      StaysUntilCooledBelowTheLimit(c, h, init, floor);
      StepStaysAbove(c, before, Last(events), floor);
    }
  }

  // ----- Which work is let in -----

  /** The doors of an enabled machine: light control always; background and benchmarks in
      NORMAL alone; a model load in NORMAL, or in WARM when no heavy work is known to run;
      heavy inference in NORMAL and WARM; interactive work up to HOT, and without telemetry
      if a person asked for it.  CRITICAL cancels everything but light control, and only
      interactive work above NORMAL is let in degraded. */
  lemma AdmittedExactly(c: Config, automatic: bool, s: State, active: Option<int>)
    requires c.enabled
    ensures Outcome(c, LightControl, automatic, s, active) == Allow
    ensures Admitted(Outcome(c, Background, automatic, s, active)) <==> s == Normal
    ensures Admitted(Outcome(c, Benchmark, automatic, s, active)) <==> s == Normal
    ensures Admitted(Outcome(c, ModelLoad, automatic, s, active)) <==>
      s == Normal || (s == Warm && active.Some? && active.value <= 0)
    ensures Admitted(Outcome(c, HeavyInference, automatic, s, active)) <==> s == Normal || s == Warm
    ensures Admitted(Outcome(c, Interactive, automatic, s, active)) <==>
      s == Normal || s == Warm || s == Hot || (s == TelemetryDegraded && !automatic)
    ensures forall w: Workload :: !w.LightControl? ==>
      (Outcome(c, w, automatic, s, active) == Cancel <==> s == Critical)
    ensures forall w: Workload ::
      Outcome(c, w, automatic, s, active) == AllowDegraded <==>
        w == Interactive && (s == Warm || s == Hot || (s == TelemetryDegraded && !automatic))
    // Otherwise background work pauses, heavy inference queues in HOT and pauses in
    // VERY_HOT, and what is left may be tried again.
    ensures forall w: Workload ::
      Outcome(c, w, automatic, s, active) == Queue <==> w == HeavyInference && s == Hot
    ensures forall w: Workload ::
      Outcome(c, w, automatic, s, active) == Pause <==>
        || ((w == Background || w == Benchmark) && s != Normal && s != Critical)
        || (s == VeryHot && (w == HeavyInference || (w == Interactive && automatic)))
  {
  }

  /** The published capacity: what is configured for heavy work up to WARM, one without
      telemetry and in HOT, none above; one model load up to WARM; background work as
      configured in NORMAL alone. */
  lemma CapacityExactly(c: Config, s: State)
    requires c.enabled
    ensures CapacityFor(c, s).heavy ==
      if s == Normal || s == Warm then c.heavyConcurrency else if s == Hot || s == TelemetryDegraded then 1 else 0
    ensures CapacityFor(c, s).modelLoad == if s == Normal || s == Warm then 1 else 0
    ensures CapacityFor(c, s).background == if s == Normal then c.backgroundConcurrency else 0
  {
  }
}
