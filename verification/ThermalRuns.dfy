/**
 What holds over whole runs of the thermal state machine: no under-reaction, no
 over-reaction, a connected transition log, and a lower bound on cool-down.

 A run is a sequence of telemetry updates and freshness checks.  The history
 keeps, beside the machine, every reading the machine accepted.
 */
module ThermalRuns {
  import opened Common
  import opened ThermalPolicy

  datatype Event = Telemetry(reading: Option<Reading>, at: real) | Freshness(at: real)

  datatype History = History(machine: Machine, accepted: seq<Reading>)

  function Step(c: Config, h: History, e: Event): History {
    match e
    case Telemetry(reading, at) =>
      History(Update(c, h.machine, reading, at),
              if Accepts(c, h.machine, reading, at) then h.accepted + [reading.value] else h.accepted)
    case Freshness(at) => History(Refresh(c, h.machine, at), h.accepted)
  }

  function Run(c: Config, h: History, events: seq<Event>): History {
    if events == [] then h else Step(c, Run(c, h, events[..|events| - 1]), Last(events))
  }

  // The clock never goes backwards during the run, nor below `from`.
  predicate ClockFrom(events: seq<Event>, from: real) {
    && (|events| > 0 ==> events[0].at >= from)
    && forall i :: 0 < i < |events| ==> events[i - 1].at <= events[i].at
  }

  function Ended(events: seq<Event>, from: real): real {
    if events == [] then from else Last(events).at
  }

  // ----- No under-reaction, no over-reaction -----

  // The entry band of an accepted reading.
  function Band(c: Config, r: Reading): nat {
    if r.celsius.Finite? then Severity(EntryState(c, r.celsius.degrees)) else 0
  }

  ghost predicate Sound(c: Config, h: History) {
    var m := h.machine;
    && c.enabled
    && m.lastRecovery == m.entered
    && (forall r :: r in h.accepted ==>
          m.selected == Some(r.sensorId) && r.sensorId != "" && r.celsius.Finite?
          && MIN_CREDIBLE <= r.celsius.degrees <= MAX_CREDIBLE)
    && (m.state != TelemetryDegraded ==>
          && |h.accepted| > 0
          && m.reading == Some(Last(h.accepted))
          && Band(c, Last(h.accepted)) <= Severity(m.state)
          && exists r :: r in h.accepted && Severity(m.state) <= Band(c, r))
  }

  // The heart of the argument: one accepted reading, judged.
  lemma JudgedBetween(c: Config, m: Machine, r: Reading, now: real)
    requires c.Valid() && Accepts(c, m, Some(r), now)
    ensures
      var n := Update(c, m, Some(r), now);
      && n.reading == Some(r) && (m.lastRecovery == m.entered ==> n.lastRecovery == n.entered)
      && n.selected == (if m.selected.None? then Some(r.sensorId) else m.selected)
      && (n.state != TelemetryDegraded ==>
            && Band(c, r) <= Severity(n.state)
            && (Severity(n.state) <= Band(c, r)
                || (m.state != TelemetryDegraded && Severity(n.state) <= Severity(m.state))))
  {
    hide Age, RecoveryReady, StateName;
  }

  lemma JudgeIsSound(c: Config, h: History, r: Reading, now: real)
    requires c.Valid() && Sound(c, h)
    requires Accepts(c, h.machine, Some(r), now)
    ensures Sound(c, History(Update(c, h.machine, Some(r), now), h.accepted + [r]))
  {
    hide Update, Band;
    var m := Update(c, h.machine, Some(r), now);
    var accepted := h.accepted + [r];
    JudgedBetween(c, h.machine, r, now);
    assert Last(accepted) == r;
    if m.state != TelemetryDegraded {
      if Severity(m.state) <= Band(c, r) {
        assert r in accepted;
      } else {
        var earlier :| earlier in h.accepted && Severity(h.machine.state) <= Band(c, earlier);
        assert earlier in accepted;
      }
    }
  }

  lemma StepIsSound(c: Config, h: History, e: Event)
    requires c.Valid() && Sound(c, h)
    ensures Sound(c, Step(c, h, e))
  {
    if e.Telemetry? && Accepts(c, h.machine, e.reading, e.at) {
      JudgeIsSound(c, h, e.reading.value, e.at);
    }
  }

  /** In every run of the enabled machine, whatever telemetry arrives and however the
      clock behaves, a state other than telemetry-degraded is at least as severe as the
      entry band of the last accepted reading, and is no more severe than the band of
      some accepted reading; all accepted readings come from one credible sensor. */
  lemma {:induction false} EveryRunIsSound(c: Config, start: real, events: seq<Event>)
    requires c.Valid() && c.enabled
    ensures Sound(c, Run(c, History(Initial(c, start), []), events))
  {
    if events != [] {
      EveryRunIsSound(c, start, events[..|events| - 1]);
      StepIsSound(c, Run(c, History(Initial(c, start), []), events[..|events| - 1]), Last(events));
    }
  }

  // The temperature every admitted workload of this class must have been below.
  function AdmissionCeiling(c: Config, w: Workload): real
    requires !w.LightControl? && !w.Interactive?
  {
    if w.Background? || w.Benchmark? then c.warm else c.hot
  }

  /** End to end: run the machine on anything, then refresh it.  Background and
      benchmark work is admitted only on a fresh, credible reading of the selected
      sensor below the warm threshold; model loads and heavy inference only on such a
      reading below the hot threshold; and an interactive request is let in
      undegraded only below the warm threshold. */
  lemma AdmissionNeedsACoolFreshReading(
      c: Config, start: real, events: seq<Event>, now: real, w: Workload, automatic: bool, active: Option<int>)
    requires c.Valid() && c.enabled && !w.LightControl?
    ensures
      var h := Run(c, History(Initial(c, start), []), events + [Freshness(now)]);
      var a := Outcome(c, w, automatic, h.machine.state, active);
      if w.Interactive? then
        a == Allow ==>
          |h.accepted| > 0 && Last(h.accepted).celsius.Finite? && Last(h.accepted).celsius.degrees < c.warm
          && 0.0 <= now - Last(h.accepted).observed <= c.staleSeconds
          && h.machine.selected == Some(Last(h.accepted).sensorId)
      else
        Admitted(a) ==>
          |h.accepted| > 0 && Last(h.accepted).celsius.Finite?
          && Last(h.accepted).celsius.degrees < AdmissionCeiling(c, w)
          && 0.0 <= now - Last(h.accepted).observed <= c.staleSeconds
          && h.machine.selected == Some(Last(h.accepted).sensorId)
  {
    var all := events + [Freshness(now)];
    EveryRunIsSound(c, start, all);
    assert all[..|all| - 1] == events;
    var before := Run(c, History(Initial(c, start), []), events);
    var h := Run(c, History(Initial(c, start), []), all);
    assert h == Step(c, before, Freshness(now));
    assert h.machine.state != TelemetryDegraded ==> h.machine == before.machine;
  }

  // ----- The transition log -----

  ghost predicate Connected(from: State, log: seq<Transition>, to: State) {
    && (|log| == 0 ==> from == to)
    && (|log| > 0 ==> log[0].previous == from && Last(log).next == to)
    && (forall i :: 0 < i < |log| ==> log[i - 1].next == log[i].previous)
    && (forall i :: 0 <= i < |log| ==> log[i].previous != log[i].next)
  }

  // An update appends to the log exactly when it changes the state.
  lemma UpdateAppends(c: Config, m: Machine, reading: Option<Reading>, now: real)
    requires c.enabled
    ensures
      var n := Update(c, m, reading, now);
      if n.state == m.state then n.transitions == m.transitions
      else |n.transitions| == |m.transitions| + 1
           && n.transitions == m.transitions + [Last(n.transitions)]
           && Last(n.transitions).previous == m.state && Last(n.transitions).next == n.state
  {
    hide InvalidReason, EntryState, Age, RecoveryReady, StateName;
  }

  lemma UpdateKeepsLog(c: Config, from: State, m: Machine, reading: Option<Reading>, now: real)
    requires c.enabled && Connected(from, m.transitions, m.state)
    ensures
      var n := Update(c, m, reading, now);
      Connected(from, n.transitions, n.state)
  {
    UpdateAppends(c, m, reading, now);
  }

  /** The log of an enabled machine is a path from the initial state to the current
      state that never stays in place. */
  lemma {:induction false} EveryRunLogsAPath(c: Config, start: real, events: seq<Event>)
    requires c.enabled
    ensures
      var m := Run(c, History(Initial(c, start), []), events).machine;
      Connected(TelemetryDegraded, m.transitions, m.state)
  {
    if events != [] {
      EveryRunLogsAPath(c, start, events[..|events| - 1]);
      var m := Run(c, History(Initial(c, start), []), events[..|events| - 1]).machine;
      UpdateKeepsLog(c, TelemetryDegraded, m, None, Last(events).at);
      if Last(events).Telemetry? {
        UpdateKeepsLog(c, TelemetryDegraded, m, Last(events).reading, Last(events).at);
      }
    }
  }

  // ----- Cool-down -----

  // The run has just entered CRITICAL at time `t0`.
  ghost predicate JustCritical(c: Config, h: History, t0: real) {
    && Sound(c, h)
    && h.machine.state == Critical
    && h.machine.entered == t0
    && h.machine.recoveryReadings == 0
  }

  // No prefix of the run ends in the telemetry-degraded state.
  ghost predicate NeverDegraded(c: Config, h: History, events: seq<Event>) {
    forall n :: 0 <= n <= |events| ==> Run(c, h, events[..n]).machine.state != TelemetryDegraded
  }

  // Progress owed by any run since `t0`, having started with `n0` accepted readings.
  ghost predicate Paid(c: Config, h: History, t0: real, n0: nat, now: real) {
    var m := h.machine;
    var d := c.EffectiveDwell();
    && t0 <= m.entered <= now
    && |h.accepted| >= n0
    && (m.state == Normal ==> m.entered - t0 >= d && |h.accepted| - n0 >= c.recoveryCount)
    && (m.state != Normal ==> |h.accepted| - n0 >= m.recoveryReadings)
  }

  // Progress owed by a run that never loses telemetry: one full step per level.
  ghost predicate PaidStepwise(c: Config, h: History, t0: real, n0: nat) {
    var m := h.machine;
    m.state != TelemetryDegraded ==>
      var levels := 4 - Severity(m.state);
      && m.entered - t0 >= (levels as real) * c.EffectiveDwell()
      && |h.accepted| - n0 >= levels * c.recoveryCount + m.recoveryReadings
  }

  lemma StepPays(c: Config, h: History, e: Event, t0: real, n0: nat, now: real)
    requires c.Valid() && Sound(c, h)
    requires Paid(c, h, t0, n0, now) && now <= e.at
    ensures Paid(c, Step(c, h, e), t0, n0, e.at)
  {
    hide Age, StateName, EntryState;
  }

  // Away from telemetry loss a step holds the state, climbs, or comes down one level
  // after a full dwell and a full count of readings.
  ghost predicate Shape(c: Config, h: History, after: History, at: real)
    requires h.machine.state != TelemetryDegraded && after.machine.state != TelemetryDegraded
  {
    var m, n := h.machine, after.machine;
    var more := |after.accepted| - |h.accepted|;
    && 0 <= more <= 1
    && (n.state == m.state ==> n.entered == m.entered && n.recoveryReadings <= m.recoveryReadings + more)
    && (n.state != m.state ==> n.entered == at && n.recoveryReadings == 0)
    && (Severity(n.state) < Severity(m.state) ==>
          && Severity(n.state) + 1 == Severity(m.state)
          && at - m.entered >= c.EffectiveDwell()
          && m.recoveryReadings + more >= c.recoveryCount)
  }

  lemma StepHasShape(c: Config, h: History, e: Event)
    requires c.Valid() && Sound(c, h) && h.machine.state != TelemetryDegraded
    requires Step(c, h, e).machine.state != TelemetryDegraded
    ensures Shape(c, h, Step(c, h, e), e.at)
  {
    hide Age, StateName;
  }

  lemma ShapePaysStepwise(c: Config, h: History, after: History, at: real, t0: real, n0: nat)
    requires c.Valid()
    requires h.machine.state != TelemetryDegraded && after.machine.state != TelemetryDegraded
    requires h.machine.entered <= at
    requires PaidStepwise(c, h, t0, n0) && Shape(c, h, after, at)
    ensures PaidStepwise(c, after, t0, n0)
  {
  }

  lemma {:induction false} EveryRunPays(c: Config, h: History, events: seq<Event>, t0: real)
    requires c.Valid() && JustCritical(c, h, t0) && ClockFrom(events, t0)
    ensures Sound(c, Run(c, h, events))
    ensures Paid(c, Run(c, h, events), t0, |h.accepted|, Ended(events, t0))
  {
    if events != [] {
      var init := events[..|events| - 1];
      EveryRunPays(c, h, init, t0);
      StepIsSound(c, Run(c, h, init), Last(events));
      StepPays(c, Run(c, h, init), Last(events), t0, |h.accepted|, Ended(init, t0));
    }
  }

  lemma NeverDegradedPrefix(c: Config, h: History, events: seq<Event>)
    requires events != [] && NeverDegraded(c, h, events)
    ensures NeverDegraded(c, h, events[..|events| - 1])
    ensures Run(c, h, events[..|events| - 1]).machine.state != TelemetryDegraded
    ensures Run(c, h, events).machine.state != TelemetryDegraded
  {
    var init := events[..|events| - 1];
    forall n | 0 <= n <= |init| ensures Run(c, h, init[..n]).machine.state != TelemetryDegraded {
      assert init[..n] == events[..n];
    }
    assert events[..|init|] == init && events[..|events|] == events;
  }

  lemma {:induction false} EveryRunPaysStepwise(c: Config, h: History, events: seq<Event>, t0: real)
    requires c.Valid() && JustCritical(c, h, t0) && ClockFrom(events, t0) && NeverDegraded(c, h, events)
    ensures PaidStepwise(c, Run(c, h, events), t0, |h.accepted|)
  {
    if events != [] {
      var init := events[..|events| - 1];
      NeverDegradedPrefix(c, h, events);
      EveryRunPays(c, h, init, t0);
      EveryRunPaysStepwise(c, h, init, t0);
      var before, after := Run(c, h, init), Run(c, h, events);
      StepHasShape(c, before, Last(events));
      ShapePaysStepwise(c, before, after, Last(events).at, t0, |h.accepted|);
    }
  }

  /** Cool-down has a price.  Any run that enters CRITICAL at `t0` and is later NORMAL
      has used at least the effective dwell and the configured number of accepted
      readings; if it never passed through telemetry-degraded it has used four times
      both, whatever escalations happened on the way. */
  lemma CoolDownLowerBound(c: Config, h: History, events: seq<Event>, t0: real)
    requires c.Valid() && JustCritical(c, h, t0) && ClockFrom(events, t0)
    requires Run(c, h, events).machine.state == Normal
    ensures Ended(events, t0) - t0 >= c.EffectiveDwell()
    ensures |Run(c, h, events).accepted| - |h.accepted| >= c.recoveryCount
    ensures NeverDegraded(c, h, events) ==>
              && Ended(events, t0) - t0 >= 4.0 * c.EffectiveDwell()
              && |Run(c, h, events).accepted| - |h.accepted| >= 4 * c.recoveryCount
  {
    hide Run, NeverDegraded, JustCritical, ClockFrom, Sound;
    EveryRunPays(c, h, events, t0);
    if NeverDegraded(c, h, events) {
      EveryRunPaysStepwise(c, h, events, t0);
    }
  }

  function Cool(observed: real): Reading {
    Reading("k10temp:tctl", Finite(60.0), observed)
  }

  /** The shortcut is real: with the default configuration, losing telemetry right
      after CRITICAL brings the machine back to NORMAL in one dwell and three
      readings, a quarter of what stepwise recovery costs. */
  lemma DropoutShortensCoolDown()
    ensures
      var hot := History(
        Update(DEFAULT, Initial(DEFAULT, 0.0), Some(Reading("k10temp:tctl", Finite(90.0), 0.0)), 0.0),
        [Reading("k10temp:tctl", Finite(90.0), 0.0)]);
      var events := [Telemetry(None, 0.0), Telemetry(Some(Cool(10.0)), 10.0),
                     Telemetry(Some(Cool(20.0)), 20.0), Telemetry(Some(Cool(30.0)), 30.0)];
      && JustCritical(DEFAULT, hot, 0.0)
      && ClockFrom(events, 0.0)
      && Run(DEFAULT, hot, events).machine.state == Normal
      && Ended(events, 0.0) == DEFAULT.EffectiveDwell()
      && |Run(DEFAULT, hot, events).accepted| - |hot.accepted| == DEFAULT.recoveryCount
  {
    hide Age, StateName;
    var r := Reading("k10temp:tctl", Finite(90.0), 0.0);
    var hot := History(Update(DEFAULT, Initial(DEFAULT, 0.0), Some(r), 0.0), [r]);
    assert r in hot.accepted && Severity(Critical) <= Band(DEFAULT, r);
    var e0, e1, e2, e3 := Telemetry(None, 0.0), Telemetry(Some(Cool(10.0)), 10.0),
                          Telemetry(Some(Cool(20.0)), 20.0), Telemetry(Some(Cool(30.0)), 30.0);
    var events := [e0, e1, e2, e3];
    assert events[..3] == [e0, e1, e2] && [e0, e1, e2][..2] == [e0, e1] && [e0, e1][..1] == [e0] && [e0][..0] == [];
    var h1 := Step(DEFAULT, hot, e0);
    var h2 := Step(DEFAULT, h1, e1);
    var h3 := Step(DEFAULT, h2, e2);
    assert Run(DEFAULT, hot, [e0]) == h1;
    assert Run(DEFAULT, hot, [e0, e1]) == h2;
    assert Run(DEFAULT, hot, [e0, e1, e2]) == h3;
  }
}
