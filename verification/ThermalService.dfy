/**
 The mutable objects of the thermal service: the state machine and the policy
 manager that polls it, keeps accounts and publishes the status file.  Each method
 is proved against the pure steps of `ThermalPolicy` and `ThermalAccounts`.
 */
module ThermalService {
  import opened Common
  import opened ThermalPolicy
  import opened ThermalAccounts

  class ThermalStateMachine {
    const config: Config
    var state: State
    var stateEntered: real
    var lastRecovery: real
    var reading: Option<Reading>
    var reasonCode: string
    var recoveryReadings: nat
    var transitions: seq<Transition>
    var lastObservation: Option<(string, real)>
    var selectedSensor: Option<string>

    function View(): Machine
      reads this
    {
      Machine(state, stateEntered, lastRecovery, reading, reasonCode, recoveryReadings, transitions,
              lastObservation, selectedSensor)
    }

    constructor (config: Config, now: real)
      ensures this.config == config
      ensures View() == Initial(config, now)
    {
      this.config := config;
      state := if config.enabled then TelemetryDegraded else Normal;
      stateEntered := now;
      lastRecovery := now;
      reading := None;
      reasonCode := if config.enabled then "awaiting_fresh_telemetry" else "thermal_throttling_disabled";
      recoveryReadings := 0;
      transitions := [];
      lastObservation := None;
      selectedSensor := config.sensorId;
    }

    method Update(sample: Option<Reading>, now: real) returns (current: State)
      modifies this
      ensures View() == ThermalPolicy.Update(config, old(View()), sample, now)
      ensures current == state
    {
      if !config.enabled {
        state := Normal;
        reasonCode := "thermal_throttling_disabled";
        return state;
      }
      var invalid := InvalidReason(config, selectedSensor, sample, now);
      if invalid.Some? {
        reading := sample;
        recoveryReadings := 0;
        EnterState(TelemetryDegraded, invalid.value, now);
        return state;
      }
      var observation := (sample.value.sensorId, sample.value.observed);
      if lastObservation == Some(observation) {
        return state;
      }
      lastObservation := Some(observation);
      reading := sample;
      if selectedSensor.None? {
        selectedSensor := Some(sample.value.sensorId);
      }
      var degrees := sample.value.celsius.degrees;
      var target := EntryState(config, degrees);
      if target == Critical {
        recoveryReadings := 0;
        EnterState(target, "critical_threshold_exceeded", now);
      } else if state != TelemetryDegraded && Severity(target) > Severity(state) {
        recoveryReadings := 0;
        EnterState(target, StateName(target) + "_threshold_exceeded", now);
      } else if state == TelemetryDegraded {
        LeaveDegraded(target, now);
      } else {
        StepDown(degrees, now);
      }
      return state;
    }

    method Refresh(now: real) returns (current: State)
      modifies this
      ensures View() == ThermalPolicy.Refresh(config, old(View()), now)
      ensures current == state
    {
      if InvalidReason(config, selectedSensor, reading, now).Some? {
        current := Update(None, now);
      } else {
        current := state;
      }
    }

    method LeaveDegraded(target: State, now: real)
      modifies this
      ensures View() == RecoverFromDegraded(config, old(View()), target, now)
    {
      recoveryReadings := recoveryReadings + 1;
      if target == VeryHot || target == Hot {
        EnterState(target, StateName(target) + "_threshold_exceeded", now);
        return;
      }
      if RecoveryReady(config, View(), now) {
        EnterState(target, "fresh_telemetry_restored", now);
      }
    }

    method StepDown(degrees: real, now: real)
      modifies this
      ensures View() == RecoverOneStep(config, old(View()), degrees, now)
    {
      var recovery := RecoveryTarget(config, state);
      if recovery.None? {
        recoveryReadings := 0;
        return;
      }
      var (threshold, target) := recovery.value;
      if degrees >= threshold {
        recoveryReadings := 0;
        return;
      }
      recoveryReadings := recoveryReadings + 1;
      if RecoveryReady(config, View(), now) {
        EnterState(target, "recovered_below_" + StateName(state) + "_threshold", now);
      }
    }

    method EnterState(next: State, reason: string, now: real)
      modifies this
      ensures View() == Enter(old(View()), next, reason, now)
    {
      reasonCode := reason;
      if next == state {
        return;
      }
      var transition := Transition(
        state, next,
        if reading.Some? then Some(reading.value.celsius) else None,
        if reading.Some? then Some(reading.value.sensorId) else selectedSensor,
        Age(View(), now), reason);
      state := next;
      stateEntered := now;
      lastRecovery := now;
      recoveryReadings := 0;
      transitions := transitions + [transition];
    }
  }

  /** Scan the telemetry items for the control reading: the configured sensor's first
      value, or else the first best candidate. */
  method SelectControlReading(items: seq<Item>, sensor: Option<string>, now: real) returns (reading: Option<Reading>)
    ensures reading == Select(items, sensor, now)
  {
    var candidates: seq<Candidate> := [];
    for i := 0 to |items|
      invariant sensor.None? ==> candidates == CandidatesIn(items[..i])
      invariant sensor.Some? ==> FirstFrom(items, sensor.value) == FirstFrom(items[i..], sensor.value)
    {
      var item := items[i];
      assert items[..i + 1][..i] == items[..i] && items[i..][1..] == items[i + 1..];
      if item.celsius.None? {
        continue;
      }
      if sensor.Some? && item.identifier == sensor.value {
        return Some(Reading(item.identifier, item.celsius.value, now));
      }
      if sensor.None? && Priority(item.kind) > 0 {
        candidates := candidates + [Candidate(Priority(item.kind), item.identifier, item.celsius.value)];
      }
    }
    assert items[..|items|] == items;
    if sensor.Some? || candidates == [] {
      return None;
    }
    var best := MaximumCandidate(candidates);
    return Some(Reading(best.identifier, best.celsius, now));
  }

  method MaximumCandidate(candidates: seq<Candidate>) returns (best: Candidate)
    requires |candidates| > 0
    ensures best == Best(candidates)
  {
    best := candidates[0];
    for i := 1 to |candidates|
      invariant best == Best(candidates[..i])
    {
      assert candidates[..i + 1][..i] == candidates[..i];
      if Beats(candidates[i], best) {
        best := candidates[i];
      }
    }
    assert candidates[..|candidates|] == candidates;
  }

  class ThermalPolicyManager {
    const config: Config
    const machine: ThermalStateMachine
    const handlerInstalled: bool
    var lastPoll: Option<real>
    var stateSeconds: map<State, real>
    var thresholdSeconds: map<nat, real>
    var peak: Option<Celsius>
    var handlerCalls: nat
    var statusFile: Option<Published>
    var poll: Option<Poll>
    // What has been accepted so far, and the reading behind the status file.
    ghost var accepted: seq<Reading>
    ghost var basis: Option<Reading>

    ghost function View(): Manager
      reads this, machine
    {
      Manager(machine.View(), accepted, handlerInstalled, lastPoll, stateSeconds, thresholdSeconds, peak,
              handlerCalls, statusFile, basis, poll)
    }

    ghost predicate Valid()
      reads this, machine
    {
      machine.config == config && Keyed(View())
    }

    constructor (config: Config, handlerInstalled: bool, now: real)
      ensures Valid() && fresh(machine)
      ensures this.config == config && this.handlerInstalled == handlerInstalled
      ensures View() == Fresh(config, handlerInstalled, now)
    {
      this.config := config;
      this.machine := new ThermalStateMachine(config, now);
      this.handlerInstalled := handlerInstalled;
      lastPoll := None;
      stateSeconds := NO_SECONDS;
      thresholdSeconds := NONE_ABOVE;
      peak := None;
      handlerCalls := 0;
      statusFile := None;
      poll := None;
      accepted := [];
      basis := None;
    }

    /** One poll with nothing interleaved: sample, let the handler return, publish. */
    method PollOnce(items: Option<seq<Item>>, now: real)
      requires Valid()
      modifies this, machine
      ensures Valid()
      ensures View() == Publish(config, Resume(Sample(config, old(View()), items, now)))
      ensures poll == None && lastPoll == Some(now) && statusFile.Some? && statusFile.value.at == now
    {
      TakeSample(items, now);
      RecordPeak();
      PublishStatus();
    }

    /** A poll up to its call of the critical handler, or past the peak if it makes none. */
    method TakeSample(items: Option<seq<Item>>, now: real)
      requires Valid()
      modifies this, machine
      ensures Valid()
      ensures View() == Sample(config, old(View()), items, now)
      ensures poll.Some? && poll.value.at == now && lastPoll == Some(now)
    {
      hide ThermalPolicy.Update, Charge, Credit, Select, Accepts, Elapsed, Resume;
      ghost var before := View();
      ChargeElapsed(now);
      var reading: Option<Reading> := None;
      if config.enabled && items.Some? {
        reading := SelectControlReading(items.value, machine.selectedSensor, now);
      }
      var called := Update(reading, now);
      poll := Some(Poll(reading, now, false));
      assert View() == Observe(config, before, items, now);
      if !called {
        RecordPeak();
      }
    }

    // What follows the handler: the poll's reading is compared with the peak.
    method RecordPeak()
      modifies this`peak, this`poll
      ensures View() == Resume(old(View()))
      ensures old(poll).Some? ==> poll == Some(old(poll).value.(peaked := true))
    {
      if poll.Some? && !poll.value.peaked {
        var reading := poll.value.reading;
        if reading.Some? && (peak.None? || reading.value.celsius.Above(peak.value)) {
          peak := Some(reading.value.celsius);
        }
        poll := Some(poll.value.(peaked := true));
      }
    }

    // Charge the time since the last poll to the state and thresholds it was spent in.
    method ChargeElapsed(now: real)
      requires Valid()
      modifies this`lastPoll, this`stateSeconds, this`thresholdSeconds
      ensures lastPoll == Some(now)
      ensures stateSeconds == Charge(old(stateSeconds), machine.state, Elapsed(old(View()), now))
      ensures thresholdSeconds == Credit(old(thresholdSeconds), machine.reading, Elapsed(old(View()), now))
    {
      var elapsed := if lastPoll.None? || now <= lastPoll.value then 0.0 else now - lastPoll.value;
      ChargingOneState(stateSeconds, machine.state, elapsed);
      stateSeconds := stateSeconds[machine.state := stateSeconds[machine.state] + elapsed];
      CreditThresholds(elapsed);
      lastPoll := Some(now);
    }

    // Update the machine with the reading and call the critical handler.
    method Update(reading: Option<Reading>, now: real) returns (called: bool)
      requires machine.config == config
      modifies this`accepted, this`handlerCalls, machine
      ensures machine.View() == ThermalPolicy.Update(config, old(machine.View()), reading, now)
      ensures accepted ==
        if Accepts(config, old(machine.View()), reading, now) then old(accepted) + [reading.value] else old(accepted)
      ensures called <==>
        handlerInstalled && |machine.transitions| > |old(machine.transitions)| && machine.state == Critical
      ensures handlerCalls == old(handlerCalls) + if called then 1 else 0
    {
      if Accepts(config, machine.View(), reading, now) {
        accepted := accepted + [reading.value];
      }
      var logged := |machine.transitions|;
      var state := machine.Update(reading, now);
      called := handlerInstalled && |machine.transitions| > logged && state == Critical;
      if called {
        handlerCalls := handlerCalls + 1;
      }
    }

    // Charge the elapsed time to every threshold the previous reading had reached.
    method CreditThresholds(elapsed: real)
      requires thresholdSeconds.Keys == {75, 80, 83, 85}
      modifies this`thresholdSeconds
      ensures thresholdSeconds == Credit(old(thresholdSeconds), machine.reading, elapsed)
    {
      if machine.reading.Some? {
        var celsius := machine.reading.value.celsius;
        ghost var before := thresholdSeconds;
        for i := 0 to |THRESHOLDS|
          invariant thresholdSeconds.Keys == before.Keys
          invariant forall j :: 0 <= j < |THRESHOLDS| ==>
            thresholdSeconds[THRESHOLDS[j]] == before[THRESHOLDS[j]]
              + if j < i && celsius.AtLeast(THRESHOLDS[j] as real) then elapsed else 0.0
        {
          var t := THRESHOLDS[i];
          if celsius.AtLeast(t as real) {
            thresholdSeconds := thresholdSeconds[t := thresholdSeconds[t] + elapsed];
          }
        }
        forall t | t in before
          ensures thresholdSeconds[t] == before[t] + if celsius.AtLeast(t as real) then elapsed else 0.0
        {
          var j := if t == 75 then 0 else if t == 80 then 1 else if t == 83 then 2 else 3;
          assert THRESHOLDS[j] == t;
        }
      }
    }

    /** Re-evaluate freshness and describe the current state. */
    method ReportStatus(now: real) returns (status: Published)
      requires Valid()
      modifies this, machine
      ensures Valid()
      ensures View() == Status(config, old(View()), now)
      ensures status == StatusOf(config, machine.View(), now)
    {
      var state := machine.Refresh(now);
      status := Published(
        config.enabled, state,
        if machine.reading.Some? then Some(machine.reading.value.celsius) else None,
        if machine.reading.Some? then Some(machine.reading.value.sensorId) else machine.selectedSensor,
        Age(machine.View(), now), CapacityFor(config, state), now);
    }

    // The poll's last part, with the time at which it began.
    method PublishStatus()
      requires Valid()
      modifies this, machine
      ensures Valid()
      ensures View() == Publish(config, old(View()))
      ensures old(poll).Some? && old(poll).value.peaked ==>
        poll == None && statusFile.Some? && statusFile.value.at == old(poll).value.at
    {
      if poll.Some? && poll.value.peaked {
        var status := ReportStatus(poll.value.at);
        statusFile := Some(status);
        basis := machine.reading;
        poll := None;
      }
    }
  }
}
