/**
 The policy manager as a value: choosing the control reading, poll accounting, the
 critical handler and the status file another process reads.

 A poll may wait twice: in the critical handler, before it records the peak, and before
 it publishes.  A run interleaves the parts of polls with status calls in any order, and
 a waiting poll may be cancelled.
 */
module ThermalAccounts {
  import opened Common
  import opened ThermalPolicy
  import opened ThermalRuns

  // ----- Choosing the control reading -----

  // How a sensor's source and label rank as the control sensor.
  datatype Kind = CpuControl | GpuEdge | OtherAmd | Unranked

  // `celsius` is None when the item's value does not parse as a number.
  datatype Item = Item(identifier: string, kind: Kind, celsius: Option<Celsius>)

  function Priority(k: Kind): nat {
    match k
    case CpuControl => 3
    case GpuEdge => 2
    case OtherAmd => 1
    case Unranked => 0
  }

  datatype Candidate = Candidate(priority: nat, identifier: string, celsius: Celsius)

  // The order of the key (priority, value), as tuple comparison evaluates it.
  predicate Beats(a: Candidate, b: Candidate) {
    if a.priority != b.priority then a.priority > b.priority else a.celsius.Above(b.celsius)
  }

  // The first maximal candidate: replaced only by one that beats it.
  function Best(candidates: seq<Candidate>): (best: Candidate)
    requires |candidates| > 0
    ensures best in candidates
  {
    if |candidates| == 1 then candidates[0]
    else
      var best := Best(candidates[..|candidates| - 1]);
      if Beats(Last(candidates), best) then Last(candidates) else best
  }

  function CandidatesIn(items: seq<Item>): seq<Candidate> {
    if items == [] then []
    else
      var i := Last(items);
      CandidatesIn(items[..|items| - 1])
      + if i.celsius.Some? && Priority(i.kind) > 0
        then [Candidate(Priority(i.kind), i.identifier, i.celsius.value)] else []
  }

  function FirstFrom(items: seq<Item>, sensor: string): Option<Celsius> {
    if items == [] then None
    else if items[0].celsius.Some? && items[0].identifier == sensor then items[0].celsius
    else FirstFrom(items[1..], sensor)
  }

  function Select(items: seq<Item>, sensor: Option<string>, now: real): Option<Reading> {
    if sensor.Some? then
      var value := FirstFrom(items, sensor.value);
      if value.Some? then Some(Reading(sensor.value, value.value, now)) else None
    else
      var candidates := CandidatesIn(items);
      if candidates == [] then None
      else Some(Reading(Best(candidates).identifier, Best(candidates).celsius, now))
  }

  // The first candidate of the highest priority.
  ghost predicate LeadsAt(candidates: seq<Candidate>, i: nat) {
    && i < |candidates|
    && (forall j :: 0 <= j < |candidates| ==> candidates[j].priority <= candidates[i].priority)
    && (forall j :: 0 <= j < i ==> candidates[j].priority < candidates[i].priority)
  }

  /** The chosen candidate has the highest priority.  Within that priority it is the
      hottest of those that carry a number, unless the first of them is not a number,
      and then, and only then, the choice itself is not a number. */
  lemma {:induction false} BestIsHottestOfThePreferred(candidates: seq<Candidate>, lead: nat)
    requires LeadsAt(candidates, lead)
    ensures Best(candidates).priority == candidates[lead].priority
    ensures Best(candidates).celsius == NotANumber <==> candidates[lead].celsius == NotANumber
    ensures candidates[lead].celsius != NotANumber ==>
              forall j :: 0 <= j < |candidates| && candidates[j].priority == candidates[lead].priority ==>
                !candidates[j].celsius.Above(Best(candidates).celsius)
  {
    var n := |candidates| - 1;
    if n > 0 {
      var init := candidates[..n];
      if lead < n {
        assert LeadsAt(init, lead);
        BestIsHottestOfThePreferred(init, lead);
      }
      assert Best(init) in init;
    }
  }

  function CandidateOf(i: Item): Candidate
    requires i.celsius.Some?
  {
    Candidate(Priority(i.kind), i.identifier, i.celsius.value)
  }

  // An item of a ranked sensor with a value that parses.
  predicate Offers(i: Item) {
    i.kind != Unranked && i.celsius.Some?
  }

  lemma {:induction false} CandidatesAreOffers(items: seq<Item>, c: Candidate)
    ensures c in CandidatesIn(items) <==> exists i :: i in items && Offers(i) && c == CandidateOf(i)
  {
    if items != [] {
      var init := items[..|items| - 1];
      CandidatesAreOffers(init, c);
      assert items == init + [Last(items)] && Last(items) in items;
      if i :| i in init && Offers(i) && c == CandidateOf(i) {
        assert i in items;
      }
    }
  }

  lemma {:induction false} SomethingLeads(candidates: seq<Candidate>) returns (lead: nat)
    requires candidates != []
    ensures LeadsAt(candidates, lead)
  {
    var n := |candidates| - 1;
    if n == 0 {
      lead := 0;
    } else {
      lead := SomethingLeads(candidates[..n]);
      if candidates[n].priority > candidates[lead].priority {
        lead := n;
      }
    }
  }

  // CPU control comes before GPU edge, and GPU edge before any other AMD sensor.
  predicate MorePreferred(k: Kind, other: Kind) {
    match k
    case CpuControl => other != CpuControl
    case GpuEdge => other == OtherAmd || other == Unranked
    case OtherAmd => other == Unranked
    case Unranked => false
  }

  // This item's value may be chosen over that of the other.
  predicate NotBeaten(i: Item, other: Item)
    requires Offers(i) && Offers(other)
  {
    && !MorePreferred(other.kind, i.kind)
    && (other.kind == i.kind && i.celsius != Some(NotANumber) ==> !other.celsius.value.Above(i.celsius.value))
  }

  lemma BestIsOffered(items: seq<Item>) returns (i: Item)
    requires CandidatesIn(items) != []
    ensures i in items && Offers(i) && Best(CandidatesIn(items)) == CandidateOf(i)
    ensures forall j :: j in items && Offers(j) ==> NotBeaten(i, j)
  {
    hide CandidatesIn;
    var candidates := CandidatesIn(items);
    var lead := SomethingLeads(candidates);
    BestIsHottestOfThePreferred(candidates, lead);
    CandidatesAreOffers(items, Best(candidates));
    i :| i in items && Offers(i) && Best(candidates) == CandidateOf(i);
    forall j | j in items && Offers(j) ensures NotBeaten(i, j) {
      CandidatesAreOffers(items, CandidateOf(j));
      var k :| 0 <= k < |candidates| && candidates[k] == CandidateOf(j);
    }
  }

  ghost predicate IsControlItem(items: seq<Item>, i: Item, r: Reading) {
    && i in items && Offers(i) && r.sensorId == i.identifier && r.celsius == i.celsius.value
    && forall j :: j in items && Offers(j) ==> NotBeaten(i, j)
  }

  /** With no sensor configured, the control reading is the value of a ranked item: no item
      of a more preferred kind has a value, and unless it is not a number no item of its own
      kind is hotter.  There is none exactly if no ranked item has a value. */
  lemma ControlReadingIsTheHottestPreferred(items: seq<Item>, now: real)
    ensures Select(items, None, now).None? <==> forall j :: j in items ==> !Offers(j)
    ensures Select(items, None, now).Some? ==>
      && Select(items, None, now).value.observed == now
      && exists i :: IsControlItem(items, i, Select(items, None, now).value)
  {
    hide CandidatesIn, Best, NotBeaten;
    if CandidatesIn(items) == [] {
      forall j | j in items ensures !Offers(j) {
        if Offers(j) {
          CandidatesAreOffers(items, CandidateOf(j));
        }
      }
    } else {
      var i := BestIsOffered(items);
      assert IsControlItem(items, i, Select(items, None, now).value);
    }
  }

  // The first item of this sensor whose value parses.
  predicate FirstOfSensor(items: seq<Item>, sensor: string, k: int) {
    && 0 <= k < |items| && items[k].identifier == sensor && items[k].celsius.Some?
    && forall j :: 0 <= j < k ==> items[j].identifier != sensor || items[j].celsius.None?
  }

  /** With a sensor configured, or latched, it is the first value of that sensor that
      parses, whatever its kind, and no other sensor stands in for it. */
  lemma {:induction false} ControlReadingIsOfTheSensor(items: seq<Item>, sensor: string, now: real)
    ensures Select(items, Some(sensor), now).None? <==> forall k :: !FirstOfSensor(items, sensor, k)
    ensures forall k :: FirstOfSensor(items, sensor, k) ==>
      Select(items, Some(sensor), now) == Some(Reading(sensor, items[k].celsius.value, now))
  {
    if items != [] {
      var rest := items[1..];
      ControlReadingIsOfTheSensor(rest, sensor, now);
      if items[0].identifier == sensor && items[0].celsius.Some? {
        assert FirstOfSensor(items, sensor, 0);
      } else {
        assert forall k :: FirstOfSensor(items, sensor, k) ==> FirstOfSensor(rest, sensor, k - 1);
        if k :| FirstOfSensor(rest, sensor, k) {
          assert FirstOfSensor(items, sensor, k + 1);
        }
      }
    }
  }

  // ----- The manager -----

  datatype Published = Published(
    enabled: bool, state: State, celsius: Option<Celsius>, sensorId: Option<string>,
    age: Option<real>, capacity: Capacity, at: real)

  // A poll that is waiting: what it read, when, and whether it has recorded the peak.
  datatype Poll = Poll(reading: Option<Reading>, at: real, peaked: bool)

  datatype Manager = Manager(
    machine: Machine,
    accepted: seq<Reading>,
    handlerInstalled: bool,
    lastPoll: Option<real>,
    seconds: map<State, real>,
    above: map<nat, real>,
    peak: Option<Celsius>,
    handlerCalls: nat,
    file: Option<Published>,
    basis: Option<Reading>,
    poll: Option<Poll>)

  const THRESHOLDS: seq<nat> := [75, 80, 83, 85]

  const NO_SECONDS: map<State, real> := map[
    Normal := 0.0, Warm := 0.0, Hot := 0.0, VeryHot := 0.0, Critical := 0.0, TelemetryDegraded := 0.0]

  const NONE_ABOVE: map<nat, real> := map[75 := 0.0, 80 := 0.0, 83 := 0.0, 85 := 0.0]

  // Every state has an account.
  predicate Charged(seconds: map<State, real>) {
    && Normal in seconds && Warm in seconds && Hot in seconds
    && VeryHot in seconds && Critical in seconds && TelemetryDegraded in seconds
  }

  function Total(seconds: map<State, real>): real
    requires Charged(seconds)
  {
    seconds[Normal] + seconds[Warm] + seconds[Hot] + seconds[VeryHot] + seconds[Critical] + seconds[TelemetryDegraded]
  }

  lemma ChargingOneState(seconds: map<State, real>, s: State, elapsed: real)
    requires Charged(seconds)
    ensures s in seconds && Total(seconds[s := seconds[s] + elapsed]) == Total(seconds) + elapsed
  {
  }

  function Charge(seconds: map<State, real>, s: State, elapsed: real): (after: map<State, real>)
    requires Charged(seconds)
    ensures Charged(after)
    ensures Total(after) == Total(seconds) + elapsed
  {
    ChargingOneState(seconds, s, elapsed);
    seconds[s := seconds[s] + elapsed]
  }

  function Fresh(c: Config, handlerInstalled: bool, now: real): (m: Manager)
    ensures Keyed(m)
  {
    Manager(Initial(c, now), [], handlerInstalled, None, NO_SECONDS, NONE_ABOVE, None, 0, None, None, None)
  }

  predicate Keyed(m: Manager) {
    Charged(m.seconds) && m.above.Keys == {75, 80, 83, 85}
  }

  function Elapsed(m: Manager, now: real): real {
    if m.lastPoll.None? || now <= m.lastPoll.value then 0.0 else now - m.lastPoll.value
  }

  function Credit(above: map<nat, real>, reading: Option<Reading>, elapsed: real): map<nat, real> {
    map t | t in above :: above[t] + if reading.Some? && reading.value.celsius.AtLeast(t as real) then elapsed else 0.0
  }

  // `items` is None when reading the sensors raised.
  function Sampled(c: Config, m: Manager, items: Option<seq<Item>>, now: real): Option<Reading> {
    if c.enabled && items.Some? then Select(items.value, m.machine.selected, now) else None
  }

  function Peak(peak: Option<Celsius>, reading: Option<Reading>): Option<Celsius> {
    if reading.Some? && (peak.None? || reading.value.celsius.Above(peak.value))
    then Some(reading.value.celsius) else peak
  }

  // The update calls an installed handler when it logs an entry to CRITICAL.
  predicate CallsHandler(m: Manager, after: Machine) {
    m.handlerInstalled && |after.transitions| > |m.machine.transitions| && after.state == Critical
  }

  // A poll up to its update, with the handler called if there is cause.
  function Observe(c: Config, m: Manager, items: Option<seq<Item>>, now: real): (n: Manager)
    requires Keyed(m)
    ensures Keyed(n)
  {
    var reading := Sampled(c, m, items, now);
    var machine := Update(c, m.machine, reading, now);
    m.(machine := machine,
       accepted := if Accepts(c, m.machine, reading, now) then m.accepted + [reading.value] else m.accepted,
       lastPoll := Some(now),
       seconds := Charge(m.seconds, m.machine.state, Elapsed(m, now)),
       above := Credit(m.above, m.machine.reading, Elapsed(m, now)),
       handlerCalls := m.handlerCalls + if CallsHandler(m, machine) then 1 else 0,
       poll := Some(Poll(reading, now, false)))
  }

  // The handler has returned: the waiting poll records the peak.
  function Resume(m: Manager): Manager {
    if m.poll.None? || m.poll.value.peaked then m
    else m.(peak := Peak(m.peak, m.poll.value.reading), poll := Some(m.poll.value.(peaked := true)))
  }

  // A poll up to its first wait: in the handler, or after the peak if it calls none.
  function Sample(c: Config, m: Manager, items: Option<seq<Item>>, now: real): (n: Manager)
    requires Keyed(m)
    ensures Keyed(n)
  {
    var n := Observe(c, m, items, now);
    if CallsHandler(m, n.machine) then n else Resume(n)
  }

  function StatusOf(c: Config, machine: Machine, now: real): Published {
    Published(c.enabled, machine.state,
              if machine.reading.Some? then Some(machine.reading.value.celsius) else None,
              if machine.reading.Some? then Some(machine.reading.value.sensorId) else machine.selected,
              Age(machine, now), CapacityFor(c, machine.state), now)
  }

  function Status(c: Config, m: Manager, now: real): Manager {
    m.(machine := Refresh(c, m.machine, now))
  }

  // The poll ends by publishing the status, with the time at which it began.
  function Publish(c: Config, m: Manager): Manager {
    if m.poll.None? || !m.poll.value.peaked then m
    else
      var n := Status(c, m, m.poll.value.at);
      n.(file := Some(StatusOf(c, n.machine, m.poll.value.at)), basis := n.machine.reading, poll := None)
  }

  // A poll that starts while another waits comes after that one was cancelled.
  datatype Activity =
    | Sampling(items: Option<seq<Item>>, at: real)
    | Resuming
    | Publishing
    | Cancelling
    | Asking(at: real)

  function Act(c: Config, m: Manager, a: Activity): (n: Manager)
    requires Keyed(m)
    ensures Keyed(n)
  {
    match a
    case Sampling(items, at) => Sample(c, m, items, at)
    case Resuming => Resume(m)
    case Publishing => Publish(c, m)
    case Cancelling => m.(poll := None)
    case Asking(at) => Status(c, m, at)
  }

  function Operate(c: Config, m: Manager, activities: seq<Activity>): (r: Manager)
    requires Keyed(m)
    ensures Keyed(r)
  {
    if activities == [] then m
    else Act(c, Operate(c, m, activities[..|activities| - 1]), Last(activities))
  }

  // ----- Poll accounting -----

  function SampleTimes(activities: seq<Activity>): seq<real> {
    if activities == [] then []
    else SampleTimes(activities[..|activities| - 1])
         + if Last(activities).Sampling? then [Last(activities).at] else []
  }

  predicate NonDecreasing(times: seq<real>) {
    forall i :: 0 < i < |times| ==> times[i - 1] <= times[i]
  }

  ghost predicate Accounted(m: Manager, times: seq<real>) {
    && Keyed(m)
    && m.lastPoll == (if times == [] then None else Some(Last(times)))
    && Total(m.seconds) == (if times == [] then 0.0 else Last(times) - times[0])
    && 0.0 <= m.above[85] <= m.above[83] <= m.above[80] <= m.above[75] <= Total(m.seconds)
  }

  lemma SampleAccounts(c: Config, m: Manager, items: Option<seq<Item>>, now: real, times: seq<real>)
    requires Accounted(m, times) && (times != [] ==> Last(times) <= now)
    ensures Accounted(Sample(c, m, items, now), times + [now])
  {
  }

  lemma FreshAccounts(c: Config, installed: bool, start: real)
    ensures Accounted(Fresh(c, installed, start), [])
  {
  }

  lemma OthersAccount(c: Config, m: Manager, a: Activity, times: seq<real>)
    requires Accounted(m, times) && !a.Sampling?
    ensures Accounted(Act(c, m, a), times + [])
  {
  }

  /** On a clock that does not go backwards the seconds charged to the six states add
      up to the time between the first and the last poll, and the four at-or-above
      counters are nested and within that time, however status calls interleave. */
  lemma {:induction false} EveryRunAccounts(c: Config, installed: bool, start: real, activities: seq<Activity>)
    requires NonDecreasing(SampleTimes(activities))
    ensures Accounted(Operate(c, Fresh(c, installed, start), activities), SampleTimes(activities))
  {
    hide Sample, Publish, Status, Resume, Accounted;
    if activities == [] {
      FreshAccounts(c, installed, start);
    } else {
      var init := activities[..|activities| - 1];
      var times := SampleTimes(activities);
      assert NonDecreasing(SampleTimes(init)) by {
        forall i | 0 < i < |SampleTimes(init)| ensures SampleTimes(init)[i - 1] <= SampleTimes(init)[i] {
          assert times[i - 1] <= times[i];
        }
      }
      EveryRunAccounts(c, installed, start, init);
      if Last(activities).Sampling? && SampleTimes(init) != [] {
        var k := |SampleTimes(init)|;
        assert times[k - 1] <= times[k];
      }
      var m := Operate(c, Fresh(c, installed, start), init);
      match Last(activities)
      case Sampling(items, at) => SampleAccounts(c, m, items, at, SampleTimes(init));
      case _ => OthersAccount(c, m, Last(activities), SampleTimes(init));
    }
  }

  // The seconds since the last poll, if there was one and the clock has moved on.
  function Gap(times: seq<real>, a: Activity): real {
    if a.Sampling? && times != [] && a.at > Last(times) then a.at - Last(times) else 0.0
  }

  // The seconds between polls through which the machine was in this state,
  function SecondsIn(c: Config, m: Manager, activities: seq<Activity>, s: State): real
    requires Keyed(m)
  {
    if activities == [] then 0.0
    else
      var init := activities[..|activities| - 1];
      SecondsIn(c, m, init, s)
      + if Operate(c, m, init).machine.state == s then Gap(SampleTimes(init), Last(activities)) else 0.0
  }

  // and those through which its reading was at or above this many degrees.
  function SecondsAbove(c: Config, m: Manager, activities: seq<Activity>, degrees: nat): real
    requires Keyed(m)
  {
    if activities == [] then 0.0
    else
      var init := activities[..|activities| - 1];
      SecondsAbove(c, m, init, degrees)
      + if ReadsAtLeast(Operate(c, m, init).machine, degrees as real)
        then Gap(SampleTimes(init), Last(activities)) else 0.0
  }

  predicate ReadsAtLeast(m: Machine, degrees: real) {
    m.reading.Some? && match m.reading.value.celsius
                       case Finite(d) => d >= degrees
                       case PlusInfinity => true
                       case MinusInfinity => false
                       case NotANumber => false
  }

  // The accounts after an activity.
  ghost predicate Charges(m: Manager, n: Manager, gap: real, s: State, t: nat) {
    && s in m.seconds && s in n.seconds && t in m.above && t in n.above
    && n.seconds[s] == m.seconds[s] + (if m.machine.state == s then gap else 0.0)
    && n.above[t] == m.above[t] + if ReadsAtLeast(m.machine, t as real) then gap else 0.0
  }

  lemma ObserveCharges(c: Config, m: Manager, items: Option<seq<Item>>, now: real, times: seq<real>, s: State, t: nat)
    requires Keyed(m) && (t == 75 || t == 80 || t == 83 || t == 85)
    requires m.lastPoll == if times == [] then None else Some(Last(times))
    ensures
      var n := Observe(c, m, items, now);
      n.lastPoll == Some(now) && Charges(m, n, Gap(times, Sampling(items, now)), s, t)
  {
    hide Sampled, Update, CallsHandler, Accepts;
  }

  lemma ActCharges(c: Config, m: Manager, a: Activity, times: seq<real>, s: State, t: nat)
    requires Keyed(m) && (t == 75 || t == 80 || t == 83 || t == 85)
    requires m.lastPoll == if times == [] then None else Some(Last(times))
    ensures
      var n := Act(c, m, a);
      n.lastPoll == (if a.Sampling? then Some(a.at) else m.lastPoll) && Charges(m, n, Gap(times, a), s, t)
  {
    hide Observe, CallsHandler, Refresh, StatusOf, ReadsAtLeast;
    if a.Sampling? {
      ObserveCharges(c, m, a.items, a.at, times, s, t);
    }
  }

  /** Every second is charged where it was spent: in any run, on any clock, the seconds of a
      state are those between polls through which the machine was in it, and the seconds
      of a threshold those through which its reading was at or above it. */
  lemma {:induction false} EverySecondIsCharged(
      c: Config, installed: bool, start: real, activities: seq<Activity>, s: State, t: nat)
    requires t == 75 || t == 80 || t == 83 || t == 85
    ensures
      var first := Fresh(c, installed, start);
      var m := Operate(c, first, activities);
      && m.lastPoll == (if SampleTimes(activities) == [] then None else Some(Last(SampleTimes(activities))))
      && s in m.seconds && m.seconds[s] == SecondsIn(c, first, activities, s)
      && t in m.above && m.above[t] == SecondsAbove(c, first, activities, t)
  {
    hide Act, ReadsAtLeast, Gap, Fresh, Keyed;
    if activities == [] {
      NothingCharged(c, installed, start, s, t);
    } else {
      var init := activities[..|activities| - 1];
      EverySecondIsCharged(c, installed, start, init, s, t);
      ActCharges(c, Operate(c, Fresh(c, installed, start), init), Last(activities), SampleTimes(init), s, t);
    }
  }

  lemma NothingCharged(c: Config, installed: bool, start: real, s: State, t: nat)
    requires t == 75 || t == 80 || t == 83 || t == 85
    ensures
      var m := Fresh(c, installed, start);
      m.lastPoll == None && s in m.seconds && m.seconds[s] == 0.0 && t in m.above && m.above[t] == 0.0
  {
  }

  // ----- The critical handler -----

  function CriticalEntries(log: seq<Transition>): nat {
    if log == [] then 0
    else CriticalEntries(log[..|log| - 1]) + if Last(log).next == Critical then 1 else 0
  }

  lemma SampleCallsHandlerOnce(c: Config, m: Manager, items: Option<seq<Item>>, now: real)
    requires Keyed(m) && m.handlerInstalled && m.handlerCalls == CriticalEntries(m.machine.transitions)
    ensures
      var n := Sample(c, m, items, now);
      n.handlerInstalled && n.handlerCalls == CriticalEntries(n.machine.transitions)
  {
    hide Charge, Credit, Peak, Sampled, Accepts, Elapsed;
    if c.enabled {
      var log := Update(c, m.machine, Sampled(c, m, items, now), now).transitions;
      UpdateAppends(c, m.machine, Sampled(c, m, items, now), now);
      if |log| > |m.machine.transitions| {
        assert log[..|log| - 1] == m.machine.transitions;
      }
    }
  }

  /** An installed critical handler has been called exactly once for every logged
      entry to CRITICAL, even with status calls while it runs and polls cancelled in it. */
  lemma {:induction false} HandlerCalledOncePerCriticalEntry(c: Config, start: real, activities: seq<Activity>)
    ensures
      var m := Operate(c, Fresh(c, true, start), activities);
      m.handlerInstalled && m.handlerCalls == CriticalEntries(m.machine.transitions)
  {
    if activities != [] {
      var init := activities[..|activities| - 1];
      HandlerCalledOncePerCriticalEntry(c, start, init);
      var m := Operate(c, Fresh(c, true, start), init);
      match Last(activities)
      case Sampling(items, at) => SampleCallsHandlerOnce(c, m, items, at);
      case _ =>
    }
  }

  // ----- The peak temperature -----

  function Of(reading: Option<Reading>): seq<Reading> {
    if reading.Some? then [reading.value] else []
  }

  // The reading a manager still has to compare with the peak.
  function Waiting(m: Manager): seq<Reading> {
    if m.poll.Some? && !m.poll.value.peaked then Of(m.poll.value.reading) else []
  }

  // Every reading a run sampled; those that reached the peak step, in order; and those
  // that were cancelled in the critical handler before it.
  datatype Fates = Fates(sampled: seq<Reading>, counted: seq<Reading>, dropped: seq<Reading>)

  function FateOf(c: Config, m: Manager, a: Activity): Fates {
    match a
    case Sampling(items, at) =>
      var reading := Sampled(c, m, items, at);
      Fates(Of(reading), if CallsHandler(m, Update(c, m.machine, reading, at)) then [] else Of(reading), Waiting(m))
    case Resuming => Fates([], Waiting(m), [])
    case Cancelling => Fates([], [], Waiting(m))
    case _ => Fates([], [], [])
  }

  function FatesIn(c: Config, m: Manager, activities: seq<Activity>): Fates
    requires Keyed(m)
  {
    if activities == [] then Fates([], [], [])
    else
      var init := activities[..|activities| - 1];
      Joined(FatesIn(c, m, init), FateOf(c, Operate(c, m, init), Last(activities)))
  }

  // The peak of the readings compared so far: a leading not-a-number stays.
  ghost predicate PeakOf(peak: Option<Celsius>, readings: seq<Reading>) {
    if readings == [] then peak == None
    else
      && peak.Some?
      && (peak.value == NotANumber <==> readings[0].celsius == NotANumber)
      && (readings[0].celsius != NotANumber ==>
            && (exists r :: r in readings && r.celsius == peak.value)
            && forall r :: r in readings ==> !r.celsius.Above(peak.value))
  }

  lemma PeakExtends(peak: Option<Celsius>, readings: seq<Reading>, next: Option<Reading>)
    requires PeakOf(peak, readings)
    ensures PeakOf(Peak(peak, next), readings + Of(next))
  {
  }

  // What happened to the readings, as far as the manager shows it.
  ghost predicate Told(m: Manager, f: Fates) {
    && PeakOf(m.peak, f.counted)
    && multiset(f.sampled) == multiset(f.counted) + multiset(f.dropped) + multiset(Waiting(m))
  }

  lemma ResumeIsTold(m: Manager, f: Fates)
    requires Told(m, f)
    ensures Told(Resume(m), f.(counted := f.counted + Waiting(m)))
  {
    assert f.counted + [] == f.counted;
    if m.poll.Some? && !m.poll.value.peaked {
      PeakExtends(m.peak, f.counted, m.poll.value.reading);
    }
  }

  lemma ObserveIsTold(c: Config, m: Manager, f: Fates, items: Option<seq<Item>>, now: real)
    requires Keyed(m) && Told(m, f)
    ensures
      var waiting := Of(Sampled(c, m, items, now));
      && Waiting(Observe(c, m, items, now)) == waiting
      && Told(Observe(c, m, items, now), f.(sampled := f.sampled + waiting, dropped := f.dropped + Waiting(m)))
  {
  }

  function Joined(f: Fates, last: Fates): Fates {
    Fates(f.sampled + last.sampled, f.counted + last.counted, f.dropped + last.dropped)
  }

  lemma SampleIsTold(c: Config, m: Manager, f: Fates, items: Option<seq<Item>>, now: real)
    requires Keyed(m) && Told(m, f)
    ensures Told(Sample(c, m, items, now), Joined(f, FateOf(c, m, Sampling(items, now))))
  {
    hide Update, Sampled, CallsHandler, Observe, Told, Resume;
    var waiting := Of(Sampled(c, m, items, now));
    var g := f.(sampled := f.sampled + waiting, dropped := f.dropped + Waiting(m));
    assert g.counted + [] == g.counted;
    ObserveIsTold(c, m, f, items, now);
    ObservedMachine(c, m, items, now);
    ResumeIsTold(Observe(c, m, items, now), g);
  }

  lemma OtherIsTold(c: Config, m: Manager, f: Fates, a: Activity)
    requires Keyed(m) && Told(m, f) && (a.Publishing? || a.Cancelling? || a.Asking?)
    ensures Told(Act(c, m, a), Joined(f, FateOf(c, m, a)))
  {
    hide Refresh, StatusOf, PeakOf;
    assert Joined(f, Fates([], [], [])) == f;
  }

  lemma ActIsTold(c: Config, m: Manager, f: Fates, a: Activity)
    requires Keyed(m) && Told(m, f)
    ensures Told(Act(c, m, a), Joined(f, FateOf(c, m, a)))
  {
    hide Told, Resume, Sample, Publish, Status, Waiting;
    match a
    case Sampling(items, at) => SampleIsTold(c, m, f, items, at);
    case Resuming =>
      ResumeIsTold(m, f);
      assert f.sampled + [] == f.sampled && f.dropped + [] == f.dropped;
    case _ => OtherIsTold(c, m, f, a);
  }

  lemma ObservedMachine(c: Config, m: Manager, items: Option<seq<Item>>, now: real)
    requires Keyed(m)
    ensures Observe(c, m, items, now).machine == Update(c, m.machine, Sampled(c, m, items, now), now)
  {
  }

  lemma {:induction false} EveryRunIsTold(c: Config, installed: bool, start: real, activities: seq<Activity>)
    ensures
      var m := Fresh(c, installed, start);
      Told(Operate(c, m, activities), FatesIn(c, m, activities))
  {
    hide Act, FateOf, Told;
    if activities == [] {
      NothingToTell(c, installed, start);
    } else {
      var init := activities[..|activities| - 1];
      EveryRunIsTold(c, installed, start, init);
      var m := Fresh(c, installed, start);
      ActIsTold(c, Operate(c, m, init), FatesIn(c, m, init), Last(activities));
    }
  }

  lemma NothingToTell(c: Config, installed: bool, start: real)
    ensures Told(Fresh(c, installed, start), Fates([], [], []))
  {
  }

  // The peak is at least as hot as every one of these readings that is a number.
  ghost predicate Bounds(peak: Option<Celsius>, readings: seq<Reading>) {
    forall r :: r in readings && r.celsius != NotANumber ==>
      peak.Some? && peak.value != NotANumber && !r.celsius.Above(peak.value)
  }

  predicate AsHot(r: Reading, k: Reading) {
    k.celsius != NotANumber && !r.celsius.Above(k.celsius)
  }

  // What has not been compared is no hotter than something that has.
  ghost predicate Matched(lost: seq<Reading>, counted: seq<Reading>) {
    forall r :: r in lost && r.celsius != NotANumber ==> exists k :: k in counted && AsHot(r, k)
  }

  /** At any moment of any run, status calls and cancelled polls included, the reported
      peak bounds every sampled temperature exactly when each reading whose poll waits in
      the critical handler, or was cancelled there, is matched by one that was compared,
      and the first compared reading is a number or none of them is. */
  lemma PeakBoundsReadingsExactly(c: Config, installed: bool, start: real, activities: seq<Activity>)
    ensures
      var m := Fresh(c, installed, start);
      var now, f := Operate(c, m, activities), FatesIn(c, m, activities);
      Bounds(now.peak, f.sampled) <==>
        && Matched(f.dropped + Waiting(now), f.counted)
        && (f.counted == [] || f.counted[0].celsius != NotANumber
            || forall k :: k in f.counted ==> k.celsius == NotANumber)
  {
    hide Operate, FatesIn, Fresh, Waiting;
    EveryRunIsTold(c, installed, start, activities);
    var m := Fresh(c, installed, start);
    var now, f := Operate(c, m, activities), FatesIn(c, m, activities);
    SampledSplits(f, Waiting(now));
  }

  lemma SampledSplits(f: Fates, waiting: seq<Reading>)
    requires multiset(f.sampled) == multiset(f.counted) + multiset(f.dropped) + multiset(waiting)
    ensures forall r :: r in f.sampled <==> r in f.counted || r in f.dropped + waiting
  {
    assert forall r :: r in f.sampled <==> r in multiset(f.sampled);
  }

  // One item of the control sensor.
  function Tctl(celsius: Celsius): Option<seq<Item>> {
    Some([Item("k10temp:tctl", CpuControl, Some(celsius))])
  }

  lemma SelectsTctl(celsius: Celsius, sensor: Option<string>, now: real)
    requires sensor.None? || sensor == Some("k10temp:tctl")
    ensures Select(Tctl(celsius).value, sensor, now) == Some(Reading("k10temp:tctl", celsius, now))
  {
    var items := Tctl(celsius).value;
    assert items[..0] == [] && CandidatesIn(items) == [Candidate(3, "k10temp:tctl", celsius)];
  }

  lemma Operated(c: Config, m: Manager, done: seq<Activity>, a: Activity)
    requires Keyed(m)
    ensures Operate(c, m, done + [a]) == Act(c, Operate(c, m, done), a)
    ensures FatesIn(c, m, done + [a]) == Joined(FatesIn(c, m, done), FateOf(c, Operate(c, m, done), a))
  {
  }

  // The default machine after one reading: still degraded, or critical at once.
  lemma FirstReading(celsius: Celsius, installed: bool) returns (m: Manager)
    requires celsius == Finite(70.0) || celsius == NotANumber
    ensures m == Operate(DEFAULT, Fresh(DEFAULT, installed, 0.0), [Sampling(Tctl(celsius), 0.0)])
    ensures m.machine.state == TelemetryDegraded && m.handlerInstalled == installed
    ensures m.machine.selected == if celsius.Finite? then Some("k10temp:tctl") else None
    ensures m.machine.lastObservation == if celsius.Finite? then Some(("k10temp:tctl", 0.0)) else None
    ensures m.peak == Some(celsius) && m.poll == Some(Poll(Some(Reading("k10temp:tctl", celsius, 0.0)), 0.0, true))
    ensures FatesIn(DEFAULT, Fresh(DEFAULT, installed, 0.0), [Sampling(Tctl(celsius), 0.0)]).sampled
         == [Reading("k10temp:tctl", celsius, 0.0)]
  {
    hide Charge, Credit, Select, Age;
    var start := Fresh(DEFAULT, installed, 0.0);
    SelectsTctl(celsius, None, 0.0);
    Operated(DEFAULT, start, [], Sampling(Tctl(celsius), 0.0));
    assert [] + [Sampling(Tctl(celsius), 0.0)] == [Sampling(Tctl(celsius), 0.0)];
    m := Sample(DEFAULT, start, Tctl(celsius), 0.0);
  }

  lemma NinetyIsCritical(m: Machine)
    requires m.state == TelemetryDegraded && (m.selected.None? || m.selected == Some("k10temp:tctl"))
    requires m.lastObservation.None? || m.lastObservation == Some(("k10temp:tctl", 0.0))
    ensures
      var r := Reading("k10temp:tctl", Finite(90.0), 1.0);
      var n := Update(DEFAULT, m, Some(r), 1.0);
      && n.state == Critical && n.reading == Some(r) && n.selected == Some(r.sensorId)
      && |n.transitions| > |m.transitions|
  {
  }

  // A second reading of 90 degrees makes it critical.
  lemma SecondReading(celsius: Celsius, installed: bool) returns (m: Manager)
    requires celsius == Finite(70.0) || celsius == NotANumber
    ensures
      var run := [Sampling(Tctl(celsius), 0.0), Sampling(Tctl(Finite(90.0)), 1.0)];
      var r := Reading("k10temp:tctl", Finite(90.0), 1.0);
      && m == Operate(DEFAULT, Fresh(DEFAULT, installed, 0.0), run)
      && m.machine.state == Critical && m.machine.reading == Some(r) && m.machine.selected == Some(r.sensorId)
      && m.poll == Some(Poll(Some(r), 1.0, !installed))
      && m.peak == (if installed then Some(celsius) else Peak(Some(celsius), Some(r)))
      && FatesIn(DEFAULT, Fresh(DEFAULT, installed, 0.0), run).sampled == [Reading("k10temp:tctl", celsius, 0.0), r]
  {
    hide Charge, Credit, Select, Accepts, Update, Operate, FatesIn;
    var first := FirstReading(celsius, installed);
    NinetyIsCritical(first.machine);
    var s0, s1 := Sampling(Tctl(celsius), 0.0), Sampling(Tctl(Finite(90.0)), 1.0);
    SelectsTctl(Finite(90.0), first.machine.selected, 1.0);
    Operated(DEFAULT, Fresh(DEFAULT, installed, 0.0), [s0], s1);
    assert [s0] + [s1] == [s0, s1];
    m := Sample(DEFAULT, first, Tctl(Finite(90.0)), 1.0);
  }

  /** A first reading that is not a number is reported as the peak although 90 degrees
      are sampled after it. */
  lemma LeadingNotANumberStays()
    ensures
      var run := [Sampling(Tctl(NotANumber), 0.0), Sampling(Tctl(Finite(90.0)), 1.0)];
      var m := Fresh(DEFAULT, false, 0.0);
      && Operate(DEFAULT, m, run).peak == Some(NotANumber)
      && Reading("k10temp:tctl", Finite(90.0), 1.0) in FatesIn(DEFAULT, m, run).sampled
  {
    hide Operate, FatesIn, Fresh;
    var m := SecondReading(NotANumber, false);
  }

  /** While the critical handler runs a status call reports 90 degrees, CRITICAL and a
      peak of 70; cancelling the poll there leaves it at 70, and only the handler's
      return raises it. */
  lemma PeakLagsBehindTheHandler()
    ensures
      var run := [Sampling(Tctl(Finite(70.0)), 0.0), Sampling(Tctl(Finite(90.0)), 1.0)];
      var now := Operate(DEFAULT, Fresh(DEFAULT, true, 0.0), run);
      && Act(DEFAULT, now, Asking(1.0)) == now
      && now.machine.state == Critical
      && now.machine.reading == Some(Reading("k10temp:tctl", Finite(90.0), 1.0))
      && now.peak == Some(Finite(70.0))
      && Act(DEFAULT, now, Cancelling).peak == Some(Finite(70.0)) && Act(DEFAULT, now, Cancelling).poll == None
      && Act(DEFAULT, now, Resuming).peak == Some(Finite(90.0))
  {
    hide Operate, FatesIn, Fresh;
    var now := SecondReading(Finite(70.0), true);
    assert InvalidReason(DEFAULT, now.machine.selected, now.machine.reading, 1.0) == None;
  }

  // ----- The status file, read by another process -----

  datatype Report = Report(
    enabled: bool, state: State, celsius: Option<Celsius>, sensorId: Option<string>,
    age: Option<real>, capacity: Capacity)

  function ReadStatus(c: Config, file: Option<Published>, now: real): Report {
    if !c.enabled then Report(false, Normal, None, c.sensorId, None, CapacityFor(c, Normal))
    else if file.None? || now - file.value.at < 0.0 || now - file.value.at > c.staleSeconds then
      Report(true, TelemetryDegraded, None, c.sensorId, None, CapacityFor(c, TelemetryDegraded))
    else
      var f := file.value;
      var age := (if f.age.Some? then f.age.value else 0.0) + (now - f.at);
      Report(f.enabled, f.state, f.celsius, f.sensorId, Some(if age > 0.0 then age else 0.0), f.capacity)
  }

  /** The reader: disabled is NORMAL; no file, one from the future or one older than the
      limit is telemetry-degraded; otherwise the file's own state, temperature and capacity,
      with the file's age added to the reading's. */
  lemma ReadsTheFile(c: Config, file: Option<Published>, now: real)
    ensures
      var report := ReadStatus(c, file, now);
      && (!c.enabled ==> !report.enabled && report.state == Normal && report.celsius == None)
      && (c.enabled && (file.None? || !(0.0 <= now - file.value.at <= c.staleSeconds)) ==>
            report.enabled && report.state == TelemetryDegraded && report.celsius == None && report.age == None)
      && (c.enabled && file.Some? && 0.0 <= now - file.value.at <= c.staleSeconds ==>
            && report.enabled == file.value.enabled && report.state == file.value.state
            && report.celsius == file.value.celsius && report.sensorId == file.value.sensorId
            && report.capacity == file.value.capacity
            && (file.value.age.Some? && file.value.age.value >= 0.0 ==>
                  report.age == Some(file.value.age.value + (now - file.value.at))))
  {
  }

  // The file repeats a reading taken when it was published.
  ghost predicate FileSound(c: Config, m: Manager) {
    && Sound(c, History(m.machine, m.accepted))
    && (m.accepted != [] ==> m.machine.lastObservation == Some((Last(m.accepted).sensorId, Last(m.accepted).observed)))
    && (m.poll.Some? && m.machine.state != TelemetryDegraded ==>
          m.machine.reading.Some? && m.machine.reading.value.observed == m.poll.value.at)
    && (m.file.Some? ==> FileTells(c, m))
  }

  ghost predicate FileTells(c: Config, m: Manager)
    requires m.file.Some?
  {
    var f := m.file.value;
    && f.enabled && f.capacity == CapacityFor(c, f.state)
    && (f.state != TelemetryDegraded ==>
          && m.basis.Some? && m.basis.value in m.accepted
          && f.celsius == Some(m.basis.value.celsius)
          && f.age == Some(0.0) && m.basis.value.observed == f.at
          && Band(c, m.basis.value) <= Severity(f.state))
  }

  // An update whose reading was taken now leaves degraded only with that reading.
  lemma UpdateReads(c: Config, m: Machine, accepted: seq<Reading>, reading: Option<Reading>, now: real)
    requires Sound(c, History(m, accepted))
    requires accepted != [] ==> m.lastObservation == Some((Last(accepted).sensorId, Last(accepted).observed))
    requires reading.Some? ==> reading.value.observed == now
    ensures
      var n := Update(c, m, reading, now);
      var more := if Accepts(c, m, reading, now) then accepted + [reading.value] else accepted;
      && (more != [] ==> n.lastObservation == Some((Last(more).sensorId, Last(more).observed)))
      && (n.state != TelemetryDegraded ==> n.reading.Some? && n.reading.value.observed == now)
  {
    hide Judge, InvalidReason, Age, Band;
    if InvalidReason(c, m.selected, reading, now).None? {
      UsableIsFinite(c, m, reading, now);
      if Accepts(c, m, reading, now) {
        JudgeKeepsReading(c, Absorb(m, reading.value), reading.value.celsius.degrees, now);
      }
    }
  }

  lemma UsableIsFinite(c: Config, m: Machine, reading: Option<Reading>, now: real)
    requires InvalidReason(c, m.selected, reading, now).None?
    ensures reading.Some? && reading.value.celsius.Finite?
  {
  }

  lemma JudgeKeepsReading(c: Config, m: Machine, degrees: real, now: real)
    ensures Judge(c, m, degrees, now).reading == m.reading
    ensures Judge(c, m, degrees, now).lastObservation == m.lastObservation
  {
  }

  lemma SampledNow(c: Config, m: Manager, items: Option<seq<Item>>, now: real)
    ensures Sampled(c, m, items, now).Some? ==> Sampled(c, m, items, now).value.observed == now
  {
  }

  lemma FileStillTells(c: Config, m: Manager, n: Manager)
    requires m.file.Some? && FileTells(c, m)
    requires n.file == m.file && n.basis == m.basis && forall r :: r in m.accepted ==> r in n.accepted
    ensures FileTells(c, n)
  {
  }

  lemma ObserveKeepsFileSound(c: Config, m: Manager, items: Option<seq<Item>>, now: real)
    requires c.Valid() && Keyed(m) && FileSound(c, m)
    ensures FileSound(c, Observe(c, m, items, now))
  {
    hide Sound, Update, Accepts, Charge, Credit, Sampled, CallsHandler, FileTells, Keyed;
    SampledNow(c, m, items, now);
    StepIsSound(c, History(m.machine, m.accepted), Telemetry(Sampled(c, m, items, now), now));
    UpdateReads(c, m.machine, m.accepted, Sampled(c, m, items, now), now);
    if m.file.Some? {
      FileStillTells(c, m, Observe(c, m, items, now));
    }
  }

  lemma SampleKeepsFileSound(c: Config, m: Manager, items: Option<seq<Item>>, now: real)
    requires c.Valid() && Keyed(m) && FileSound(c, m)
    ensures FileSound(c, Sample(c, m, items, now))
  {
    hide Observe, Sound;
    ObserveKeepsFileSound(c, m, items, now);
  }

  lemma StatusKeepsFileSound(c: Config, m: Manager, now: real)
    requires c.Valid() && FileSound(c, m)
    ensures FileSound(c, Status(c, m, now))
  {
  }

  lemma PublishKeepsFileSound(c: Config, m: Manager)
    requires c.Valid() && FileSound(c, m)
    ensures FileSound(c, Publish(c, m))
  {
    if m.poll.Some? {
      StatusKeepsFileSound(c, m, m.poll.value.at);
    }
  }

  lemma {:induction false} EveryFileIsSound(c: Config, installed: bool, start: real, activities: seq<Activity>)
    requires c.Valid() && c.enabled
    ensures FileSound(c, Operate(c, Fresh(c, installed, start), activities))
  {
    hide Sample, Publish, Status;
    if activities == [] {
    } else {
      EveryFileIsSound(c, installed, start, activities[..|activities| - 1]);
      var m := Operate(c, Fresh(c, installed, start), activities[..|activities| - 1]);
      match Last(activities)
      case Sampling(items, at) => SampleKeepsFileSound(c, m, items, at);
      case Publishing => PublishKeepsFileSound(c, m);
      case Asking(at) => StatusKeepsFileSound(c, m, at);
      case _ =>
    }
  }

  /** Freshness at a distance.  A poll publishes with the time at which it read the
      sensor, so whatever the manager has been through, a reader that is told a state
      other than telemetry-degraded is told the true age of the reading behind it, which
      is at most the staleness limit, a state at least as severe as that reading's entry
      band, and the capacity of that state. */
  lemma ReportedStateIsFresh(c: Config, installed: bool, start: real, activities: seq<Activity>, now: real)
    requires c.Valid() && c.enabled
    ensures
      var m := Operate(c, Fresh(c, installed, start), activities);
      var report := ReadStatus(c, m.file, now);
      && report.enabled
      && report.capacity == CapacityFor(c, report.state)
      && (report.state != TelemetryDegraded ==>
            && m.basis.Some? && m.basis.value in m.accepted
            && report.age == Some(now - m.basis.value.observed)
            && 0.0 <= now - m.basis.value.observed <= c.staleSeconds
            && report.celsius == Some(m.basis.value.celsius)
            && Band(c, m.basis.value) <= Severity(report.state))
  {
    hide Operate, Sound, Band, CapacityFor, Fresh;
    EveryFileIsSound(c, installed, start, activities);
  }

  /** The bound is attained: a status read at the last readable moment is exactly as old
      as the limit. */
  lemma FreshnessBoundIsAttained()
    ensures
      var run := [Sampling(Tctl(Finite(70.0)), 0.0), Sampling(Tctl(Finite(90.0)), 1.0), Publishing];
      var m := Operate(DEFAULT, Fresh(DEFAULT, false, 0.0), run);
      var report := ReadStatus(DEFAULT, m.file, 1.0 + DEFAULT.staleSeconds);
      report.state == Critical && report.age == Some(DEFAULT.staleSeconds)
  {
    hide Operate, FatesIn, Fresh;
    var m := SecondReading(Finite(70.0), false);
    var done := [Sampling(Tctl(Finite(70.0)), 0.0), Sampling(Tctl(Finite(90.0)), 1.0)];
    Operated(DEFAULT, Fresh(DEFAULT, false, 0.0), done, Publishing);
    assert done + [Publishing] == [done[0], done[1], Publishing];
    assert InvalidReason(DEFAULT, m.machine.selected, m.machine.reading, 1.0) == None;
  }
}
