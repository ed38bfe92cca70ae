/**
 The setup runner as it runs: one long coroutine that saves its copy of the document, waits,
 and goes on, and the reconciliation of all setups after a restart.

 The object keeps its history, so that every write is proved to be the one specified.
 */
module SetupService {
  import opened Common
  import opened Setup
  import opened SetupEndings
  import opened SetupRequests

  // What the others do while the runner waits, and how the wait ends.
  datatype Wait = Wait(others: seq<Event>, result: Ending, idle: bool, id: Id)

  predicate OfOthers(events: seq<Event>) {
    forall k :: 0 <= k < |events| ==> !events[k].Start? && !events[k].Resume?
  }

  function Completed(events: seq<Event>): seq<Happening> {
    seq(|events|, k requires 0 <= k < |events| => Completes(events[k]))
  }

  function Script(waits: seq<Wait>): seq<Happening> {
    if waits == [] then []
    else Script(waits[..|waits| - 1]) + Completed(Last(waits).others) + [Ends(Last(waits))]
  }

  function Ends(wait: Wait): Happening {
    Completes(Resume(wait.result, wait.idle, wait.id))
  }

  // All worlds written in a run without deaths.
  function Worlds(plan: string, w: World, happenings: seq<Happening>): seq<World> {
    if happenings == [] then []
    else
      var init := happenings[..|happenings| - 1];
      Worlds(plan, w, init) + Segment(plan, Run(plan, w, init), Last(happenings).event)
  }

  lemma OthersLeaveTheRunner(plan: string, w: World, e: Event)
    requires !e.Start? && !e.Resume?
    ensures Last(Segment(plan, w, e)).runner == w.runner
  {
  }

  predicate AllOfOthers(waits: seq<Wait>) {
    forall k :: 0 <= k < |waits| ==> OfOthers(waits[k].others)
  }

  lemma ResumesMaking(plan: string, w: World, d: Doc, wait: Wait)
    requires w.runner == Some(Creating(d))
    ensures Resumed(plan, w, wait.result, wait.idle, wait.id) == Created(plan, w, d, wait.result, wait.id)
  {
  }

  class Service {
    const plan: string
    ghost const start: World
    var doc: Doc
    var names: map<string, Maker>
    var made: nat
    var handlers: multiset<Handler>
    var runner: Option<Runner>
    ghost var done: seq<Happening>
    ghost var log: seq<World>
    ghost var waited: Option<Runner> // where the runner waited last

    constructor (plan: string, names: map<string, Maker>)
      ensures Valid() && this.plan == plan && start == Initial(names) && done == []
    {
      this.plan, this.names := plan, names;
      doc, made, handlers, runner := Doc(Queued, false, None, None), 0, multiset{}, None;
      start, done, log, waited := Initial(names), [], [], None;
    }

    function State(): World
      reads this
    {
      World(doc, names, made, runner, handlers)
    }

    // Between segments: the world is where the run so far leads, by the writes specified.
    ghost predicate Valid()
      reads this
    {
      State() == Run(plan, start, done) && log == Worlds(plan, start, done)
    }

    // Within a segment: these worlds are still to be written.
    ghost predicate Midway(event: Event, rest: seq<World>)
      reads this
    {
      log + rest == Worlds(plan, start, done) + Segment(plan, Run(plan, start, done), event)
    }

    // The setup has ended after a wait other than for its Worker to be made, and as the
    // wait and its result decide.
    ghost predicate EndedSo(waits: seq<Wait>, used: nat)
      reads this
    {
      && 0 < used <= |waits| && waited.Some? && !waited.value.Creating?
      && EndsSo(waited.value, waits[used - 1].result, doc)
    }

    ghost method EndSegment(event: Event)
      requires Midway(event, []) && log != [] && State() == Last(log)
      modifies this`done
      ensures Valid() && done == old(done) + [Completes(event)]
    {
      hide Segment;
      var trace := Segment(plan, Run(plan, start, done), event);
      assert log == log + [] == Worlds(plan, start, done) + trace;
      assert Last(log) == Last(trace);
      done := done + [Completes(event)];
      assert done[..|done| - 1] == old(done);
    }

    // Store the document.
    method Write(d: Doc, ghost event: Event, ghost rest: seq<World>)
      requires Midway(event, [Save(State(), d)] + rest)
      modifies this`doc, this`log
      ensures State() == Save(old(State()), d) && Midway(event, rest) && log != [] && State() == Last(log)
    {
      hide Segment, Worlds, Run;
      doc := d;
      assert log + ([State()] + rest) == (log + [State()]) + rest;
      log := log + [State()];
    }

    // The handlers and other setups, while the runner waits.
    method Others(events: seq<Event>)
      requires Valid() && OfOthers(events)
      modifies this
      ensures Valid() && runner == old(runner) && done == old(done) + Completed(events)
      ensures waited == old(waited)
    {
      hide Segment, Worlds, Run;
      for i := 0 to |events|
        invariant Valid() && runner == old(runner) && done == old(done) + Completed(events[..i])
        invariant waited == old(waited)
      {
        var trace := Segment(plan, State(), events[i]);
        OthersLeaveTheRunner(plan, State(), events[i]);
        var w := Last(trace);
        doc, names, made, handlers := w.doc, w.names, w.made, w.handlers;
        log := log + trace;
        EndSegment(events[i]);
        assert events[..i + 1] == events[..i] + [events[i]];
        assert Completed(events[..i + 1]) == Completed(events[..i]) + [Completes(events[i])];
      }
      assert events[..|events|] == events;
    }

    // A write elsewhere than to the document.
    ghost method Note(event: Event, rest: seq<World>)
      requires Midway(event, [State()] + rest)
      modifies this`log
      ensures Midway(event, rest) && log != [] && State() == Last(log)
    {
      hide Segment, Worlds, Run;
      assert log + ([State()] + rest) == (log + [State()]) + rest;
      log := log + [State()];
    }

    // Wait: what was read and saved so far stays with the runner.
    method Pause(at: Runner, ghost event: Event)
      requires Midway(event, [State().(runner := Some(at))])
      modifies this`runner, this`done, this`log
      ensures Valid() && runner == Some(at) && done == old(done) + [Completes(event)]
    {
      hide Segment, Worlds, Run;
      runner := Some(at);
      assert [State()] == [State()] + [];
      Note(event, []);
      EndSegment(event);
    }

    // Save the document and wait.
    method SaveAndPause(at: Runner, ghost event: Event)
      requires Midway(event, [Save(State(), at.doc).(runner := Some(at))])
      modifies this`doc, this`runner, this`done, this`log
      ensures Valid() && runner == Some(at) && done == old(done) + [Completes(event)]
    {
      doc := at.doc;
      Pause(at, event);
    }

    // Save the document and finish.
    method SaveAndFinish(d: Doc, ghost event: Event)
      requires Midway(event, [Save(State(), d).(runner := None)])
      modifies this`doc, this`runner, this`done, this`log
      ensures Valid() && runner.None? && done == old(done) + [Completes(event)] && doc == d
    {
      hide Segment, Worlds, Run;
      runner := None;
      assert [State().(doc := d)] + [] == [State().(doc := d)];
      Write(d, event, []);
      EndSegment(event);
    }

    // The exception handler reloads the document.
    method Fail(ghost event: Event)
      requires Midway(event, Fails(State()))
      modifies this`doc, this`runner, this`done, this`log
      ensures Valid() && runner.None? && done == old(done) + [Completes(event)]
      ensures doc == old(doc).(state := Failed)
    {
      SaveAndFinish(At(doc, Failed), event);
    }

    // The next wait of the script: the others act, then it ends.
    method Await(waits: seq<Wait>, used: nat, ghost first: seq<Happening>) returns (wait: Wait, ghost event: Event)
      requires Valid() && used < |waits| && done == first + Script(waits[..used])
      requires OfOthers(waits[used].others)
      modifies this
      ensures Valid() && runner == old(runner) == waited && wait == waits[used]
      ensures done + [Completes(event)] == first + Script(waits[..used + 1])
      ensures event == Resume(wait.result, wait.idle, wait.id)
      ensures Midway(event, Resumed(plan, State(), wait.result, wait.idle, wait.id))
    {
      hide Resumed, Worlds, Run;
      wait := waits[used];
      waited := runner;
      Others(wait.others);
      event := Resume(wait.result, wait.idle, wait.id);
      assert waits[..used + 1][..used] == waits[..used];
    }

    // Stop the Worker if it runs, then record the cancellation with the copy at hand.
    method StopAndCancel(setup: Doc, idle: bool, ghost event: Event, waits: seq<Wait>, used: nat,
        ghost first: seq<Happening>)
      returns (now: nat)
      requires Midway(event, Cancels(State(), setup, idle))
      requires used <= |waits| && AllOfOthers(waits) && done + [Completes(event)] == first + Script(waits[..used])
      modifies this
      ensures Valid() && used <= now <= |waits| && done == first + Script(waits[..now])
      ensures now == |waits| || runner.None?
      ensures runner.None? && now == used ==> waited == old(waited) && doc.state == Cancelled
      ensures runner.None? && now > used ==> EndedSo(waits, now)
      ensures
        runner.None? && 0 < used && old(waited).Some? && Cooling(old(waited).value) && setup.cancelRequested ==>
        EndedSo(waits, now)
    {
      hide Segment, Worlds, Run, Script;
      now := used;
      if setup.worker.None? || idle {
        SaveAndFinish(At(setup, Cancelled), event);
        return;
      }
      Pause(Stopping(setup), event);
      if now == |waits| {
        return;
      }
      ghost var ended;
      var wait;
      wait, ended := Await(waits, now, first);
      now := now + 1;
      if wait.result == Fine {
        SaveAndFinish(At(setup, Cancelled), ended);
      } else {
        Fail(ended);
      }
    }

    // create_worker, up to storing its id with the setup.
    method MakeWorker(saved: Doc, ghost event: Event, waits: seq<Wait>, ghost first: seq<Happening>)
      returns (made: bool, setup: Doc, ghost at: Event, used: nat)
      requires Midway(event, BeginsCreating(plan, State(), saved))
      requires AllOfOthers(waits) && done + [Completes(event)] == first
      modifies this
      ensures used <= |waits|
      ensures made ==> done + [Completes(at)] == first + Script(waits[..used]) && Midway(at, GoesOn(State(), setup))
      ensures !made ==> Valid() && done == first + Script(waits[..used]) && (used == |waits| || runner.None?)
      ensures !made && runner.None? ==> doc.state == Failed
      ensures used > 0 && (made || runner.None?) ==> waited.Some? && waited.value.Creating?
    {
      hide Segment, Worlds, Run, GoesOn, Resumed;
      made, setup, at, used := false, saved, event, 0;
      assert first == first + Script(waits[..0]);
      if plan in names {
        Fail(event);
        return;
      }
      Pause(Creating(setup), event);
      if |waits| == 0 {
        return;
      }
      var wait;
      wait, at := Await(waits, 0, first);
      ResumesMaking(plan, State(), setup, wait);
      used := 1;
      if plan in names || wait.result == Raises || wait.result == Thermal {
        Fail(at);
        return;
      }
      made := StoreWorker(setup, wait, at);
      if made {
        setup := setup.(worker := Some(wait.id));
      }
    }

    // The Worker is stored and registered; its id is stored last.
    method StoreWorker(saved: Doc, wait: Wait, ghost event: Event) returns (made: bool)
      requires plan !in names && (wait.result == Fine || wait.result == Negative || wait.result == Late)
      requires Midway(event, Created(plan, State(), saved, wait.result, wait.id))
      modifies this
      ensures made ==> done == old(done) && Midway(event, GoesOn(State(), saved.(worker := Some(wait.id))))
      ensures !made ==> Valid() && runner.None? && done == old(done) + [Completes(event)] && doc.state == Failed
      ensures waited == old(waited)
    {
      hide Segment, Worlds, Run, GoesOn, Fails;
      ghost var before := State();
      var others := names;
      names, this.made := names[plan := ThisSetup], this.made + 1;
      made := wait.result == Fine;
      if wait.result == Negative {
        Note(event, [before] + Fails(before));
        names, this.made := others, this.made - 1;
        Note(event, Fails(before));
        Fail(event);
      } else if wait.result == Late {
        Note(event, Fails(State()));
        Fail(event);
      } else {
        var setup := saved.(worker := Some(wait.id));
        Note(event, Records(State(), setup));
        Write(setup, event, GoesOn(Save(State(), setup), setup));
      }
    }

    // supervisor.start, again and again while the machine is too hot.
    method StartWorker(saved: Doc, ghost event: Event, waits: seq<Wait>, from: nat, ghost first: seq<Happening>)
      returns (ready: bool, setup: Doc, result: Ending, ghost at: Event, used: nat)
      requires Midway(event, BeginsStart(State(), saved)) && from <= |waits| && AllOfOthers(waits)
      requires done + [Completes(event)] == first + Script(waits[..from])
      modifies this
      ensures used <= |waits|
      ensures ready ==> done + [Completes(at)] == first + Script(waits[..used])
      ensures ready ==> Midway(at, Identifies(State(), setup, result)) && (result == Fine || result == Late)
      ensures !ready ==> Valid() && done == first + Script(waits[..used]) && (used == |waits| || runner.None?)
      ensures ready ==> used > from && waited == Some(Starting(setup)) && waits[used - 1].result == result
      ensures !ready && runner.None? ==> used > from && EndedSo(waits, used)
    {
      hide Segment, Worlds, Run, Identifies, Script, Cancels, Fails, EndedSo, EndsSo;
      ready, setup, result, at, used := false, saved, Fine, event, from;
      while true
        invariant used <= |waits| && done + [Completes(at)] == first + Script(waits[..used])
        invariant Midway(at, BeginsStart(State(), setup)) && used >= from
        decreases |waits| - used
      {
        setup := At(setup, StartingWorker);
        SaveAndPause(Starting(setup), at);
        if used == |waits| {
          return;
        }
        var wait;
        wait, at := Await(waits, used, first);
        used := used + 1;
        if wait.result == Fine || wait.result == Late {
          ready, result := true, wait.result;
          return;
        }
        if wait.result != Thermal {
          Fail(at);
          ShowFailedStart(waits, used);
          return;
        }
        setup := At(setup, WaitingForThermalCapacity);
        SaveAndPause(CoolingToStart(setup), at);
        if used == |waits| {
          return;
        }
        wait, at := Await(waits, used, first);
        used := used + 1;
        setup := doc;
        if setup.cancelRequested {
          used := StopAndCancel(setup, wait.idle, at, waits, used, first);
          return;
        }
      }
    }

    // The qualification, again and again while the machine is too hot.
    method QualifyWorker(saved: Doc, ghost event: Event, waits: seq<Wait>, from: nat, ghost first: seq<Happening>)
      returns (used: nat)
      requires Midway(event, BeginsProbe(State(), saved)) && from <= |waits| && AllOfOthers(waits)
      requires done + [Completes(event)] == first + Script(waits[..from])
      modifies this
      ensures used <= |waits| && Valid() && done == first + Script(waits[..used])
      ensures used == |waits| || runner.None?
      ensures runner.None? ==> used > from && EndedSo(waits, used)
    {
      hide Segment, Worlds, Run, Script, Cancels, Fails, EndedSo, EndsSo;
      var setup := saved;
      ghost var at := event;
      used := from;
      while true
        invariant used <= |waits| && done + [Completes(at)] == first + Script(waits[..used])
        invariant Midway(at, BeginsProbe(State(), setup)) && used >= from
        decreases |waits| - used
      {
        setup := At(setup, Qualifying);
        SaveAndPause(Probing(setup), at);
        if used == |waits| {
          return;
        }
        var wait;
        wait, at := Await(waits, used, first);
        used := used + 1;
        if wait.result != Thermal {
          Judge(setup, wait.result, at);
          ShowEnding(waits, used);
          return;
        }
        setup := At(setup, WaitingForThermalCapacity);
        SaveAndPause(CoolingToProbe(setup), at);
        if used == |waits| {
          return;
        }
        wait, at := Await(waits, used, first);
        used := used + 1;
        setup := doc;
        if setup.cancelRequested {
          used := StopAndCancel(setup, wait.idle, at, waits, used, first);
          return;
        }
      }
    }

    // How the whole runner ends.  After a wait the setup is stored as awaiting publication,
    // cancelled or failed, the first exactly if the wait was for a probe that passed, and
    // as the wait and its result decide; without one it was not its turn, or it is
    // cancelled or failed.
    ghost predicate Concluded(waits: seq<Wait>, used: nat, taken: Doc)
      reads this
      requires used <= |waits|
    {
      if used > 0 then
        && waited.Some?
        && (doc.state == AwaitingPublication || doc.state == Cancelled || doc.state == Failed)
        && (doc.state == AwaitingPublication <==> waited.value.Probing? && waits[used - 1].result == Fine)
        && (!waited.value.Creating? ==> EndsSo(waited.value, waits[used - 1].result, doc))
      else if taken.state != Queued && taken.state != WaitingForThermalCapacity then doc == taken
      else doc.state == Cancelled || doc.state == Failed
    }

    lemma Conclude(waits: seq<Wait>, used: nat, taken: Doc)
      requires used <= |waits|
      requires
        || runner.Some?
        || EndedSo(waits, used)
        || (used == 0 && taken.state != Queued && taken.state != WaitingForThermalCapacity && doc == taken)
        || ((doc.state == Cancelled || doc.state == Failed)
            && if used == 0 then taken.state == Queued || taken.state == WaitingForThermalCapacity
               else waited.Some? && waited.value.Creating?)
      ensures runner.None? ==> Concluded(waits, used, taken)
    {
    }

    lemma ShowFailedStart(waits: seq<Wait>, used: nat)
      requires 0 < used <= |waits| && waited.Some? && waited.value.Starting? && doc.state == Failed
      ensures EndedSo(waits, used)
    {
    }

    lemma ShowEnding(waits: seq<Wait>, used: nat)
      requires 0 < used <= |waits| && waited.Some? && !waited.value.Creating?
      requires EndsSo(waited.value, waits[used - 1].result, doc)
      ensures EndedSo(waits, used)
    {
    }

    // The probe has ended: keep the evidence, whatever it says.
    method Judge(probed: Doc, result: Ending, ghost event: Event)
      requires runner == Some(Probing(probed)) && result != Thermal
      requires Midway(event, Resumed(plan, State(), result, false, ""))
      modifies this`doc, this`runner, this`done, this`log
      ensures Valid() && runner.None? && done == old(done) + [Completes(event)]
      ensures EndsSo(Probing(probed), result, doc)
    {
      hide Segment, Worlds, Run, Fails;
      if result == Late || result == Raises {
        Fail(event);
        return;
      }
      var setup := probed.(qualification := Some(result == Fine));
      if result == Fine {
        Write(setup, event, [Save(State(), At(setup, AwaitingPublication)).(runner := None)]);
        SaveAndFinish(At(setup, AwaitingPublication), event);
      } else {
        Write(setup, event, Fails(Save(State(), setup)));
        Fail(event);
      }
    }

    /** The whole runner, as far as the script of its waits goes: it writes exactly the
        worlds of that run, and ends, as its last wait and the result decide, or still
        waits where the script stops. */
    method RunSetup(idle: bool, waits: seq<Wait>) returns (used: nat)
      requires Valid() && runner.None? && AllOfOthers(waits)
      modifies this
      ensures Valid() && used <= |waits|
      ensures done == old(done) + [Completes(Start(idle))] + Script(waits[..used])
      ensures used == |waits| || runner.None?
      ensures runner.None? ==> Concluded(waits, used, old(doc))
    {
      hide Segment, Worlds, Run, Cancels, Fails, BeginsStart, BeginsProbe, BeginsCreating, Script, EndedSo, EndsSo,
           Concluded;
      ghost var taken := doc;
      ghost var at := Start(idle);
      ghost var first := done + [Completes(at)];
      NothingScripted(waits, first);
      used := 0;
      StartsTaking(plan, State(), idle);
      var setup := doc;
      if setup.state != Queued && setup.state != WaitingForThermalCapacity {
        assert [State()] == [State()] + [];
        Note(at, []);
        EndSegment(at);
        Conclude(waits, used, taken);
        return;
      }
      if setup.cancelRequested {
        used := StopAndCancel(setup, idle, at, waits, used, first);
        Conclude(waits, used, taken);
        return;
      }
      setup := At(setup, ApplyingPolicy);
      if setup.worker.Some? {
        Write(setup, at, BeginsStart(Save(State(), setup), setup));
      } else {
        ghost var creating := At(setup, CreatingWorker);
        Write(setup, at, [Save(State(), creating)] + BeginsCreating(plan, Save(State(), creating), creating));
        setup := At(setup, CreatingWorker);
        Write(setup, at, BeginsCreating(plan, Save(State(), setup), setup));
        var made;
        made, setup, at, used := MakeWorker(setup, at, waits, first);
        if !made {
          Conclude(waits, used, taken);
          return;
        }
      }
      if setup.cancelRequested {
        used := StopAndCancel(setup, true, at, waits, used, first);
        Conclude(waits, used, taken);
        return;
      }
      var ready, result;
      ready, setup, result, at, used := StartWorker(setup, at, waits, used, first);
      if !ready {
        Conclude(waits, used, taken);
        return;
      }
      setup := At(setup, VerifyingIdentity);
      if result == Late {
        Write(setup, at, Fails(Save(State(), setup)));
        Fail(at);
        ShowFailedStart(waits, used);
        Conclude(waits, used, taken);
        return;
      }
      Write(setup, at, BeginsProbe(Save(State(), setup), setup));
      used := QualifyWorker(setup, at, waits, used, first);
      Conclude(waits, used, taken);
    }
  }

  lemma NothingScripted(waits: seq<Wait>, first: seq<Happening>)
    ensures first + Script(waits[..0]) == first
  {
  }

  lemma StartsTaking(plan: string, w: World, idle: bool)
    ensures Segment(plan, w, Start(idle)) == Started(plan, w, idle)
  {
  }

  /** After a restart every stored setup is taken up again, given back for review, or
      given up; `revised` tells of each whether its guided profile has a revision. */
  method ReconcileSetups(stored: seq<Doc>, revised: seq<bool>) returns (docs: seq<Doc>, scheduled: set<nat>)
    requires |revised| == |stored|
    ensures |docs| == |stored|
    ensures forall i :: 0 <= i < |stored| ==> docs[i] == Reconciled(stored[i], revised[i])
    ensures forall i: nat :: i in scheduled <==> i < |docs| && docs[i].state == Queued
  {
    docs, scheduled := stored, {};
    for i := 0 to |stored|
      invariant |docs| == |stored|
      invariant forall k :: 0 <= k < i ==> docs[k] == Reconciled(stored[k], revised[k])
      invariant forall k :: i <= k < |stored| ==> docs[k] == stored[k]
      invariant forall k: nat :: k in scheduled <==> k < i && docs[k].state == Queued
    {
      var d := docs[i];
      if Unfinished(d.state) {
        docs := docs[i := At(d, Queued)];
        scheduled := scheduled + {i};
      } else if d.state == Publishing {
        if !revised[i] {
          docs := docs[i := At(d, AwaitingPublication)];
          continue;
        }
        docs := docs[i := At(d, Failed)];
      } else if d.state == VerifyingRoute {
        docs := docs[i := At(d, Failed)];
      }
    }
  }
}
