/**
 What holds in every run of a guided setup: nothing is published without a passed
 qualification, a recorded Worker is never lost, a setup makes a second Worker exactly
 when somebody takes the name of one it has not recorded yet, and reconciling twice is
 reconciling once.
 */
module SetupSafety {
  import opened Common
  import opened Setup

  // ----- Evidence before publication -----

  predicate NeedsEvidence(s: State) {
    s == AwaitingPublication || s == Publishing || s == VerifyingRoute || s == Succeeded
  }

  predicate Evidenced(d: Doc) {
    NeedsEvidence(d.state) ==> d.qualification == Some(true)
  }

  // The stored document, every copy that may still be written as published, and the
  // runner's copy where it is saved in the state it is in.
  ghost predicate EvidenceHolds(w: World) {
    && Evidenced(w.doc)
    && HandlersPassed(w.handlers)
    && (w.runner.Some? && (w.runner.value.Creating? || w.runner.value.Probing?) ==>
          !NeedsEvidence(w.runner.value.doc.state))
  }

  ghost predicate HandlersPassed(handlers: multiset<Handler>) {
    forall h :: h in handlers && h.Exercising? ==> h.doc.qualification == Some(true)
  }

  ghost predicate AllEvidenced(trace: seq<World>) {
    forall k :: 0 <= k < |trace| ==> EvidenceHolds(trace[k])
  }

  lemma PartsKeepEvidence(plan: string, w: World, d: Doc, idle: bool)
    requires EvidenceHolds(w)
    ensures AllEvidenced(Fails(w)) && AllEvidenced(BeginsStart(w, d)) && AllEvidenced(BeginsProbe(w, d))
    ensures AllEvidenced(Cancels(w, d, idle))
    ensures !NeedsEvidence(d.state) ==> AllEvidenced(BeginsCreating(plan, w, d)) && AllEvidenced(Records(w, d))
  {
  }

  lemma StartKeepsEvidence(plan: string, w: World, idle: bool)
    requires EvidenceHolds(w)
    ensures AllEvidenced(Started(plan, w, idle))
  {
  }

  lemma CreationKeepsEvidence(plan: string, w: World, d: Doc, result: Ending, id: Id)
    requires EvidenceHolds(w) && !NeedsEvidence(d.state)
    ensures AllEvidenced(Created(plan, w, d, result, id))
  {
  }

  lemma ResumeKeepsEvidence(plan: string, w: World, result: Ending, idle: bool, id: Id)
    requires EvidenceHolds(w)
    ensures AllEvidenced(Resumed(plan, w, result, idle, id))
  {
    hide Cancels, BeginsStart, BeginsProbe, Fails, Created, HandlersPassed;
    PartsKeepEvidence(plan, w, w.doc, idle);
    if w.runner.Some? {
      var d := w.runner.value.doc;
      if w.runner.value.Creating? {
        CreationKeepsEvidence(plan, w, d, result, id);
      } else if w.runner.value.Probing? {
        PartsKeepEvidence(plan, Save(w, d.(qualification := Some(false))), d, idle);
      } else if w.runner.value.Starting? {
        PartsKeepEvidence(plan, Save(w, At(d, VerifyingIdentity)), At(d, VerifyingIdentity), idle);
      }
    }
  }

  lemma RequestKeepsEvidence(w: World, idle: bool, same: bool)
    requires EvidenceHolds(w)
    ensures AllEvidenced(CancelRequest(w, idle)) && AllEvidenced(RetryRequest(w, same))
  {
  }

  lemma HandlersStayPassed(handlers: multiset<Handler>, h: Handler)
    requires HandlersPassed(handlers)
    ensures HandlersPassed(handlers - multiset{h})
    ensures h.Cancelling? ==> HandlersPassed(handlers + multiset{h})
    ensures h.Exercising? && h in handlers ==> h.doc.qualification == Some(true)
  {
  }

  lemma PublishKeepsEvidence(w: World, reviewed: bool, result: Ending)
    requires EvidenceHolds(w)
    ensures AllEvidenced(PublishRequest(w, reviewed, result))
  {
  }

  lemma HandlerKeepsEvidence(w: World, d: Doc, result: Ending)
    requires EvidenceHolds(w)
    ensures AllEvidenced(CancelFinishes(w, d, result)) && AllEvidenced(PublishFinishes(w, d, result))
  {
    hide HandlersPassed;
    HandlersStayPassed(w.handlers, Cancelling(d));
    HandlersStayPassed(w.handlers, Exercising(d));
  }

  lemma SegmentKeepsEvidence(plan: string, w: World, e: Event)
    requires EvidenceHolds(w)
    ensures AllEvidenced(Segment(plan, w, e))
  {
    hide Started, Resumed, CancelRequest, RetryRequest, PublishRequest, CancelFinishes, PublishFinishes, HandlersPassed;
    match e
    case Start(idle) => StartKeepsEvidence(plan, w, idle);
    case Resume(result, idle, id) => ResumeKeepsEvidence(plan, w, result, idle, id);
    case Cancel(idle) => RequestKeepsEvidence(w, idle, false);
    case Retry(same) => RequestKeepsEvidence(w, false, same);
    case Publish(reviewed, result) => PublishKeepsEvidence(w, reviewed, result);
    case ResumeCancel(d, result) => HandlerKeepsEvidence(w, d, result);
    case ResumePublish(d, result) => HandlerKeepsEvidence(w, d, result);
    case _ =>
  }

  /** Evidence before publication: over every interleaving of the setup runner, cancel,
      retry and publish, and however often the process dies in the middle of them, a
      setup stored as awaiting publication, publishing, verifying its route or succeeded
      carries a qualification that passed. */
  lemma {:induction false} EveryRunHasEvidence(plan: string, names: map<string, Maker>, happenings: seq<Happening>)
    ensures EvidenceHolds(Run(plan, Initial(names), happenings))
    ensures NeedsEvidence(Run(plan, Initial(names), happenings).doc.state) ==>
      Run(plan, Initial(names), happenings).doc.qualification == Some(true)
  {
    hide Segment;
    if happenings != [] {
      var init := happenings[..|happenings| - 1];
      EveryRunHasEvidence(plan, names, init);
      SegmentKeepsEvidence(plan, Run(plan, Initial(names), init), Last(happenings).event);
    }
  }

  // ----- The recorded Worker -----

  // Every copy knows the Worker the stored document knows; while there is none, only
  // the runner making it can be waiting.
  ghost predicate Settled(w: World) {
    && Early(w.doc)
    && (w.runner.Some? ==> w.runner.value.doc.worker == w.doc.worker)
    && (w.runner.Some? ==> (w.runner.value.Creating? <==> w.doc.worker.None?))
    && HandlersKnow(w.handlers, w.doc.worker)
    && (w.doc.worker.None? && w.runner.None? ==> Waits(w.doc.state))
  }

  ghost predicate HandlersKnow(handlers: multiset<Handler>, worker: Option<Id>) {
    forall h :: h in handlers ==> h.doc.worker == worker && worker.Some?
  }

  lemma HandlersComeAndGo(handlers: multiset<Handler>, worker: Option<Id>, h: Handler)
    requires HandlersKnow(handlers, worker)
    ensures HandlersKnow(handlers - multiset{h}, worker)
    ensures h in handlers ==> h.doc.worker == worker && worker.Some?
    ensures h.doc.worker == worker && worker.Some? ==> HandlersKnow(handlers + multiset{h}, worker)
    ensures HandlersKnow(multiset{}, worker)
  {
  }

  predicate Waits(s: State) {
    s == Queued || s == Failed || s == Cancelled
  }

  // No Worker is recorded only before the first start.
  predicate Early(d: Doc) {
    d.worker.None? ==> Waits(d.state) || d.state == ApplyingPolicy || d.state == CreatingWorker
  }

  predicate MakesWorker(w: World, e: Event) {
    e.Resume? && w.runner.Some? && w.runner.value.Creating?
  }

  // Same Workers as before.
  predicate Same(w: World, v: World) {
    v.doc.worker == w.doc.worker && v.made == w.made && v.names == w.names
  }

  ghost predicate Keeps(w: World, trace: seq<World>) {
    && trace != [] && Settled(Last(trace))
    && forall k :: 0 <= k < |trace| ==> Early(trace[k].doc) && Same(w, trace[k])
  }

  lemma PartsNow(w: World, d: Doc, idle: bool)
    requires Settled(w) && d.worker == w.doc.worker
    ensures Keeps(w, [w]) && Keeps(w, Fails(w)) && Keeps(w, Cancels(w, d, idle))
    ensures w.runner.Some? && !w.runner.value.Creating? ==> Keeps(w, BeginsStart(w, d)) && Keeps(w, BeginsProbe(w, d))
  {
  }

  lemma PartsLater(plan: string, u: World, saved: Doc, d: Doc, idle: bool)
    requires Settled(u) && Early(saved) && d.worker == saved.worker == u.doc.worker
    ensures
      var w := Save(u, saved);
      && Keeps(w, Fails(w))
      && (d.worker.Some? ==> Keeps(w, BeginsStart(w, d)) && Keeps(w, BeginsProbe(w, d)))
      && (d.worker.None? ==> Keeps(w, BeginsCreating(plan, w, d)))
      && Early(w.doc) && Same(u, w)
  {
  }

  lemma LongerKeeps(w: World, v: World, rest: seq<World>)
    requires Early(v.doc) && Same(w, v) && Keeps(v, rest)
    ensures Keeps(w, [v] + rest)
  {
  }

  lemma StartKeeps(plan: string, w: World, idle: bool)
    requires Settled(w)
    ensures Keeps(w, Started(plan, w, idle))
  {
    hide Cancels, BeginsStart, BeginsCreating, Settled;
    var applying, creating := At(w.doc, ApplyingPolicy), At(w.doc, CreatingWorker);
    PartsNow(w, w.doc, idle);
    if w.doc.worker.Some? {
      PartsLater(plan, w, applying, applying, idle);
      LongerKeeps(w, Save(w, applying), BeginsStart(Save(w, applying), applying));
    } else {
      PartsLater(plan, w, applying, applying, idle);
      PartsLater(plan, w, creating, creating, idle);
      LongerKeeps(w, Save(w, applying), BeginsCreating(plan, Save(w, creating), creating));
    }
  }

  lemma WaitKeeps(plan: string, w: World, result: Ending, idle: bool, id: Id)
    requires Settled(w) && (w.runner.Some? ==> !w.runner.value.Creating?)
    ensures Keeps(w, Resumed(plan, w, result, idle, id))
  {
    hide Cancels, BeginsStart, BeginsProbe, Fails, Settled, Keeps;
    PartsNow(w, w.doc, idle);
    if w.runner.Some? {
      var d := w.runner.value.doc;
      WaitersKnow(w);
      if w.runner.value.Starting? {
        var e := At(d, VerifyingIdentity);
        PartsLater(plan, w, e, e, idle);
        LongerKeeps(w, Save(w, e), BeginsProbe(Save(w, e), e));
        LongerKeeps(w, Save(w, e), Fails(Save(w, e)));
        WaitingKeeps(w, CoolingToStart(At(d, WaitingForThermalCapacity)));
      } else if w.runner.value.Probing? {
        var e := d.(qualification := Some(false));
        PartsLater(plan, w, e, e, idle);
        LongerKeeps(w, Save(w, e), Fails(Save(w, e)));
        WaitingKeeps(w, CoolingToProbe(At(d, WaitingForThermalCapacity)));
        PassingKeeps(w, d.(qualification := Some(true)));
      } else if w.runner.value.Stopping? {
        PartsNow(w, d, true);
        StoppedKeeps(w, d);
      }
    }
  }

  lemma WaitersKnow(w: World)
    requires Settled(w) && w.runner.Some? && !w.runner.value.Creating?
    ensures w.runner.value.doc.worker == w.doc.worker && w.doc.worker.Some?
  {
  }

  lemma WaitingKeeps(w: World, r: Runner)
    requires Settled(w) && r.doc.worker == w.doc.worker && w.doc.worker.Some? && !r.Creating?
    ensures Keeps(w, [Save(w, r.doc).(runner := Some(r))])
  {
  }

  lemma PassingKeeps(w: World, e: Doc)
    requires Settled(w) && e.worker == w.doc.worker && w.doc.worker.Some?
    ensures Keeps(w, [Save(w, e), Save(w, At(e, AwaitingPublication)).(runner := None)])
  {
  }

  lemma StoppedKeeps(w: World, d: Doc)
    requires Settled(w) && d.worker == w.doc.worker && w.doc.worker.Some?
    ensures Keeps(w, [Save(w, At(d, Cancelled)).(runner := None)])
  {
  }

  lemma CreationSettles(plan: string, w: World, d: Doc, result: Ending, id: Id)
    requires Settled(w) && w.runner == Some(Creating(d))
    ensures Settled(Last(Created(plan, w, d, result, id)))
    ensures forall v :: v in Created(plan, w, d, result, id) ==> Early(v.doc)
  {
  }

  lemma CancelKeeps(w: World, idle: bool)
    requires Settled(w)
    ensures Keeps(w, CancelRequest(w, idle))
  {
    hide HandlersKnow;
    HandlersComeAndGo(w.handlers, w.doc.worker, Cancelling(w.doc));
  }

  lemma PublishKeeps(w: World, reviewed: bool, result: Ending)
    requires Settled(w)
    ensures Keeps(w, PublishRequest(w, reviewed, result))
  {
  }

  lemma CancelFinishKeeps(w: World, d: Doc, result: Ending)
    requires Settled(w)
    ensures Keeps(w, CancelFinishes(w, d, result))
  {
  }

  lemma PublishFinishKeeps(w: World, d: Doc, result: Ending)
    requires Settled(w)
    ensures Keeps(w, PublishFinishes(w, d, result))
  {
    hide HandlersKnow;
    HandlersComeAndGo(w.handlers, w.doc.worker, Exercising(d));
  }

  lemma RetryKeeps(w: World, same: bool)
    requires Settled(w)
    ensures Keeps(w, RetryRequest(w, same))
  {
  }

  lemma SegmentKeeps(plan: string, w: World, e: Event)
    requires Settled(w)
    requires !MakesWorker(w, e) && !e.OtherCreates? && !e.Release?
    ensures Keeps(w, Segment(plan, w, e))
  {
    hide Started, Resumed, CancelRequest, PublishRequest, RetryRequest, CancelFinishes, PublishFinishes, Keeps, Settled;
    match e
    case Start(idle) => StartKeeps(plan, w, idle);
    case Resume(result, idle, id) => WaitKeeps(plan, w, result, idle, id);
    case Cancel(idle) => CancelKeeps(w, idle);
    case Publish(reviewed, result) => PublishKeeps(w, reviewed, result);
    case Retry(same) => RetryKeeps(w, same);
    case ResumeCancel(d, result) => CancelFinishKeeps(w, d, result);
    case ResumePublish(d, result) => PublishFinishKeeps(w, d, result);
  }

  lemma NextKeeps(plan: string, w: World, h: Happening)
    requires Settled(w)
    ensures Settled(Next(plan, w, h))
    ensures w.doc.worker.Some? ==> Next(plan, w, h).doc.worker == w.doc.worker
  {
    hide Started, CancelRequest, PublishRequest, RetryRequest, Created, HandlersKnow, Early;
    var trace := Segment(plan, w, h.event);
    if MakesWorker(w, h.event) {
      CreationSettles(plan, w, w.runner.value.doc, h.event.result, h.event.id);
    } else if !h.event.OtherCreates? && !h.event.Release? {
      SegmentKeeps(plan, w, h.event);
    }
    if h.Dies? {
      var v := if h.writes == 0 then w else if h.writes <= |trace| then trace[h.writes - 1] else Last(trace);
      assert h.writes == 0 || v in trace;
      RestartSettles(v, h.revised);
    }
  }

  lemma RestartSettles(w: World, revised: bool)
    requires Early(w.doc)
    ensures Settled(Restarted(w, revised)) && Restarted(w, revised).doc.worker == w.doc.worker
  {
  }

  lemma {:induction false} EveryRunIsSettled(plan: string, names: map<string, Maker>, happenings: seq<Happening>)
    ensures Settled(Run(plan, Initial(names), happenings))
  {
    hide Next;
    if happenings != [] {
      EveryRunIsSettled(plan, names, happenings[..|happenings| - 1]);
      NextKeeps(plan, Run(plan, Initial(names), happenings[..|happenings| - 1]), Last(happenings));
    }
  }

  /** A setup never loses or exchanges the Worker it has recorded. */
  lemma {:induction false} RecordedWorkerStays(
      plan: string, names: map<string, Maker>, before: seq<Happening>, after: seq<Happening>)
    requires Run(plan, Initial(names), before).doc.worker.Some?
    ensures Run(plan, Initial(names), before + after).doc.worker == Run(plan, Initial(names), before).doc.worker
    decreases |after|
  {
    hide Next, Settled;
    if after == [] {
      assert before + after == before;
    } else {
      var init := after[..|after| - 1];
      RecordedWorkerStays(plan, names, before, init);
      EveryRunIsSettled(plan, names, before + init);
      NextKeeps(plan, Run(plan, Initial(names), before + init), Last(after));
      RunsStep(plan, Initial(names), before + init, Last(after));
      assert before + after == before + init + [Last(after)];
    }
  }

  // ----- At most one Worker -----

  predicate HoldsName(plan: string, w: World) {
    plan in w.names && w.names[plan] == ThisSetup
  }

  // The one Worker is recorded, or still holds the planned name.
  predicate OneWorker(plan: string, w: World) {
    && w.made <= 1
    && (w.doc.worker.Some? || HoldsName(plan, w) ==> w.made == 1)
    && (w.made == 1 && w.doc.worker.None? ==> HoldsName(plan, w))
  }

  // Nobody renames or archives a Worker that its setup has not recorded yet.
  predicate Considerate(plan: string, w: World, e: Event) {
    e.Release? && e.name == plan && HoldsName(plan, w) ==> w.doc.worker.Some?
  }

  ghost predicate AllConsiderate(plan: string, w: World, happenings: seq<Happening>) {
    forall i :: 0 <= i < |happenings| ==> Considerate(plan, Run(plan, w, happenings[..i]), happenings[i].event)
  }

  lemma CreationKeepsOne(plan: string, w: World, d: Doc, result: Ending, id: Id)
    requires Settled(w) && OneWorker(plan, w) && w.runner == Some(Creating(d))
    ensures forall v :: v in Created(plan, w, d, result, id) ==> OneWorker(plan, v)
  {
  }

  lemma SegmentKeepsOneWorker(plan: string, w: World, e: Event)
    requires Settled(w) && OneWorker(plan, w) && Considerate(plan, w, e)
    ensures forall k :: 0 <= k < |Segment(plan, w, e)| ==> OneWorker(plan, Segment(plan, w, e)[k])
  {
    hide Started, CancelRequest, PublishRequest, RetryRequest, Created, Settled;
    if MakesWorker(w, e) {
      CreationKeepsOne(plan, w, w.runner.value.doc, e.result, e.id);
    } else if !e.OtherCreates? && !e.Release? {
      hide Segment;
      SegmentKeeps(plan, w, e);
    }
  }

  lemma NextKeepsOneWorker(plan: string, w: World, h: Happening)
    requires Settled(w) && OneWorker(plan, w) && Considerate(plan, w, h.event)
    ensures OneWorker(plan, Next(plan, w, h))
  {
    hide Segment, Settled, Considerate;
    SegmentKeepsOneWorker(plan, w, h.event);
  }

  lemma {:induction false} EveryRunKeepsOneWorker(plan: string, w: World, happenings: seq<Happening>)
    requires Settled(w) && OneWorker(plan, w) && AllConsiderate(plan, w, happenings)
    ensures Settled(Run(plan, w, happenings)) && OneWorker(plan, Run(plan, w, happenings))
  {
    hide Next, Considerate, Settled, OneWorker;
    if happenings != [] {
      var init := happenings[..|happenings| - 1];
      assert forall i :: 0 <= i < |init| ==> init[..i] == happenings[..i] && init[i] == happenings[i];
      EveryRunKeepsOneWorker(plan, w, init);
      NextKeeps(plan, Run(plan, w, init), Last(happenings));
      NextKeepsOneWorker(plan, Run(plan, w, init), Last(happenings));
    }
  }

  /** A setup creates at most one Worker, over any number of deaths, restarts, cancels
      and retries, a death between storing the Worker and storing its id included, unless
      somebody renames or archives a Worker in that window. */
  lemma EveryRunMakesAtMostOneWorker(plan: string, names: map<string, Maker>, happenings: seq<Happening>)
    requires plan in names ==> names[plan] == Other
    requires AllConsiderate(plan, Initial(names), happenings)
    ensures Run(plan, Initial(names), happenings).made <= 1
  {
    hide Settled, AllConsiderate;
    FirstWorldIsSound(plan, names);
    EveryRunKeepsOneWorker(plan, Initial(names), happenings);
  }

  lemma FirstWorldIsSound(plan: string, names: map<string, Maker>)
    requires plan in names ==> names[plan] == Other
    ensures Settled(Initial(names)) && OneWorker(plan, Initial(names))
  {
  }

  // ----- And exactly when a second -----

  // How far a setup without a recorded Worker is from making one.
  function Distance(w: World): nat {
    if w.runner.Some? then 0
    else if w.doc.state == Queued && !w.doc.cancelRequested then 1
    else if w.doc.state != Queued then 2
    else 3
  }

  function Approach(w: World): Event {
    if w.runner.Some? then Resume(Fine, true, "worker")
    else if w.doc.state == Queued then Start(true)
    else Retry(true)
  }

  lemma ApproachComesCloser(plan: string, w: World)
    requires Settled(w) && w.doc.worker.None? && plan !in w.names
    ensures
      var v := Next(plan, w, Completes(Approach(w)));
      if Distance(w) == 0 then v.made == w.made + 1
      else v.doc.worker.None? && v.names == w.names && v.made == w.made && Distance(v) < Distance(w)
  {
  }

  // With the planned name free, a setup that has recorded no Worker can make one more.
  lemma {:induction false} MakesOneMore(plan: string, w: World) returns (more: seq<Happening>)
    requires Settled(w) && w.doc.worker.None? && plan !in w.names
    ensures Run(plan, w, more).made == w.made + 1
    ensures forall h :: h in more ==> h.event.Start? || h.event.Resume? || h.event.Retry?
    decreases Distance(w)
  {
    hide Next, Settled, Distance;
    var h := Completes(Approach(w));
    var v := Next(plan, w, h);
    ApproachComesCloser(plan, w);
    assert Run(plan, w, [h]) == v;
    if Distance(w) == 0 {
      return [h];
    }
    NextKeeps(plan, w, h);
    var rest := MakesOneMore(plan, v);
    RunsOn(plan, w, [h], rest);
    return [h] + rest;
  }

  /** From every reachable world in which no Worker is recorded, releasing the planned
      name can be followed by steps of the setup alone that make one Worker more. */
  lemma UnrecordedWorkerCanBeMadeAgain(plan: string, names: map<string, Maker>, done: seq<Happening>)
    requires Run(plan, Initial(names), done).doc.worker.None?
    ensures exists more: seq<Happening> ::
      && (forall h :: h in more ==> h.event.Start? || h.event.Resume? || h.event.Retry?)
      && Run(plan, Initial(names), done + [Completes(Release(plan))] + more).made ==
           Run(plan, Initial(names), done).made + 1
  {
    hide Next, Settled;
    var w, release := Run(plan, Initial(names), done), Completes(Release(plan));
    EveryRunIsSettled(plan, names, done);
    NextKeeps(plan, w, release);
    Released(plan, w);
    var more := MakesOneMore(plan, Next(plan, w, release));
    RunsStep(plan, Initial(names), done, release);
    RunsOn(plan, Initial(names), done + [release], more);
  }

  lemma Released(plan: string, w: World)
    ensures Next(plan, w, Completes(Release(plan))) == w.(names := w.names - {plan})
  {
  }

  /** When a second Worker is possible: after any considerate run, releasing the planned
      name leaves every considerate continuation with at most one Worker exactly when the
      name was not that of a Worker its setup had yet to record. */
  lemma SecondWorkerExactlyAfterReleaseInTheWindow(plan: string, names: map<string, Maker>, done: seq<Happening>)
    requires plan in names ==> names[plan] == Other
    requires AllConsiderate(plan, Initial(names), done)
    ensures
      var w := Run(plan, Initial(names), done);
      Considerate(plan, w, Release(plan)) <==> StaysAtOne(plan, Next(plan, w, Completes(Release(plan))))
  {
    hide Next, Run, Settled, StaysAtOne, AllConsiderate;
    var w, release := Run(plan, Initial(names), done), Completes(Release(plan));
    FirstWorldIsSound(plan, names);
    EveryRunKeepsOneWorker(plan, Initial(names), done);
    NextKeeps(plan, w, release);
    if Considerate(plan, w, Release(plan)) {
      NextKeepsOneWorker(plan, w, release);
      OneWorkerStaysAtOne(plan, Next(plan, w, release));
    } else {
      Released(plan, w);
      FreeNameMakesTwo(plan, Next(plan, w, release));
    }
  }

  ghost predicate StaysAtOne(plan: string, w: World) {
    forall more :: AllConsiderate(plan, w, more) ==> Run(plan, w, more).made <= 1
  }

  lemma OneWorkerStaysAtOne(plan: string, w: World)
    requires Settled(w) && OneWorker(plan, w)
    ensures StaysAtOne(plan, w)
  {
    hide Run, AllConsiderate, Settled;
    forall more | AllConsiderate(plan, w, more) ensures Run(plan, w, more).made <= 1 {
      EveryRunKeepsOneWorker(plan, w, more);
    }
  }

  lemma FreeNameMakesTwo(plan: string, w: World)
    requires Settled(w) && w.doc.worker.None? && w.made == 1 && plan !in w.names
    ensures !StaysAtOne(plan, w)
  {
    hide Run, Settled;
    var more := MakesOneMore(plan, w);
    assert AllConsiderate(plan, w, more);
  }

  /** The window is there: die between storing the Worker and storing its id. */
  lemma ReleaseInTheWindowHappens(plan: string)
    ensures
      var done := [Completes(Start(true)), Dies(Resume(Fine, true, "worker"), 1, false)];
      && AllConsiderate(plan, Initial(map[]), done)
      && !Considerate(plan, Run(plan, Initial(map[]), done), Release(plan))
  {
  }

  // ----- Reconciliation -----

  /** A second reconciliation changes nothing, whatever became of the guided profile, and
      the first leaves nothing in progress but what is queued. */
  lemma ReconcilingTwiceIsOnce(d: Doc, revised: bool, again: bool)
    ensures Reconciled(Reconciled(d, revised), again) == Reconciled(d, revised)
    ensures
      var s := Reconciled(d, revised).state;
      s != Publishing && s != VerifyingRoute && (Unfinished(s) ==> s == Queued)
  {
  }
}
