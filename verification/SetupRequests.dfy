/**
 What becomes of a cancellation requested while a guided setup is unfinished, and what
 the stored document tells an operator about it.
 */
module SetupRequests {
  import opened Common
  import opened Setup

  predicate Cooling(r: Runner) {
    r.CoolingToStart? || r.CoolingToProbe?
  }

  // The cancellation is recorded, or the Worker is being stopped for it.
  predicate Honours(w: World) {
    w.doc.state == Cancelled || (w.runner.Some? && w.runner.value.Stopping?)
  }

  // A request is stored that nobody has begun to honour.
  predicate Requested(w: World) {
    w.doc.cancelRequested && Unfinished(w.doc.state) && !Honours(w)
  }

  // The next step of the setup itself: taking it up, or going on from the wait.
  function Step(w: World, result: Ending, idle: bool, id: Id): Event {
    if w.runner.None? then Start(idle) else Resume(result, idle, id)
  }

  // ----- In every run -----

  // The runner's copy is unfinished and never carries a request, and unfinished work
  // without a runner is queued.
  predicate Blind(w: World) {
    && (w.runner.Some? && !w.runner.value.Stopping? ==>
          !w.runner.value.doc.cancelRequested && Unfinished(w.runner.value.doc.state))
    && (w.runner.None? && Unfinished(w.doc.state) ==> w.doc.state == Queued)
  }

  lemma StartKeepsBlind(plan: string, w: World, idle: bool)
    requires Blind(w)
    ensures Blind(Last(Started(plan, w, idle)))
  {
  }

  lemma CreationKeepsBlind(plan: string, w: World, d: Doc, result: Ending, id: Id)
    requires Blind(w) && w.runner == Some(Creating(d))
    ensures Blind(Last(Created(plan, w, d, result, id)))
  {
  }

  lemma ResumeKeepsBlind(plan: string, w: World, result: Ending, idle: bool, id: Id)
    requires Blind(w)
    ensures Blind(Last(Resumed(plan, w, result, idle, id)))
  {
    hide Created;
    if w.runner.Some? && w.runner.value.Creating? {
      CreationKeepsBlind(plan, w, w.runner.value.doc, result, id);
    }
  }

  lemma CancelKeepsBlind(w: World, d: Doc, idle: bool, result: Ending)
    requires Blind(w)
    ensures Blind(Last(CancelRequest(w, idle))) && Blind(Last(CancelFinishes(w, d, result)))
  {
  }

  lemma PublishKeepsBlind(w: World, d: Doc, reviewed: bool, result: Ending)
    requires Blind(w)
    ensures Blind(Last(PublishRequest(w, reviewed, result))) && Blind(Last(PublishFinishes(w, d, result)))
  {
  }

  lemma NextKeepsBlind(plan: string, w: World, h: Happening)
    requires Blind(w)
    ensures Blind(Next(plan, w, h))
  {
    hide Started, Resumed, CancelRequest, CancelFinishes, PublishRequest, PublishFinishes;
    match h.event
    case Start(idle) => StartKeepsBlind(plan, w, idle);
    case Resume(result, idle, id) => ResumeKeepsBlind(plan, w, result, idle, id);
    case Cancel(idle) => CancelKeepsBlind(w, w.doc, idle, Fine);
    case ResumeCancel(d, result) => CancelKeepsBlind(w, d, false, result);
    case Publish(reviewed, result) => PublishKeepsBlind(w, w.doc, reviewed, result);
    case ResumePublish(d, result) => PublishKeepsBlind(w, d, false, result);
    case _ =>
  }

  lemma {:induction false} EveryRunIsBlind(plan: string, names: map<string, Maker>, done: seq<Happening>)
    ensures Blind(Run(plan, Initial(names), done))
  {
    hide Next;
    if done != [] {
      EveryRunIsBlind(plan, names, done[..|done| - 1]);
      NextKeepsBlind(plan, Run(plan, Initial(names), done[..|done| - 1]), Last(done));
    }
  }

  /** In every run, a stored request is honoured by the setup's next step exactly if that
      step reads the stored document: the setup is queued or cooling down.  Anywhere else
      the runner's own copy overwrites the request, unless the setup fails.  A death
      before the next write keeps the request, and the next start honours it. */
  lemma RequestIsHonouredExactlyWhereItIsRead(
      plan: string, names: map<string, Maker>, done: seq<Happening>, result: Ending, idle: bool, id: Id, revised: bool)
    ensures
      var w := Run(plan, Initial(names), done);
      var after := Last(Segment(plan, w, Step(w, result, idle, id)));
      Requested(w) ==>
        && (Honours(after) <==> w.runner.None? || Cooling(w.runner.value))
        && (!Honours(after) && after.doc.cancelRequested ==> after.doc.state == Failed)
    ensures
      var w := Run(plan, Initial(names), done);
      var dead := Next(plan, w, Dies(Step(w, result, idle, id), 0, revised));
      Requested(w) ==> Requested(dead) && Honours(Last(Started(plan, dead, idle)))
  {
    hide Run, Segment, Started, Next, Blind;
    var w := Run(plan, Initial(names), done);
    if Requested(w) {
      EveryRunIsBlind(plan, names, done);
      StepHonours(plan, w, result, idle, id);
      DeathKeepsRequest(plan, w, Step(w, result, idle, id), idle, revised);
    }
  }

  lemma StepHonours(plan: string, w: World, result: Ending, idle: bool, id: Id)
    requires Blind(w) && Requested(w)
    ensures
      var after := Last(Segment(plan, w, Step(w, result, idle, id)));
      && (Honours(after) <==> w.runner.None? || Cooling(w.runner.value))
      && (!Honours(after) && after.doc.cancelRequested ==> after.doc.state == Failed)
  {
    hide Created;
    if w.runner.Some? && w.runner.value.Creating? {
      CreationLosesRequest(plan, w, w.runner.value.doc, result, id);
    }
  }

  lemma CreationLosesRequest(plan: string, w: World, d: Doc, result: Ending, id: Id)
    requires Blind(w) && w.runner == Some(Creating(d)) && Requested(w)
    ensures
      var after := Last(Created(plan, w, d, result, id));
      !Honours(after) && (after.doc.cancelRequested ==> after.doc.state == Failed)
  {
  }

  lemma DeathKeepsRequest(plan: string, w: World, e: Event, idle: bool, revised: bool)
    requires Requested(w)
    ensures
      var dead := Next(plan, w, Dies(e, 0, revised));
      Requested(dead) && Honours(Last(Started(plan, dead, idle)))
  {
  }

  /** A request is lost in a run from the start: cancel while the Worker is being made. */
  lemma RequestIsOverwritten(plan: string)
    ensures
      var before := [Completes(Start(true)), Completes(Cancel(true))];
      var after := before + [Completes(Resume(Fine, true, "worker"))];
      && Requested(Run(plan, Initial(map[]), before))
      && Run(plan, Initial(map[]), after).doc == Doc(StartingWorker, false, Some("worker"), None)
  {
    hide Next;
    var h0, h1, h2 := Completes(Start(true)), Completes(Cancel(true)), Completes(Resume(Fine, true, "worker"));
    var creating := Doc(CreatingWorker, false, None, None);
    var w := Initial(map[]).(doc := creating, runner := Some(Creating(creating)));
    assert Next(plan, Initial(map[]), h0) == w by {
      MakingStarts(plan);
    }
    assert Run(plan, Initial(map[]), [h0]) == w && [h0] + [h1] == [h0, h1];
    RunsStep(plan, Initial(map[]), [h0], h1);
    RunsStep(plan, Initial(map[]), [h0, h1], h2);
    CancelIsStored(plan, w);
    CopyIsSaved(plan, w.(doc := creating.(cancelRequested := true)));
  }

  lemma MakingStarts(plan: string)
    ensures
      var creating := Doc(CreatingWorker, false, None, None);
      Next(plan, Initial(map[]), Completes(Start(true)))
        == Initial(map[]).(doc := creating, runner := Some(Creating(creating)))
  {
  }

  lemma CancelIsStored(plan: string, w: World)
    requires w.doc.state == CreatingWorker
    ensures Next(plan, w, Completes(Cancel(true))) == w.(doc := w.doc.(cancelRequested := true))
  {
  }

  lemma CopyIsSaved(plan: string, w: World)
    requires w.runner == Some(Creating(Doc(CreatingWorker, false, None, None))) && plan !in w.names
    ensures
      var starting := Doc(StartingWorker, false, Some("worker"), None);
      Next(plan, w, Completes(Resume(Fine, true, "worker"))) == w.(
        doc := starting, names := w.names[plan := ThisSetup], made := w.made + 1, runner := Some(Starting(starting)))
  {
  }

  // ----- What the stored document tells -----

  // The stored state is the one the runner saved before its wait.
  predicate Shows(s: State, r: Runner) {
    match r
    case Creating(_) => s == CreatingWorker
    case Starting(_) => s == StartingWorker
    case CoolingToStart(_) => s == WaitingForThermalCapacity
    case Probing(_) => s == Qualifying
    case CoolingToProbe(_) => s == WaitingForThermalCapacity
    case Stopping(_) => s == Queued || s == WaitingForThermalCapacity
  }

  // What a waiting handler has read.
  predicate Reads(h: Handler, s: State) {
    if h.Cancelling? then s == Cancelled || s == Failed || s == AwaitingPublication else s == VerifyingRoute
  }

  ghost predicate HandlersRead(handlers: multiset<Handler>) {
    forall h :: h in handlers ==> Reads(h, h.doc.state)
  }

  ghost predicate Truthful(w: World) {
    HandlersRead(w.handlers) && (w.runner.Some? ==> Shows(w.doc.state, w.runner.value))
  }

  // A handler that waited finishes with a write.
  predicate Writes(w: World, e: Event) {
    || (e.ResumeCancel? && Cancelling(e.doc) in w.handlers && e.result == Fine)
    || (e.ResumePublish? && Exercising(e.doc) in w.handlers && (e.result == Fine || e.result == Negative))
  }

  // It does not do so while the runner waits.
  predicate Alone(w: World, h: Happening) {
    h.Completes? && Writes(w, h.event) ==> w.runner.None?
  }

  ghost predicate AllAlone(plan: string, w: World, happenings: seq<Happening>) {
    forall i :: 0 <= i < |happenings| ==> Alone(Run(plan, w, happenings[..i]), happenings[i])
  }

  // A setup that somebody runs is stored as unfinished.
  predicate Shown(w: World) {
    w.runner.Some? ==> Unfinished(w.doc.state)
  }

  ghost predicate AlwaysShown(plan: string, w: World, happenings: seq<Happening>) {
    forall i :: 0 <= i <= |happenings| ==> Shown(Run(plan, w, happenings[..i]))
  }

  lemma HandlersStayRead(handlers: multiset<Handler>, h: Handler)
    requires HandlersRead(handlers)
    ensures HandlersRead(handlers - multiset{h})
    ensures Reads(h, h.doc.state) ==> HandlersRead(handlers + multiset{h})
    ensures h in handlers ==> Reads(h, h.doc.state)
    ensures HandlersRead(multiset{})
  {
  }

  lemma StartStaysTruthful(plan: string, w: World, idle: bool)
    requires Truthful(w)
    ensures Truthful(Last(Started(plan, w, idle)))
  {
  }

  lemma CreationStaysTruthful(plan: string, w: World, d: Doc, result: Ending, id: Id)
    requires Truthful(w) && w.runner == Some(Creating(d)) && !d.cancelRequested
    ensures Truthful(Last(Created(plan, w, d, result, id)))
  {
  }

  lemma ResumeStaysTruthful(plan: string, w: World, result: Ending, idle: bool, id: Id)
    requires Truthful(w) && Blind(w)
    ensures Truthful(Last(Resumed(plan, w, result, idle, id)))
  {
    hide HandlersRead, Created;
    if w.runner.Some? && w.runner.value.Creating? {
      CreationStaysTruthful(plan, w, w.runner.value.doc, result, id);
    }
  }

  lemma CancelStaysTruthful(w: World, idle: bool)
    requires Truthful(w)
    ensures Truthful(Last(CancelRequest(w, idle)))
  {
  }

  lemma PublishStaysTruthful(w: World, reviewed: bool, result: Ending)
    requires Truthful(w)
    ensures Truthful(Last(PublishRequest(w, reviewed, result)))
  {
  }

  lemma HandlerStaysTruthful(w: World, d: Doc, result: Ending)
    requires Truthful(w)
    ensures !Writes(w, ResumeCancel(d, result)) || w.runner.None? ==> Truthful(Last(CancelFinishes(w, d, result)))
    ensures !Writes(w, ResumePublish(d, result)) || w.runner.None? ==> Truthful(Last(PublishFinishes(w, d, result)))
  {
    hide HandlersRead;
    HandlersStayRead(w.handlers, Cancelling(d));
    HandlersStayRead(w.handlers, Exercising(d));
  }

  lemma NextStaysTruthful(plan: string, w: World, h: Happening)
    requires Truthful(w) && Blind(w) && Alone(w, h)
    ensures Truthful(Next(plan, w, h))
  {
    hide Started, Resumed, CancelRequest, CancelFinishes, PublishRequest, PublishFinishes, HandlersRead, Writes;
    HandlersStayRead(w.handlers, Cancelling(w.doc));
    match h.event
    case Start(idle) => StartStaysTruthful(plan, w, idle);
    case Resume(result, idle, id) => ResumeStaysTruthful(plan, w, result, idle, id);
    case Cancel(idle) => CancelStaysTruthful(w, idle);
    case ResumeCancel(d, result) => HandlerStaysTruthful(w, d, result);
    case Publish(reviewed, result) => PublishStaysTruthful(w, reviewed, result);
    case ResumePublish(d, result) => HandlerStaysTruthful(w, d, result);
    case _ =>
  }

  // The write of a handler puts a running setup in a state of rest.
  lemma WriteHidesTheRunner(plan: string, w: World, h: Happening)
    requires !Alone(w, h)
    ensures !Shown(Next(plan, w, h))
  {
  }

  /** Exactly when the stored state shows that a setup is being run: at every moment of a
      run a setup that somebody runs is stored as unfinished, if and only if no handler
      finishes with a write while the runner waits. */
  lemma {:induction false} RunningIsShownExactlyWhenHandlersWriteAlone(
      plan: string, names: map<string, Maker>, done: seq<Happening>)
    ensures AlwaysShown(plan, Initial(names), done) <==> AllAlone(plan, Initial(names), done)
    ensures AllAlone(plan, Initial(names), done) ==> Truthful(Run(plan, Initial(names), done))
  {
    hide Next, Alone, Shown, Truthful;
    if done == [] {
      FirstWorldIsTruthful(names);
    } else {
      var init := done[..|done| - 1];
      RunningIsShownExactlyWhenHandlersWriteAlone(plan, names, init);
      OneMoreMoment(plan, Initial(names), done);
      var w := Run(plan, Initial(names), init);
      if AllAlone(plan, Initial(names), init) {
        EveryRunIsBlind(plan, names, init);
        if Alone(w, Last(done)) {
          NextStaysTruthful(plan, w, Last(done));
          TruthfulIsShown(Next(plan, w, Last(done)));
        } else {
          WriteHidesTheRunner(plan, w, Last(done));
        }
      }
    }
  }

  lemma FirstWorldIsTruthful(names: map<string, Maker>)
    ensures Truthful(Initial(names)) && Shown(Initial(names))
  {
  }

  lemma TruthfulIsShown(w: World)
    requires Truthful(w)
    ensures Shown(w)
  {
  }

  lemma OneMoreMoment(plan: string, w: World, done: seq<Happening>)
    requires done != []
    ensures
      var init := done[..|done| - 1];
      && (AlwaysShown(plan, w, done) <==> AlwaysShown(plan, w, init) && Shown(Run(plan, w, done)))
      && (AllAlone(plan, w, done) <==> AllAlone(plan, w, init) && Alone(Run(plan, w, init), Last(done)))
  {
    hide Run, Shown, Alone;
    var init := done[..|done| - 1];
    assert done[..|done|] == done && forall i :: 0 <= i <= |init| ==> init[..i] == done[..i];
  }

  /** What the stored state tells an operator in such a run: a stored request will be
      honoured by the setup's next step exactly if the setup is shown as queued or waiting
      for thermal capacity. */
  lemma StoredStateTellsWhatARequestDoes(
      plan: string, names: map<string, Maker>, done: seq<Happening>, result: Ending, idle: bool, id: Id)
    requires AllAlone(plan, Initial(names), done)
    ensures
      var w := Run(plan, Initial(names), done);
      && (w.runner.Some? ==> Unfinished(w.doc.state))
      && (Requested(w) ==>
            (Honours(Last(Segment(plan, w, Step(w, result, idle, id)))) <==>
               w.doc.state == Queued || w.doc.state == WaitingForThermalCapacity))
  {
    hide Run, Segment, AllAlone, HandlersRead;
    var w := Run(plan, Initial(names), done);
    RunningIsShownExactlyWhenHandlersWriteAlone(plan, names, done);
    EveryRunIsBlind(plan, names, done);
    if Requested(w) {
      StepHonours(plan, w, result, idle, id);
    }
  }

  /** The exception is real: cancel a failed setup, retry it while its Worker is being
      stopped, and the late cancellation marks a running setup as cancelled. */
  lemma LateCancelMarksARunningSetup(plan: string)
    ensures
      var failed := Doc(Failed, false, Some("worker"), None);
      var done := [Completes(Start(true)), Completes(Resume(Fine, true, "worker")),
                   Completes(Resume(Raises, true, "worker")), Completes(Cancel(false)), Completes(Retry(true)),
                   Completes(Start(true)), Completes(ResumeCancel(failed, Fine))];
      var w := Run(plan, Initial(map[]), done);
      w.doc.state == Cancelled && w.runner.Some? && !AllAlone(plan, Initial(map[]), done)
  {
    hide Run, Next;
    var failed := Doc(Failed, false, Some("worker"), None);
    var starting := Doc(StartingWorker, false, Some("worker"), None);
    var w0 := Initial(map[]);
    var h0, h1 := Completes(Start(true)), Completes(Resume(Fine, true, "worker"));
    var h2 := Completes(Resume(Raises, true, "worker"));
    var h3, h4, h5, h6 := Completes(Cancel(false)), Completes(Retry(true)), h0, Completes(ResumeCancel(failed, Fine));
    var w3 := World(failed, map[plan := ThisSetup], 1, None, multiset{});
    FailsOnceMade(plan, h0, h1, h2, w3);
    var w4 := w3.(handlers := multiset{Cancelling(failed)});
    var w5 := w4.(doc := At(failed, Queued));
    var w6 := w4.(doc := starting, runner := Some(Starting(starting)));
    RetriedWhileCancelling(plan, w3, w4, w5, w6);
    RunsStep(plan, w0, [h0, h1, h2], h3);
    RunsStep(plan, w0, [h0, h1, h2, h3], h4);
    RunsStep(plan, w0, [h0, h1, h2, h3, h4], h5);
    RunsStep(plan, w0, [h0, h1, h2, h3, h4, h5], h6);
    assert [h0, h1, h2] + [h3] == [h0, h1, h2, h3] && [h0, h1, h2, h3] + [h4] == [h0, h1, h2, h3, h4];
    assert [h0, h1, h2, h3, h4] + [h5] == [h0, h1, h2, h3, h4, h5];
    var done := [h0, h1, h2, h3, h4, h5] + [h6];
    assert done == [h0, h1, h2, h3, h4, h5, h6] && done[..6] == [h0, h1, h2, h3, h4, h5];
    assert Run(plan, w0, done[..6]) == w6 && !Alone(w6, done[6]);
  }

  lemma FailsOnceMade(plan: string, h0: Happening, h1: Happening, h2: Happening, w3: World)
    requires h0 == Completes(Start(true))
    requires h1 == Completes(Resume(Fine, true, "worker")) && h2 == Completes(Resume(Raises, true, "worker"))
    requires w3 == World(Doc(Failed, false, Some("worker"), None), map[plan := ThisSetup], 1, None, multiset{})
    ensures Run(plan, Initial(map[]), [h0, h1, h2]) == w3
  {
    hide Next;
    var starting := Doc(StartingWorker, false, Some("worker"), None);
    var w1, w2 := Next(plan, Initial(map[]), h0), w3.(doc := starting, runner := Some(Starting(starting)));
    MakingStarts(plan);
    assert Run(plan, Initial(map[]), [h0]) == w1 && [h0] + [h1] == [h0, h1] && [h0, h1] + [h2] == [h0, h1, h2];
    RunsStep(plan, Initial(map[]), [h0], h1);
    RunsStep(plan, Initial(map[]), [h0, h1], h2);
    CopyIsSaved(plan, w1);
    StartFails(plan, w2);
  }

  lemma StartFails(plan: string, w: World)
    requires w.runner == Some(Starting(w.doc))
    ensures Next(plan, w, Completes(Resume(Raises, true, "worker"))) == w.(doc := At(w.doc, Failed), runner := None)
  {
  }

  lemma RetriedWhileCancelling(plan: string, w3: World, w4: World, w5: World, w6: World)
    requires w3.doc == Doc(Failed, false, Some("worker"), None) && w3.runner.None? && w3.handlers == multiset{}
    requires w4 == w3.(handlers := multiset{Cancelling(w3.doc)}) && w5 == w4.(doc := At(w3.doc, Queued))
    requires w6 == w4.(doc := At(w3.doc, StartingWorker), runner := Some(Starting(At(w3.doc, StartingWorker))))
    ensures Next(plan, w3, Completes(Cancel(false))) == w4 && Next(plan, w4, Completes(Retry(true))) == w5
    ensures Next(plan, w5, Completes(Start(true))) == w6
    ensures Next(plan, w6, Completes(ResumeCancel(w3.doc, Fine))) ==
      w6.(doc := At(w3.doc, Cancelled), handlers := multiset{})
  {
  }
}
