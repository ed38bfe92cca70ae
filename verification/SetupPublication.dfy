/**
 Whether a setup whose publication has begun stays uncancelled.  Cancelling is refused
 from then on, but the guard looks at the stored state before the handler waits.
 */
module SetupPublication {
  import opened Common
  import opened Setup
  import opened SetupRequests

  // From here on a cancellation is refused.
  predicate Begun(s: State) {
    s == Publishing || s == VerifyingRoute || s == Succeeded
  }

  // A handler waits for the Worker to stop, to record a cancellation then.
  ghost predicate HandlerCancels(handlers: multiset<Handler>) {
    exists h :: h in handlers && h.Cancelling?
  }

  // A handler or the runner does.
  ghost predicate CancelWaits(w: World) {
    HandlerCancels(w.handlers) || (w.runner.Some? && w.runner.value.Stopping?)
  }

  // Publication has begun and is not given up in all these happenings.
  ghost predicate Meanwhile(plan: string, w: World, more: seq<Happening>) {
    forall i :: 0 <= i <= |more| ==> Begun(Run(plan, w, more[..i]).doc.state)
  }

  // Whatever happens, the first change from there is not to cancelled.
  ghost predicate StaysUncancelled(plan: string, w: World) {
    forall more, h :: Meanwhile(plan, w, more) ==> Next(plan, Run(plan, w, more), h).doc.state != Cancelled
  }

  // ----- No request is stored with a publication -----

  predicate CleanDoc(d: Doc) {
    Begun(d.state) || d.state == AwaitingPublication ==> !d.cancelRequested
  }

  ghost predicate CleanHandlers(handlers: multiset<Handler>) {
    forall h :: h in handlers && h.Exercising? ==> !h.doc.cancelRequested
  }

  ghost predicate Clean(w: World) {
    CleanDoc(w.doc) && CleanHandlers(w.handlers)
  }

  ghost predicate AllClean(trace: seq<World>) {
    forall k :: 0 <= k < |trace| ==> Clean(trace[k])
  }

  lemma HandlersStayClean(handlers: multiset<Handler>, h: Handler)
    requires CleanHandlers(handlers)
    ensures CleanHandlers(handlers - multiset{h})
    ensures h.Cancelling? || !h.doc.cancelRequested ==> CleanHandlers(handlers + multiset{h})
    ensures h.Exercising? && h in handlers ==> !h.doc.cancelRequested
    ensures CleanHandlers(multiset{})
  {
  }

  lemma StartStaysClean(plan: string, w: World, idle: bool)
    requires Clean(w)
    ensures AllClean(Started(plan, w, idle))
  {
  }

  lemma CreationStaysClean(plan: string, w: World, d: Doc, result: Ending, id: Id)
    requires Clean(w) && !d.cancelRequested
    ensures AllClean(Created(plan, w, d, result, id))
  {
  }

  lemma ResumeStaysClean(plan: string, w: World, result: Ending, idle: bool, id: Id)
    requires Clean(w) && Blind(w)
    ensures AllClean(Resumed(plan, w, result, idle, id))
  {
    hide CleanHandlers, Created;
    if w.runner.Some? && w.runner.value.Creating? {
      CreationStaysClean(plan, w, w.runner.value.doc, result, id);
    }
  }

  lemma RequestStaysClean(w: World, idle: bool, same: bool)
    requires Clean(w)
    ensures AllClean(CancelRequest(w, idle)) && AllClean(RetryRequest(w, same))
  {
  }

  lemma PublishStaysClean(w: World, reviewed: bool, result: Ending)
    requires Clean(w)
    ensures AllClean(PublishRequest(w, reviewed, result))
  {
  }

  lemma HandlerStaysClean(w: World, d: Doc, result: Ending)
    requires Clean(w)
    ensures AllClean(CancelFinishes(w, d, result)) && AllClean(PublishFinishes(w, d, result))
  {
    hide CleanHandlers;
    HandlersStayClean(w.handlers, Cancelling(d));
    HandlersStayClean(w.handlers, Exercising(d));
  }

  lemma SegmentStaysClean(plan: string, w: World, e: Event)
    requires Clean(w) && Blind(w)
    ensures AllClean(Segment(plan, w, e))
  {
    hide Started, Resumed, CancelRequest, RetryRequest, PublishRequest, CancelFinishes, PublishFinishes, CleanHandlers;
    match e
    case Start(idle) => StartStaysClean(plan, w, idle);
    case Resume(result, idle, id) => ResumeStaysClean(plan, w, result, idle, id);
    case Cancel(idle) => RequestStaysClean(w, idle, false);
    case Retry(same) => RequestStaysClean(w, false, same);
    case Publish(reviewed, result) => PublishStaysClean(w, reviewed, result);
    case ResumeCancel(d, result) => HandlerStaysClean(w, d, result);
    case ResumePublish(d, result) => HandlerStaysClean(w, d, result);
    case _ =>
  }

  lemma NextStaysClean(plan: string, w: World, h: Happening)
    requires Clean(w) && Blind(w)
    ensures Clean(Next(plan, w, h))
  {
    hide Segment, CleanHandlers;
    SegmentStaysClean(plan, w, h.event);
    HandlersStayClean(w.handlers, Cancelling(w.doc));
  }

  lemma {:induction false} EveryRunIsClean(plan: string, names: map<string, Maker>, done: seq<Happening>)
    ensures Clean(Run(plan, Initial(names), done))
  {
    hide Next, Blind;
    if done != [] {
      EveryRunIsClean(plan, names, done[..|done| - 1]);
      EveryRunIsBlind(plan, names, done[..|done| - 1]);
      NextStaysClean(plan, Run(plan, Initial(names), done[..|done| - 1]), Last(done));
    }
  }

  // ----- Exactly when -----

  ghost predicate Quiet(w: World) {
    Begun(w.doc.state) && !CancelWaits(w) && Blind(w) && Clean(w)
  }

  // Nothing is cancelled in these worlds, and while publication is not given up nobody
  // has begun to wait.
  ghost predicate Uncancelled(trace: seq<World>) {
    && trace != [] && (forall k :: 0 <= k < |trace| ==> trace[k].doc.state != Cancelled)
    && (Begun(Last(trace).doc.state) ==> !CancelWaits(Last(trace)))
  }

  lemma FewerHandlers(handlers: multiset<Handler>, h: Handler)
    requires !HandlerCancels(handlers)
    ensures !HandlerCancels(handlers - multiset{h}) && (h.Cancelling? ==> h !in handlers)
    ensures !HandlerCancels(multiset{})
  {
  }

  lemma CreationIsUncancelled(plan: string, w: World, d: Doc, result: Ending, id: Id)
    requires Quiet(w) && w.runner == Some(Creating(d))
    ensures Uncancelled(Created(plan, w, d, result, id))
  {
  }

  lemma ResumeIsUncancelled(plan: string, w: World, result: Ending, idle: bool, id: Id)
    requires Quiet(w)
    ensures Uncancelled(Resumed(plan, w, result, idle, id))
  {
    hide HandlerCancels, CleanHandlers, Created;
    if w.runner.Some? && w.runner.value.Creating? {
      CreationIsUncancelled(plan, w, w.runner.value.doc, result, id);
    }
  }

  lemma HandlerIsUncancelled(w: World, d: Doc, result: Ending)
    requires Quiet(w)
    ensures Uncancelled(CancelFinishes(w, d, result)) && Uncancelled(PublishFinishes(w, d, result))
  {
  }

  lemma SegmentIsUncancelled(plan: string, w: World, e: Event)
    requires Quiet(w)
    ensures Uncancelled(Segment(plan, w, e))
  {
    hide Resumed, CancelFinishes, PublishFinishes, HandlerCancels, CleanHandlers;
    match e
    case Resume(result, idle, id) => ResumeIsUncancelled(plan, w, result, idle, id);
    case ResumeCancel(d, result) => HandlerIsUncancelled(w, d, result);
    case ResumePublish(d, result) => HandlerIsUncancelled(w, d, result);
    case _ =>
  }

  lemma NextStaysQuiet(plan: string, w: World, h: Happening)
    requires Quiet(w)
    ensures Next(plan, w, h).doc.state != Cancelled
    ensures Begun(Next(plan, w, h).doc.state) ==> Quiet(Next(plan, w, h))
  {
    hide Segment, HandlerCancels, CleanHandlers, Blind, Clean;
    SegmentIsUncancelled(plan, w, h.event);
    FewerHandlers(w.handlers, Cancelling(w.doc));
    NextKeepsBlind(plan, w, h);
    NextStaysClean(plan, w, h);
  }

  lemma {:induction false} RunStaysQuiet(plan: string, w: World, more: seq<Happening>)
    requires Quiet(w) && Meanwhile(plan, w, more)
    ensures Quiet(Run(plan, w, more))
  {
    hide Next, Quiet;
    if more != [] {
      var init := more[..|more| - 1];
      assert forall i :: 0 <= i <= |init| ==> init[..i] == more[..i];
      assert more[..|more|] == more;
      RunStaysQuiet(plan, w, init);
      NextStaysQuiet(plan, Run(plan, w, init), Last(more));
    }
  }

  // Whoever waits may go on at once.
  lemma WaitingCancelLands(plan: string, w: World) returns (h: Happening)
    requires CancelWaits(w)
    ensures Next(plan, w, h).doc.state == Cancelled
  {
    if w.runner.Some? && w.runner.value.Stopping? {
      h := Completes(Resume(Fine, true, ""));
    } else {
      var waiting :| waiting in w.handlers && waiting.Cancelling?;
      h := Completes(ResumeCancel(waiting.doc, Fine));
    }
  }

  /** Exactly when a publication that has begun cannot be cancelled: in every reachable
      world, whatever happens next, the setup does not go from there to cancelled if and
      only if nobody is waiting for the Worker to stop in order to record a cancellation.
      Publishing does not ask that. */
  lemma PublicationStaysUncancelledExactlyWithoutAWaitingCancel(
      plan: string, names: map<string, Maker>, done: seq<Happening>)
    ensures
      var w := Run(plan, Initial(names), done);
      Begun(w.doc.state) ==> (StaysUncancelled(plan, w) <==> !CancelWaits(w))
  {
    hide Next, CancelWaits, Blind, Clean;
    var w := Run(plan, Initial(names), done);
    EveryRunIsBlind(plan, names, done);
    EveryRunIsClean(plan, names, done);
    if Begun(w.doc.state) {
      if CancelWaits(w) {
        var h := WaitingCancelLands(plan, w);
        assert Meanwhile(plan, w, []) && Run(plan, w, []) == w;
      } else {
        forall more, h | Meanwhile(plan, w, more) ensures Next(plan, Run(plan, w, more), h).doc.state != Cancelled {
          RunStaysQuiet(plan, w, more);
          NextStaysQuiet(plan, Run(plan, w, more), h);
        }
      }
    }
  }

  // ----- The exception is real -----

  /** Cancel a setup that awaits publication, publish it while its Worker is being
      stopped, and the late cancellation is stored over the success. */
  lemma PublishedSetupIsCancelled(plan: string)
    ensures
      var fine := Completes(Resume(Fine, true, "worker"));
      var reviewed := Doc(AwaitingPublication, false, Some("worker"), Some(true));
      var done := [Completes(Start(true)), fine, fine, fine] + [
        Completes(Cancel(false)), Completes(Publish(true, Fine)),
        Completes(ResumePublish(At(reviewed, VerifyingRoute), Fine)), Completes(ResumeCancel(reviewed, Fine))];
      && Run(plan, Initial(map[]), done[..7]).doc == At(reviewed, Succeeded)
      && Run(plan, Initial(map[]), done).doc == At(reviewed, Cancelled)
  {
    hide Next, Run;
    var fine := Completes(Resume(Fine, true, "worker"));
    var reviewed := Doc(AwaitingPublication, false, Some("worker"), Some(true));
    var first := [Completes(Start(true)), fine, fine, fine];
    var h0, h1 := Completes(Cancel(false)), Completes(Publish(true, Fine));
    var h2 := Completes(ResumePublish(At(reviewed, VerifyingRoute), Fine));
    var h3 := Completes(ResumeCancel(reviewed, Fine));
    var w := World(reviewed, map[plan := ThisSetup], 1, None, multiset{});
    Qualified(plan, w);
    CancelledLate(plan, w);
    FourSteps(plan, w, h0, h1, h2, h3);
    RunsOn(plan, Initial(map[]), first, [h0, h1, h2]);
    RunsOn(plan, Initial(map[]), first, [h0, h1, h2, h3]);
    var done := first + [h0, h1, h2, h3];
    assert done[..7] == first + [h0, h1, h2];
  }

  lemma FourSteps(plan: string, w: World, a: Happening, b: Happening, c: Happening, d: Happening)
    ensures Run(plan, w, [a, b, c]) == Next(plan, Next(plan, Next(plan, w, a), b), c)
    ensures Run(plan, w, [a, b, c, d]) == Next(plan, Run(plan, w, [a, b, c]), d)
  {
    hide Next;
    assert Run(plan, w, [a]) == Next(plan, w, a);
    assert [a] + [b] == [a, b] && [a, b] + [c] == [a, b, c] && [a, b, c] + [d] == [a, b, c, d];
    RunsStep(plan, w, [a], b);
    RunsStep(plan, w, [a, b], c);
    RunsStep(plan, w, [a, b, c], d);
  }

  lemma Qualified(plan: string, w: World)
    requires w == World(Doc(AwaitingPublication, false, Some("worker"), Some(true)),
                        map[plan := ThisSetup], 1, None, multiset{})
    ensures
      var fine := Completes(Resume(Fine, true, "worker"));
      Run(plan, Initial(map[]), [Completes(Start(true)), fine, fine, fine]) == w
  {
    hide Next, Run;
    var fine := Completes(Resume(Fine, true, "worker"));
    FourSteps(plan, Initial(map[]), Completes(Start(true)), fine, fine, fine);
    MakingStarts(plan);
    var creating := Doc(CreatingWorker, false, None, None);
    CopyIsSaved(plan, Initial(map[]).(doc := creating, runner := Some(Creating(creating))));
    var starting := Doc(StartingWorker, false, Some("worker"), None);
    StartsAndQualifies(plan, w.(doc := starting, runner := Some(Starting(starting))), fine, w);
  }

  lemma StartsAndQualifies(plan: string, w: World, fine: Happening, v: World)
    requires w.doc == Doc(StartingWorker, false, Some("worker"), None) && w.runner == Some(Starting(w.doc))
    requires fine == Completes(Resume(Fine, true, "worker"))
    requires v == w.(doc := Doc(AwaitingPublication, false, Some("worker"), Some(true)), runner := None)
    ensures Next(plan, Next(plan, w, fine), fine) == v
  {
  }

  lemma CancelledLate(plan: string, w: World)
    requires w.doc == Doc(AwaitingPublication, false, Some("worker"), Some(true))
    requires w.runner.None? && w.handlers == multiset{}
    ensures
      var exercised := At(w.doc, VerifyingRoute);
      var published := Next(plan, Next(plan, Next(plan, w, Completes(Cancel(false))), Completes(Publish(true, Fine))),
        Completes(ResumePublish(exercised, Fine)));
      && published.doc == At(w.doc, Succeeded)
      && Next(plan, published, Completes(ResumeCancel(w.doc, Fine))).doc == At(w.doc, Cancelled)
  {
  }
}
