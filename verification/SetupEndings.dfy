/**
 How a guided setup ends, and what each request makes of the stored document: told of the
 wait that ended and its result, for every world a run can reach.
 */
module SetupEndings {
  import opened Common
  import opened Setup
  import opened SetupSafety
  import opened SetupRequests
  import opened SetupPublication

  // ----- The setup runner -----

  /** What is stored when a runner that waited here ends on this result.  Only a probe that
      passes awaits publication.  A cancellation comes from a cooling wait or when the
      Worker was stopped for it; everything else is a failure, and the evidence of a probe
      is kept whatever it says. */
  predicate EndsSo(at: Runner, result: Ending, stored: Doc) {
    match at
    case Creating(_) => stored.state == Failed
    case Starting(_) => stored.state == Failed
    case CoolingToStart(_) => stored.state == Cancelled && stored.cancelRequested
    case Probing(d) =>
      && (result == Fine ==>
            stored.state == AwaitingPublication && stored.qualification == Some(true) && stored.worker == d.worker)
      && (result == Negative ==>
            stored.state == Failed && stored.qualification == Some(false) && stored.worker == d.worker)
      && (result == Late || result == Raises ==> stored.state == Failed)
      && result != Thermal
    case CoolingToProbe(_) => stored.state == Cancelled && stored.cancelRequested
    case Stopping(_) => if result == Fine then stored.state == Cancelled else stored.state == Failed
  }

  // The waits that end the setup rather than go on.
  predicate Ends(plan: string, w: World, result: Ending, idle: bool)
    requires w.runner.Some?
  {
    match w.runner.value
    case Creating(_) => plan in w.names || result != Fine
    case Starting(_) => result != Fine && result != Thermal
    case CoolingToStart(_) => w.doc.cancelRequested && (idle || w.doc.worker.None?)
    case Probing(_) => result != Thermal
    case CoolingToProbe(_) => w.doc.cancelRequested && (idle || w.doc.worker.None?)
    case Stopping(_) => true
  }

  // The document a setup ends with: the runner's copy where that was saved on the way, the
  // stored one otherwise.
  function EndDocument(at: Runner, result: Ending, stored: Doc): Doc {
    match at
    case Creating(_) => stored.(state := Failed)
    case Starting(d) => (if result == Late then d else stored).(state := Failed)
    case CoolingToStart(_) => stored.(state := Cancelled)
    case Probing(d) =>
      if result == Fine then d.(qualification := Some(true), state := AwaitingPublication)
      else if result == Negative then d.(qualification := Some(false), state := Failed)
      else stored.(state := Failed)
    case CoolingToProbe(_) => stored.(state := Cancelled)
    case Stopping(d) => if result == Fine then d.(state := Cancelled) else stored.(state := Failed)
  }

  // The wait after this one, with the document it is entered with.
  function NextWait(at: Runner, result: Ending, stored: Doc, id: Id): Runner {
    match at
    case Creating(d) => Starting(d.(worker := Some(id), state := StartingWorker))
    case Starting(d) =>
      if result == Thermal then CoolingToStart(d.(state := WaitingForThermalCapacity))
      else Probing(d.(state := Qualifying))
    case CoolingToStart(_) =>
      if stored.cancelRequested then Stopping(stored) else Starting(stored.(state := StartingWorker))
    case Probing(d) => CoolingToProbe(d.(state := WaitingForThermalCapacity))
    case CoolingToProbe(_) =>
      if stored.cancelRequested then Stopping(stored) else Probing(stored.(state := Qualifying))
    case Stopping(d) => Stopping(d)
  }

  // How a wait that comes back goes on or ends.
  ghost predicate Proceeds(plan: string, w: World, result: Ending, idle: bool, id: Id, after: World)
    requires w.runner.Some?
  {
    var at := w.runner.value;
    if Ends(plan, w, result, idle) then
      after.runner.None? && after.doc == EndDocument(at, result, w.doc) && EndsSo(at, result, after.doc)
    else
      && after.runner == Some(NextWait(at, result, w.doc, id))
      && after.doc == after.runner.value.doc
  }

  // A Worker made under the planned name, and kept even if only its registration's answer
  // was lost; a refused registration leaves none.
  ghost predicate Makes(plan: string, w: World, result: Ending, after: World)
    requires w.runner.Some?
  {
    if w.runner.value.Creating? && plan !in w.names && (result == Fine || result == Late) then
      after.names == w.names[plan := ThisSetup] && after.made == w.made + 1
    else after.names == w.names && after.made == w.made
  }

  lemma MakingEnds(plan: string, w: World, d: Doc, result: Ending, id: Id)
    requires w.runner == Some(Creating(d)) && !d.cancelRequested
    ensures
      var after := Last(Created(plan, w, d, result, id));
      && Makes(plan, w, result, after)
      && if plan in w.names || result != Fine then after.runner.None? && after.doc == w.doc.(state := Failed)
         else
           && after.doc == d.(worker := Some(id), state := StartingWorker)
           && after.runner == Some(Starting(after.doc))
  {
  }

  lemma WaitEnds(plan: string, w: World, result: Ending, idle: bool, id: Id)
    requires w.runner.Some? && Blind(w)
    ensures Proceeds(plan, w, result, idle, id, Last(Resumed(plan, w, result, idle, id)))
    ensures Makes(plan, w, result, Last(Resumed(plan, w, result, idle, id)))
  {
    hide Created;
    if w.runner.value.Creating? {
      MakingEnds(plan, w, w.runner.value.doc, result, id);
    }
  }

  /** In every run a wait of the setup runner that comes back either ends the setup or goes
      on to the next wait, as its kind and result decide.  A setup that ends is stored as
      awaiting publication, cancelled or failed: awaiting publication exactly if its probe
      passed, failed exactly if a step raised or was refused or the probe was negative, and
      a negative qualification is kept with the failure.  Only the wait for a Worker to be
      made makes one. */
  lemma HowASetupEnds(
      plan: string, names: map<string, Maker>, done: seq<Happening>, result: Ending, idle: bool, id: Id)
    requires Run(plan, Initial(names), done).runner.Some?
    ensures
      var w := Run(plan, Initial(names), done);
      var after := Run(plan, Initial(names), done + [Completes(Resume(result, idle, id))]);
      Proceeds(plan, w, result, idle, id, after) && Makes(plan, w, result, after)
    ensures
      var w := Run(plan, Initial(names), done);
      var after := Run(plan, Initial(names), done + [Completes(Resume(result, idle, id))]);
      after.runner.None? ==>
        && (after.doc.state == AwaitingPublication || after.doc.state == Cancelled || after.doc.state == Failed)
        && (after.doc.state == AwaitingPublication <==> w.runner.value.Probing? && result == Fine)
        && (after.doc.state == Failed <==>
              || w.runner.value.Creating? || w.runner.value.Starting?
              || (w.runner.value.Probing? && result != Fine)
              || (w.runner.value.Stopping? && result != Fine))
        && (w.runner.value.Probing? && result == Negative ==> after.doc.qualification == Some(false))
  {
    hide Run, Resumed, Blind;
    var w := Run(plan, Initial(names), done);
    EveryRunIsBlind(plan, names, done);
    RunsStep(plan, Initial(names), done, Completes(Resume(result, idle, id)));
    WaitEnds(plan, w, result, idle, id);
  }

  /** Taking a setup up: only one that is stored as queued or waiting for thermal capacity
      and that nobody runs.  A stored request is honoured at once; a name already in use
      fails; otherwise the runner waits for the Worker to be made, or to start if there is
      one. */
  lemma HowASetupStarts(plan: string, w: World, idle: bool)
    ensures
      var after := Last(Segment(plan, w, Start(idle)));
      var d := w.doc;
      if w.runner.Some? || (d.state != Queued && d.state != WaitingForThermalCapacity) then after == w
      else if d.cancelRequested then
        if d.worker.None? || idle then after == w.(doc := d.(state := Cancelled))
        else after == w.(runner := Some(Stopping(d)))
      else if d.worker.Some? then
        after == w.(doc := d.(state := StartingWorker), runner := Some(Starting(d.(state := StartingWorker))))
      else if plan in w.names then after == w.(doc := d.(state := Failed))
      else
        after == w.(doc := d.(state := CreatingWorker), runner := Some(Creating(d.(state := CreatingWorker))))
  {
  }

  // ----- The requests -----

  /** Publication begins exactly for a setup awaiting it, with a recorded Worker and a
      review.  It is stored as publishing first; names that collide give it back for review,
      any other exception leaves it publishing, and otherwise its route is verified: it
      succeeds if the route answers, fails on an HTTP error and stays otherwise. */
  lemma HowAPublicationGoes(plan: string, w: World, reviewed: bool, result: Ending, d: Doc, verified: Ending)
    ensures
      var trace := Segment(plan, w, Publish(reviewed, result));
      var begins := w.doc.state == AwaitingPublication && w.doc.worker.Some? && reviewed;
      && (!begins ==> trace == [w])
      && (begins ==>
            && trace[0] == w.(doc := w.doc.(state := Publishing))
            && Last(trace).doc == w.doc.(state :=
                 if result == Negative then AwaitingPublication
                 else if result == Fine then VerifyingRoute else Publishing)
            && Last(trace).handlers == (
                 if result == Fine then w.handlers + multiset{Exercising(w.doc.(state := VerifyingRoute))}
                 else w.handlers))
    ensures
      var after := Last(Segment(plan, w, ResumePublish(d, verified)));
      if Exercising(d) !in w.handlers then after == w
      else
        && after.handlers == w.handlers - multiset{Exercising(d)}
        && after.doc == match verified
           case Fine => d.(state := Succeeded)
           case Negative => d.(state := Failed)
           case _ => w.doc
  {
  }

  /** Cancelling: refused once publication has begun; a setup at rest is cancelled once its
      Worker is stopped; one in progress only gets the request stored.  Retrying puts a
      failed or cancelled setup whose plan has not changed back in the queue, without the
      request and with its Worker and evidence. */
  lemma HowARequestGoes(plan: string, w: World, idle: bool, same: bool, d: Doc, stopped: Ending)
    ensures
      var after, s := Last(Segment(plan, w, Cancel(idle))), w.doc.state;
      if s == Publishing || s == VerifyingRoute || s == Succeeded then after == w
      else if s == Cancelled || s == Failed || s == AwaitingPublication then
        if idle || w.doc.worker.None? then after == w.(doc := w.doc.(state := Cancelled))
        else after == w.(handlers := w.handlers + multiset{Cancelling(w.doc)})
      else after == w.(doc := w.doc.(cancelRequested := true))
    ensures
      var after := Last(Segment(plan, w, ResumeCancel(d, stopped)));
      if Cancelling(d) !in w.handlers then after == w
      else
        && after.handlers == w.handlers - multiset{Cancelling(d)}
        && after.doc == if stopped == Fine then d.(state := Cancelled) else w.doc
    ensures
      var after := Last(Segment(plan, w, Retry(same)));
      after ==
        if same && (w.doc.state == Failed || w.doc.state == Cancelled)
        then w.(doc := w.doc.(state := Queued, cancelRequested := false)) else w
  {
  }

  /** Reconciliation after a restart: unfinished work is queued again, a publication that
      was cut short goes back for review or, if the profile has a revision by then, fails,
      and so does one whose route was being verified.  Nothing but the state changes. */
  lemma HowARestartGoes(d: Doc, revised: bool)
    ensures
      Reconciled(d, revised) == d.(state :=
        match d.state
        case Queued => Queued
        case ApplyingPolicy => Queued
        case CreatingWorker => Queued
        case StartingWorker => Queued
        case VerifyingIdentity => Queued
        case Qualifying => Queued
        case WaitingForThermalCapacity => Queued
        case Publishing => if revised then Failed else AwaitingPublication
        case VerifyingRoute => Failed
        case s => s)
  {
  }

  // ----- Every publication was reviewed -----

  ghost predicate NobodyExercises(handlers: multiset<Handler>) {
    forall h :: h in handlers ==> !h.Exercising?
  }

  // Publication has not begun, and nobody is at it.
  ghost predicate Unpublished(w: World) {
    !Begun(w.doc.state) && NobodyExercises(w.handlers)
  }

  ghost predicate AllUnpublished(trace: seq<World>) {
    forall k :: 0 <= k < |trace| ==> Unpublished(trace[k])
  }

  // A reviewed publication of a setup that awaits it.
  predicate BeginsPublication(w: World, e: Event) {
    e.Publish? && e.reviewed && w.doc.state == AwaitingPublication && w.doc.worker.Some?
  }

  lemma CreationStaysUnpublished(plan: string, w: World, d: Doc, result: Ending, id: Id)
    requires Unpublished(w) && Unfinished(d.state)
    ensures AllUnpublished(Created(plan, w, d, result, id))
  {
  }

  lemma ResumeStaysUnpublished(plan: string, w: World, result: Ending, idle: bool, id: Id)
    requires Unpublished(w) && Blind(w)
    ensures AllUnpublished(Resumed(plan, w, result, idle, id))
  {
    hide NobodyExercises, Created;
    if w.runner.Some? && w.runner.value.Creating? {
      CreationStaysUnpublished(plan, w, w.runner.value.doc, result, id);
    }
  }

  lemma RequestStaysUnpublished(w: World, idle: bool, same: bool)
    requires Unpublished(w)
    ensures AllUnpublished(CancelRequest(w, idle)) && AllUnpublished(RetryRequest(w, same))
  {
  }

  lemma HandlerStaysUnpublished(w: World, d: Doc, result: Ending)
    requires Unpublished(w)
    ensures AllUnpublished(CancelFinishes(w, d, result)) && AllUnpublished(PublishFinishes(w, d, result))
  {
  }

  lemma SegmentStaysUnpublished(plan: string, w: World, e: Event)
    requires Unpublished(w) && Blind(w) && !BeginsPublication(w, e)
    ensures AllUnpublished(Segment(plan, w, e))
  {
    hide Resumed, CancelRequest, RetryRequest, CancelFinishes, PublishFinishes, NobodyExercises;
    match e
    case Resume(result, idle, id) => ResumeStaysUnpublished(plan, w, result, idle, id);
    case Cancel(idle) => RequestStaysUnpublished(w, idle, false);
    case Retry(same) => RequestStaysUnpublished(w, false, same);
    case ResumeCancel(d, result) => HandlerStaysUnpublished(w, d, result);
    case ResumePublish(d, result) => HandlerStaysUnpublished(w, d, result);
    case _ =>
  }

  lemma NextStaysUnpublished(plan: string, w: World, h: Happening)
    requires Unpublished(w) && Blind(w) && !BeginsPublication(w, h.event)
    ensures Unpublished(Next(plan, w, h))
  {
    hide Segment, Blind, BeginsPublication;
    SegmentStaysUnpublished(plan, w, h.event);
  }

  /** No publication without review: in every run, whatever dies and restarts, a setup that is
      stored as publishing, verifying its route or succeeded, or whose route is being
      verified, was at some earlier moment awaiting publication with a recorded Worker and a
      qualification that had passed, and a reviewed request to publish it came then. */
  lemma {:induction false} EveryPublicationWasReviewed(plan: string, names: map<string, Maker>, done: seq<Happening>)
      returns (i: nat)
    requires !Unpublished(Run(plan, Initial(names), done))
    ensures i < |done| && done[i].event.Publish? && done[i].event.reviewed
    ensures
      var d := Run(plan, Initial(names), done[..i]).doc;
      d.state == AwaitingPublication && d.worker.Some? && d.qualification == Some(true)
  {
    hide Next, Blind, Unpublished;
    FirstWorldIsUnpublished(names);
    var init := done[..|done| - 1];
    var w := Run(plan, Initial(names), init);
    if Unpublished(w) {
      i := |init|;
      EveryRunIsBlind(plan, names, init);
      EveryRunHasEvidence(plan, names, init);
      if !BeginsPublication(w, Last(done).event) {
        NextStaysUnpublished(plan, w, Last(done));
      }
    } else {
      i := EveryPublicationWasReviewed(plan, names, init);
      assert init[..i] == done[..i];
    }
  }

  lemma FirstWorldIsUnpublished(names: map<string, Maker>)
    ensures Unpublished(Initial(names))
  {
  }
}
