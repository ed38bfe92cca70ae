/**
 Guided setup as a protocol: the setup runner, cancel, retry and publish interleave where
 they wait, each with its own copy of the stored document, and the process may die after
 any write.

 One setup is followed; what happens to other setups only takes Worker names.  A segment
 is what an actor does between two waits; it is the list of worlds after its writes.
 */
module Setup {
  import opened Common

  type Id = string

  datatype State =
    | Queued | ApplyingPolicy | CreatingWorker | StartingWorker | VerifyingIdentity | Qualifying
    | WaitingForThermalCapacity | AwaitingPublication | Publishing | VerifyingRoute
    | Succeeded | Failed | Cancelled

  // `qualification` is the stored test, told by whether it passed.
  datatype Doc = Doc(state: State, cancelRequested: bool, worker: Option<Id>, qualification: Option<bool>)

  // Where the setup runner waits, with its own copy of the document.
  datatype Runner =
    | Creating(doc: Doc)
    | Starting(doc: Doc)
    | CoolingToStart(doc: Doc)
    | Probing(doc: Doc)
    | CoolingToProbe(doc: Doc)
    | Stopping(doc: Doc)

  // Where a request handler waits.
  datatype Handler = Cancelling(doc: Doc) | Exercising(doc: Doc)

  datatype Maker = ThisSetup | Other

  datatype World = World(
    doc: Doc,                      // the stored document
    names: map<string, Maker>,     // names of current Workers
    made: nat,                     // Workers this setup has created and not taken back
    runner: Option<Runner>,
    handlers: multiset<Handler>)

  // What a wait or an external call ends with.  Late is an exception after its effect.
  datatype Ending = Fine | Thermal | Negative | Late | Raises

  datatype Event =
    | Start(idle: bool)
    | Resume(result: Ending, idle: bool, id: Id)
    | Cancel(idle: bool)
    | ResumeCancel(doc: Doc, result: Ending)
    | Retry(same: bool)
    | Publish(reviewed: bool, result: Ending)
    | ResumePublish(doc: Doc, result: Ending)
    | OtherCreates(name: string)
    | Release(name: string)

  // ----- Writes -----

  function Save(w: World, d: Doc): World {
    w.(doc := d)
  }

  function At(d: Doc, s: State): Doc {
    d.(state := s)
  }

  // The exception handler reloads the document before recording the failure.
  function Fails(w: World): seq<World> {
    [Save(w, At(w.doc, Failed)).(runner := None)]
  }

  // Stop the Worker if it runs, then record the cancellation with the copy at hand.
  function Cancels(w: World, d: Doc, idle: bool): seq<World> {
    if d.worker.None? || idle then [Save(w, At(d, Cancelled)).(runner := None)]
    else [w.(runner := Some(Stopping(d)))]
  }

  function BeginsStart(w: World, d: Doc): seq<World> {
    var e := At(d, StartingWorker);
    [Save(w, e).(runner := Some(Starting(e)))]
  }

  function BeginsProbe(w: World, d: Doc): seq<World> {
    var e := At(d, Qualifying);
    [Save(w, e).(runner := Some(Probing(e)))]
  }

  // ----- The setup runner -----

  function Started(plan: string, w: World, idle: bool): seq<World> {
    var d := w.doc;
    if w.runner.Some? || (d.state != Queued && d.state != WaitingForThermalCapacity) then [w]
    else if d.cancelRequested then Cancels(w, d, idle)
    else
      var applying := At(d, ApplyingPolicy);
      if d.worker.Some? then [Save(w, applying)] + BeginsStart(Save(w, applying), applying)
      else
        var creating := At(d, CreatingWorker);
        [Save(w, applying), Save(w, creating)] + BeginsCreating(plan, Save(w, creating), creating)
  }

  // A name in use is refused before anything is waited for.
  function BeginsCreating(plan: string, w: World, d: Doc): seq<World> {
    if plan in w.names then Fails(w) else [w.(runner := Some(Creating(d)))]
  }

  // The Worker is stored before its id is stored with the setup.  Negative is a refused
  // registration, for which the Worker is deleted again.
  function Created(plan: string, w: World, d: Doc, result: Ending, id: Id): seq<World> {
    if plan in w.names then Fails(w)
    else
      var made := w.(names := w.names[plan := ThisSetup], made := w.made + 1);
      match result
      case Fine => [made] + Records(made, d.(worker := Some(id)))
      case Negative => [made, w] + Fails(w)
      case Late => [made] + Fails(made)
      case _ => Fails(w)
  }

  function Records(w: World, d: Doc): seq<World> {
    [Save(w, d)] + GoesOn(Save(w, d), d)
  }

  function GoesOn(w: World, d: Doc): seq<World> {
    if d.cancelRequested then Cancels(w, d, true) else BeginsStart(w, d)
  }

  // The Worker runs; asking for its identity may still fail.
  function Identifies(w: World, d: Doc, result: Ending): seq<World> {
    var e := At(d, VerifyingIdentity);
    [Save(w, e)] + if result == Fine then BeginsProbe(Save(w, e), e) else Fails(Save(w, e))
  }

  function Resumed(plan: string, w: World, result: Ending, idle: bool, id: Id): seq<World> {
    match w.runner
    case None => [w]
    case Some(Creating(d)) => Created(plan, w, d, result, id)
    case Some(Starting(d)) =>
      if result == Thermal then
        var e := At(d, WaitingForThermalCapacity);
        [Save(w, e).(runner := Some(CoolingToStart(e)))]
      else if result != Fine && result != Late then Fails(w)
      else Identifies(w, d, result)
    case Some(CoolingToStart(_)) =>
      if w.doc.cancelRequested then Cancels(w, w.doc, idle) else BeginsStart(w, w.doc)
    case Some(Probing(d)) =>
      (match result
       case Thermal =>
         var e := At(d, WaitingForThermalCapacity);
         [Save(w, e).(runner := Some(CoolingToProbe(e)))]
       case Fine =>
         var e := d.(qualification := Some(true));
         [Save(w, e), Save(w, At(e, AwaitingPublication)).(runner := None)]
       case Negative =>
         var e := d.(qualification := Some(false));
         [Save(w, e)] + Fails(Save(w, e))
       case _ => Fails(w))
    case Some(CoolingToProbe(_)) =>
      if w.doc.cancelRequested then Cancels(w, w.doc, idle) else BeginsProbe(w, w.doc)
    case Some(Stopping(d)) =>
      if result != Fine then Fails(w) else [Save(w, At(d, Cancelled)).(runner := None)]
  }

  // ----- The request handlers -----

  function CancelRequest(w: World, idle: bool): seq<World> {
    var d := w.doc;
    if d.state == Publishing || d.state == VerifyingRoute || d.state == Succeeded then [w]
    else if d.state == Cancelled || d.state == Failed || d.state == AwaitingPublication then CancelsNow(w, d, idle)
    else [Save(w, d.(cancelRequested := true))]
  }

  function CancelsNow(w: World, d: Doc, idle: bool): seq<World> {
    if d.worker.None? || idle then [Save(w, At(d, Cancelled))]
    else [w.(handlers := w.handlers + multiset{Cancelling(d)})]
  }

  function RetryRequest(w: World, same: bool): seq<World> {
    if (w.doc.state != Failed && w.doc.state != Cancelled) || !same then [w]
    else [Save(w, At(w.doc, Queued).(cancelRequested := false))]
  }

  // `result` is Negative when public names collide.
  function PublishRequest(w: World, reviewed: bool, result: Ending): seq<World> {
    var d := w.doc;
    if d.state != AwaitingPublication || d.worker.None? || !reviewed then [w]
    else
      var publishing := Save(w, At(d, Publishing));
      if result == Negative then [publishing, Save(w, At(d, AwaitingPublication))]
      else if result != Fine then [publishing]
      else
        var e := At(d, VerifyingRoute);
        [publishing, Save(w, e).(handlers := w.handlers + multiset{Exercising(e)})]
  }

  function CancelFinishes(w: World, d: Doc, result: Ending): seq<World> {
    if Cancelling(d) !in w.handlers then [w]
    else
      var left := w.(handlers := w.handlers - multiset{Cancelling(d)});
      if result == Fine then [Save(left, At(d, Cancelled))] else [left]
  }

  function PublishFinishes(w: World, d: Doc, result: Ending): seq<World> {
    if Exercising(d) !in w.handlers then [w]
    else
      var left := w.(handlers := w.handlers - multiset{Exercising(d)});
      if result == Fine then [Save(left, At(d, Succeeded))]
      else if result == Negative then [Save(left, At(d, Failed))]
      else [left]
  }

  function Segment(plan: string, w: World, e: Event): (trace: seq<World>)
    ensures trace != []
  {
    match e
    case Start(idle) => Started(plan, w, idle)
    case Resume(result, idle, id) => Resumed(plan, w, result, idle, id)
    case Cancel(idle) => CancelRequest(w, idle)
    case ResumeCancel(d, result) => CancelFinishes(w, d, result)
    case Retry(same) => RetryRequest(w, same)
    case Publish(reviewed, result) => PublishRequest(w, reviewed, result)
    case ResumePublish(d, result) => PublishFinishes(w, d, result)
    case OtherCreates(name) => if name in w.names then [w] else [w.(names := w.names[name := Other])]
    case Release(name) => [w.(names := w.names - {name})]
  }

  // ----- Death and restart -----

  // What reconciliation makes of a stored document.  `revised` tells whether the guided
  // profile has a published revision.
  function Reconciled(d: Doc, revised: bool): Doc {
    if Unfinished(d.state) then At(d, Queued)
    else if d.state == Publishing then At(d, if revised then Failed else AwaitingPublication)
    else if d.state == VerifyingRoute then At(d, Failed)
    else d
  }

  // What a restart takes up again.
  predicate Unfinished(s: State) {
    || s == Queued || s == ApplyingPolicy || s == CreatingWorker || s == StartingWorker
    || s == VerifyingIdentity || s == Qualifying || s == WaitingForThermalCapacity
  }

  // Whoever was waiting is gone.
  function Restarted(w: World, revised: bool): World {
    w.(doc := Reconciled(w.doc, revised), runner := None, handlers := multiset{})
  }

  datatype Happening = Completes(event: Event) | Dies(event: Event, writes: nat, revised: bool)

  // Dying in a segment leaves the world after some of its writes.
  function Next(plan: string, w: World, h: Happening): World {
    var trace := Segment(plan, w, h.event);
    match h
    case Completes(_) => Last(trace)
    case Dies(_, writes, revised) =>
      Restarted(if writes == 0 then w else if writes <= |trace| then trace[writes - 1] else Last(trace), revised)
  }

  function Run(plan: string, w: World, happenings: seq<Happening>): World {
    if happenings == [] then w else Next(plan, Run(plan, w, happenings[..|happenings| - 1]), Last(happenings))
  }

  // Running further is running from where one has come.
  lemma {:induction false} RunsOn(plan: string, w: World, first: seq<Happening>, rest: seq<Happening>)
    ensures Run(plan, w, first + rest) == Run(plan, Run(plan, w, first), rest)
    decreases |rest|
  {
    hide Next;
    if rest == [] {
      assert first + rest == first;
    } else {
      assert (first + rest)[..|first + rest| - 1] == first + rest[..|rest| - 1];
      RunsOn(plan, w, first, rest[..|rest| - 1]);
    }
  }

  lemma RunsStep(plan: string, w: World, first: seq<Happening>, h: Happening)
    ensures Run(plan, w, first + [h]) == Next(plan, Run(plan, w, first), h)
  {
  }

  function Initial(names: map<string, Maker>): World {
    World(Doc(Queued, false, None, None), names, 0, None, multiset{})
  }
}
