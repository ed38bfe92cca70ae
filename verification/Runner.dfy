/**
 The request loop of a qualification run: loading an arm when the block or arm
 changes, pacing sustained requests, and journalling every attempt.

 What the outside world does in each pass of the loop is a parameter: which checks
 pass, what the clock reads, whether the load and the request raise.  A pass that
 raises ends the run; the journal then gets its cleanup record like any other.
 */
module Runner {
  import opened Common
  import opened Sorting
  import opened Schedule
  import opened ScheduleProperties
  import opened ScheduleCounts
  import opened AttemptJournal

  // A clock reading taken while waiting, and whether the checks before it pass.
  datatype Poll = Poll(now: real, safe: bool)

  datatype Turn = Turn(
    permitted: bool,        // maintenance window and safety checks at the top of the pass
    due: real,              // the clock when a measured request becomes due
    polls: seq<Poll>,       // further readings while waiting for the paced start
    loaded: bool,           // stopping the old arm, cooling down and loading the new one
    serving: bool,          // the gateway for the new arm answers
    intact: bool,           // the image file still has its frozen digest
    startedAt: real,        // the clock when the attempt starts
    status: Option<string>, // the attempt's status, None when an exception escapes
    safeAfter: bool)        // the safety check after the attempt

  datatype Failure = Refused | LoadFailed | ImageChanged | AttemptRaised | UnsafeAfter | EndedEarly

  // The clock never goes backwards.
  ghost predicate PollsRun(polls: seq<Poll>, from: real) {
    polls == [] || (from <= polls[0].now && PollsRun(polls[1..], polls[0].now))
  }

  function LastPoll(polls: seq<Poll>, from: real): real {
    if polls == [] then from else Last(polls).now
  }

  ghost predicate ClockRuns(turns: seq<Turn>, from: real) {
    turns == [] ||
    var t := turns[0];
    && from <= t.due && PollsRun(t.polls, t.due)
    && LastPoll(t.polls, t.due) <= t.startedAt
    && ClockRuns(turns[1..], t.startedAt)
  }

  const INTERVAL: real := 7200.0 / 209.0

  function MeasuredCount(rows: seq<Request>): nat {
    if rows == [] then 0 else MeasuredCount(rows[..|rows| - 1]) + if Last(rows).warmup then 0 else 1
  }

  // When the measured rows among these started.
  function MeasuredStarts(rows: seq<Request>, turns: seq<Turn>): (starts: seq<real>)
    requires |turns| == |rows|
    ensures |starts| == MeasuredCount(rows)
  {
    if rows == [] then []
    else
      MeasuredStarts(rows[..|rows| - 1], turns[..|rows| - 1])
      + if Last(rows).warmup then [] else [Last(turns).startedAt]
  }

  // ----- What the journal must look like -----

  // The attempt records alone, in order.
  function AttemptsIn(events: seq<Event>): seq<Event> {
    if events == [] then []
    else
      AttemptsIn(events[..|events| - 1])
      + if Last(events).Started? || Last(events).Finished? then [Last(events)] else []
  }

  // Started and finished for each row in schedule order.
  function Pairs(rows: seq<Request>, statuses: seq<string>): seq<Event>
    requires |statuses| <= |rows|
  {
    if statuses == [] then []
    else
      var k := |statuses| - 1;
      Pairs(rows, statuses[..k]) + [Started(rows[k].id), Finished(rows[k].id, statuses[k])]
  }

  // The attempts of a run that finished these statuses and perhaps left one hanging.
  function AttemptsOf(rows: seq<Request>, statuses: seq<string>, hanging: bool): seq<Event>
    requires |statuses| <= |rows| && (hanging ==> |statuses| < |rows|)
  {
    Pairs(rows, statuses) + if hanging then [Started(rows[|statuses|].id)] else []
  }

  function LastLoad(events: seq<Event>): Option<(nat, ArmId)> {
    if events == [] then None
    else if Last(events).Loaded? then Some((Last(events).block, Last(events).arm))
    else LastLoad(events[..|events| - 1])
  }

  // Every attempt was started while its own block and arm was the one last loaded.
  ghost predicate ServedByOwnArm(events: seq<Event>, rows: seq<Request>) {
    forall i :: 0 <= i < |events| && events[i].Started? ==>
      exists r :: r in rows && r.id == events[i].attempt && LastLoad(events[..i]) == Some((r.block, r.arm))
  }

  lemma ServedAppends(events: seq<Event>, rows: seq<Request>, e: Event)
    requires ServedByOwnArm(events, rows)
    requires e.Started? ==> exists r :: r in rows && r.id == e.attempt && LastLoad(events) == Some((r.block, r.arm))
    ensures ServedByOwnArm(events + [e], rows)
  {
    var all := events + [e];
    forall i | 0 <= i < |all| && all[i].Started?
      ensures exists r :: r in rows && r.id == all[i].attempt && LastLoad(all[..i]) == Some((r.block, r.arm))
    {
      assert i < |events| ==> all[..i] == events[..i];
      assert all[..|events|] == events;
    }
  }

  lemma AttemptsAppend(events: seq<Event>, e: Event)
    ensures AttemptsIn(events + [e]) == AttemptsIn(events) + if e.Started? || e.Finished? then [e] else []
  {
  }

  // Waiting ends well: at once, or at a reading up to which every check passes.
  ghost predicate Reaches(due: real, polls: seq<Poll>, target: real) {
    || due >= target
    || exists n :: 0 <= n < |polls| && polls[n].now >= target && forall i :: 0 <= i <= n ==> polls[i].safe
  }

  // Wait until the clock reaches `target`; false when a check fails or readings run out.
  method AwaitPacedStart(due: real, polls: seq<Poll>, target: real) returns (reached: bool)
    requires PollsRun(polls, due)
    ensures reached ==> LastPoll(polls, due) >= target
    ensures reached <==> Reaches(due, polls, target)
  {
    var now := due;
    var i := 0;
    while now < target && i < |polls|
      invariant 0 <= i <= |polls|
      invariant PollsRun(polls[i..], now)
      invariant i == |polls| ==> now == LastPoll(polls, due)
      invariant i == 0 ==> now == due
      invariant i > 0 ==> now == polls[i - 1].now
      invariant forall k :: 0 <= k < i ==> polls[k].safe
      invariant forall k :: 0 <= k < i - 1 ==> polls[k].now < target
      invariant i > 0 ==> due < target
      decreases |polls| - i
    {
      if !polls[i].safe {
        return false;
      }
      assert polls[i..][0] == polls[i] && polls[i..][1..] == polls[i + 1..];
      now := polls[i].now;
      i := i + 1;
    }
    if now >= target {
      LastPollIsLatest(polls[i..], now);
      assert i < |polls| ==> Last(polls[i..]) == Last(polls);
      return true;
    }
    return false;
  }

  lemma {:induction false} LastPollIsLatest(polls: seq<Poll>, from: real)
    requires PollsRun(polls, from)
    ensures LastPoll(polls, from) >= from
  {
    if polls != [] {
      LastPollIsLatest(polls[1..], polls[0].now);
    }
  }

  // Everything the loop has established after `done` rows.
  ghost predicate Progress(events: seq<Event>, rows: seq<Request>, statuses: seq<string>, hanging: bool) {
    && |statuses| <= |rows| && (hanging ==> |statuses| < |rows|)
    && AttemptsIn(events) == AttemptsOf(rows, statuses, hanging)
    && ServedByOwnArm(events, rows)
  }

  // Paced starts: each at least k intervals after the first measured request was due.
  ghost predicate Paced(first: Option<real>, starts: seq<real>) {
    && (starts != [] ==> first.Some?)
    && forall k :: 0 <= k < |starts| ==> starts[k] >= first.value + k as real * INTERVAL
  }

  // Paced, and everything so far happened between the run's start and now.
  ghost predicate Clocked(first: Option<real>, starts: seq<real>, runStart: real, now: real) {
    && Paced(first, starts)
    && runStart <= now
    && (first.Some? ==> runStart <= first.value)
    && forall k :: 0 <= k < |starts| ==> starts[k] <= now
  }

  // ----- Why a run stops -----

  // The first measured row.
  ghost predicate LeadsMeasured(rows: seq<Request>, j: int) {
    0 <= j < |rows| && !rows[j].warmup && forall i :: 0 <= i < j ==> rows[i].warmup
  }

  // The wait for this row ends well: k intervals after the first measured row was due,
  // k being the measured rows before it.
  ghost predicate StartsOnTime(rows: seq<Request>, turns: seq<Turn>, k: nat)
    requires k < |rows| == |turns|
  {
    forall j :: LeadsMeasured(rows, j) ==>
      Reaches(turns[k].due, turns[k].polls, turns[j].due + MeasuredCount(rows[..k]) as real * INTERVAL)
  }

  ghost predicate MayWait(rows: seq<Request>, sustained: bool, turns: seq<Turn>, k: nat)
    requires k < |rows| == |turns|
  {
    turns[k].permitted && (sustained && !rows[k].warmup ==> StartsOnTime(rows, turns, k))
  }

  // Another arm or block than for the row before.
  predicate Changes(rows: seq<Request>, k: nat)
    requires k < |rows|
  {
    k == 0 || rows[k].block != rows[k - 1].block || rows[k].arm != rows[k - 1].arm
  }

  ghost predicate Passes(rows: seq<Request>, sustained: bool, turns: seq<Turn>, k: nat)
    requires k < |rows| == |turns|
  {
    && MayWait(rows, sustained, turns, k)
    && (Changes(rows, k) ==> turns[k].loaded && turns[k].serving)
    && turns[k].intact && turns[k].status.Some? && turns[k].safeAfter
  }

  /** Why the run stopped.  Every row with a started record passed all checks before it: the
      window and safety checks, all of them until its paced start, the load where block or
      arm changes, and the image.  The failure names the first check that did not pass. */
  ghost predicate Explained(rows: seq<Request>, sustained: bool, turns: seq<Turn>, statuses: seq<string>,
      hanging: bool, failure: Option<Failure>)
    requires |turns| == |rows| && |statuses| <= |rows|
  {
    var at := |statuses|;
    && (forall k :: 0 <= k < at || (k == at < |rows| && hanging) ==>
          && turns[k].permitted && turns[k].intact
          && (Changes(rows, k) ==> turns[k].loaded && turns[k].serving)
          && (sustained && !rows[k].warmup ==> StartsOnTime(rows, turns, k)))
    && (forall k :: 0 <= k < at ==> turns[k].status == Some(statuses[k]))
    && (forall k :: 0 <= k < at - (if failure == Some(UnsafeAfter) then 1 else 0) ==> turns[k].safeAfter)
    && (hanging <==> failure == Some(AttemptRaised))
    && match failure
       case None => true
       case Some(Refused) => at < |rows| && !MayWait(rows, sustained, turns, at)
       case Some(LoadFailed) =>
         && at < |rows| && MayWait(rows, sustained, turns, at)
         && Changes(rows, at) && !(turns[at].loaded && turns[at].serving)
       case Some(ImageChanged) =>
         && at < |rows| && MayWait(rows, sustained, turns, at)
         && (Changes(rows, at) ==> turns[at].loaded && turns[at].serving) && !turns[at].intact
       case Some(AttemptRaised) => at < |rows| && turns[at].status.None?
       case Some(UnsafeAfter) => at > 0 && !turns[at - 1].safeAfter
       case Some(EndedEarly) => false
  }

  // When the first measured row so far was due.
  ghost predicate Since(rows: seq<Request>, turns: seq<Turn>, i: nat, first: Option<real>)
    requires i <= |rows| == |turns|
  {
    if first.None? then forall k :: 0 <= k < i ==> rows[k].warmup
    else exists j :: j < i && LeadsMeasured(rows, j) && first.value == turns[j].due
  }

  lemma DueSince(rows: seq<Request>, turns: seq<Turn>, i: nat, before: Option<real>, first: Option<real>,
      starts: seq<real>)
    requires i < |rows| == |turns| && Since(rows, turns, i, before)
    requires first == if !rows[i].warmup && before.None? then Some(turns[i].due) else before
    ensures Since(rows, turns, i + 1, first)
    ensures !rows[i].warmup && |starts| == MeasuredCount(rows[..i]) ==>
      (StartsOnTime(rows, turns, i) <==>
         Reaches(turns[i].due, turns[i].polls, first.value + |starts| as real * INTERVAL))
  {
  }

  // A measured request of a sustained run waits for its own start; others do not wait.
  method AwaitTurn(rows: seq<Request>, sustained: bool, turns: seq<Turn>, i: nat, before: Option<real>,
      starts: seq<real>, runStart: real, clock: real)
      returns (ready: bool, first: Option<real>)
    requires i < |rows| == |turns| && Clocked(before, starts, runStart, clock) && clock <= turns[i].due
    requires PollsRun(turns[i].polls, turns[i].due) && LastPoll(turns[i].polls, turns[i].due) <= turns[i].startedAt
    requires sustained ==> |starts| == MeasuredCount(rows[..i]) && Since(rows, turns, i, before)
    ensures Clocked(first, starts, runStart, turns[i].startedAt)
    ensures ready && sustained && !rows[i].warmup ==>
      Clocked(first, starts + [turns[i].startedAt], runStart, turns[i].startedAt)
    ensures ready && sustained ==> Since(rows, turns, i + 1, first)
    ensures ready <==> MayWait(rows, sustained, turns, i)
  {
    hide Reaches, MeasuredCount, StartsOnTime, Since;
    var turn := turns[i];
    LastPollIsLatest(turn.polls, turn.due);
    first := before;
    if !turn.permitted {
      return false, first;
    }
    if sustained {
      DueSince(rows, turns, i, before, if !rows[i].warmup && before.None? then Some(turn.due) else before, starts);
    }
    if sustained && !rows[i].warmup {
      if first.None? {
        first := Some(turn.due);
      }
      ready := AwaitPacedStart(turn.due, turn.polls, first.value + |starts| as real * INTERVAL);
    } else {
      ready := true;
    }
  }

  // Replace the served arm when the row needs another one.
  method LoadArm(journal: Journal, rows: seq<Request>, statuses: seq<string>, turn: Turn,
      lastBlock: Option<(nat, ArmId)>) returns (ready: bool)
    requires journal.Valid() && |statuses| < |rows| && Progress(journal.events, rows, statuses, false)
    requires lastBlock == LastLoad(journal.events) == LoadBefore(rows, |statuses|)
    modifies journal
    ensures journal.Valid() && Progress(journal.events, rows, statuses, false)
    ensures ready ==> LastLoad(journal.events) == LoadBefore(rows, |statuses| + 1)
    ensures ready <==> !Changes(rows, |statuses|) || (turn.loaded && turn.serving)
  {
    hide Progress, LastLoad;
    var row := rows[|statuses|];
    if lastBlock == Some((row.block, row.arm)) {
      return true;
    }
    if !turn.loaded {
      return false;
    }
    Note(journal, rows, statuses, false, Loaded(row.block, row.arm));
    return turn.serving;
  }

  // What the rows before this one leave loaded.
  function LoadBefore(rows: seq<Request>, i: nat): Option<(nat, ArmId)>
    requires i <= |rows|
  {
    if i == 0 then None else Some((rows[i - 1].block, rows[i - 1].arm))
  }

  // One more turn: what stops it before its attempt,
  lemma TurnStops(rows: seq<Request>, sustained: bool, turns: seq<Turn>, statuses: seq<string>)
    requires |statuses| < |rows| == |turns| && Explained(rows, sustained, turns, statuses, false, None)
    ensures
      var at, turn := |statuses|, turns[|statuses|];
      var ready := !Changes(rows, at) || (turn.loaded && turn.serving);
      && (!MayWait(rows, sustained, turns, at) ==> Explained(rows, sustained, turns, statuses, false, Some(Refused)))
      && (MayWait(rows, sustained, turns, at) && !ready ==>
            Explained(rows, sustained, turns, statuses, false, Some(LoadFailed)))
      && (MayWait(rows, sustained, turns, at) && ready && !turn.intact ==>
            Explained(rows, sustained, turns, statuses, false, Some(ImageChanged)))
  {
  }

  // or how its attempt ends.
  lemma TurnAttempts(rows: seq<Request>, sustained: bool, turns: seq<Turn>, statuses: seq<string>)
    requires |statuses| < |rows| == |turns| && Explained(rows, sustained, turns, statuses, false, None)
    ensures
      var at, turn := |statuses|, turns[|statuses|];
      MayWait(rows, sustained, turns, at) && (Changes(rows, at) ==> turn.loaded && turn.serving) && turn.intact ==>
        if turn.status.None? then Explained(rows, sustained, turns, statuses, true, Some(AttemptRaised))
        else Explained(rows, sustained, turns, statuses + [turn.status.value], false,
                       if turn.safeAfter then None else Some(UnsafeAfter))
  {
  }

  lemma ExplainedMeans(rows: seq<Request>, sustained: bool, turns: seq<Turn>, statuses: seq<string>, hanging: bool,
      failure: Option<Failure>)
    requires |statuses| <= |rows| == |turns| && Explained(rows, sustained, turns, statuses, hanging, failure)
    requires failure == None ==> |statuses| == |rows|
    ensures failure != Some(EndedEarly)
    ensures failure == None <==> forall k :: 0 <= k < |rows| ==> Passes(rows, sustained, turns, k)
  {
    hide StartsOnTime;
    if failure.Some? {
      assert !Passes(rows, sustained, turns, if failure == Some(UnsafeAfter) then |statuses| - 1 else |statuses|);
    }
  }

  /** Run the frozen rows against the world described by `turns`, journalling as it goes.
      `first` is when the first measured request became due and `starts` when the
      measured attempts of a sustained run actually started.  The first check that does
      not pass ends the run and is the failure reported. */
  method Execute(journal: Journal, rows: seq<Request>, sustained: bool, turns: seq<Turn>, runStart: real, runEnd: real)
      returns (statuses: seq<string>, hanging: bool, first: Option<real>, starts: seq<real>, failure: Option<Failure>)
    requires journal.Valid() && journal.events == []
    requires |turns| == |rows| && ClockRuns(turns, runStart)
    requires |rows| > 0 ==> Last(turns).startedAt <= runEnd
    modifies journal
    ensures journal.Valid() && Progress(journal.events, rows, statuses, hanging)
    ensures |statuses| <= |rows|
    ensures Explained(rows, sustained, turns, statuses, hanging, if failure == Some(EndedEarly) then None else failure)
    ensures failure == None <==>
      (forall k :: 0 <= k < |rows| ==> Passes(rows, sustained, turns, k)) && (sustained ==> runEnd - runStart >= 7200.0)
    ensures failure == Some(EndedEarly) <==>
      (forall k :: 0 <= k < |rows| ==> Passes(rows, sustained, turns, k)) && sustained && runEnd - runStart < 7200.0
    ensures failure == None || failure == Some(EndedEarly) ==> |statuses| == |rows|
    ensures failure == Some(EndedEarly) ==> MeasuredCount(rows) < 210
    ensures Paced(first, starts)
    ensures sustained ==>
      var n := |statuses| + if hanging then 1 else 0;
      n <= |rows| && starts == MeasuredStarts(rows[..n], turns[..n])
    ensures journal.events != [] && Last(journal.events) == Remark("cleanup")
  {
    hide Progress, LastLoad, PollsRun, LastPoll, Paced, ClockRuns, Clocked, MeasuredCount, MeasuredStarts, Explained,
         StartsOnTime, Passes, Since, MayWait, Changes, LoadBefore;
    statuses, hanging, first, starts, failure := [], false, None, [], None;
    NothingYet(rows, sustained, turns, runStart);
    assert turns[0..] == turns && rows[..0] == [] && turns[..0] == [];
    Note(journal, rows, statuses, hanging, Remark("run_receipt"));
    var clock := runStart;
    var lastBlock: Option<(nat, ArmId)> := None;
    var i := 0;
    while i < |rows| && failure == None
      invariant 0 <= i <= |rows| && |statuses| <= |rows| && i == |statuses| + if hanging then 1 else 0
      invariant journal.Valid() && Progress(journal.events, rows, statuses, hanging)
      invariant Explained(rows, sustained, turns, statuses, hanging, failure)
      invariant failure == None ==> !hanging && lastBlock == LastLoad(journal.events) == LoadBefore(rows, i)
      invariant Clocked(first, starts, runStart, clock)
      invariant failure == None ==> ClockRuns(turns[i..], clock) && (i > 0 ==> clock == turns[i - 1].startedAt)
      invariant sustained ==> starts == MeasuredStarts(rows[..i], turns[..i])
      invariant sustained && failure == None ==> Since(rows, turns, i, first)
      decreases |rows| - i, if failure == None then 1 else 0
    {
      NextTurn(turns, i, clock);
      OneMoreRow(rows, turns, i);
      var waited;
      waited, first := AwaitTurn(rows, sustained, turns, i, first, starts, runStart, clock);
      clock := turns[i].startedAt;
      if !waited {
        TurnStops(rows, sustained, turns, statuses);
        failure := Some(Refused);
      } else {
        statuses, hanging, failure := ServeRow(journal, rows, sustained, turns, statuses, lastBlock);
        if |statuses| + (if hanging then 1 else 0) > i {
          lastBlock := Some((rows[i].block, rows[i].arm));
          LoadedNow(rows, i);
          if sustained && !rows[i].warmup {
            starts := starts + [clock];
          }
          i := i + 1;
        }
      }
    }
    ExplainedMeans(rows, sustained, turns, statuses, hanging, failure);
    ClockedIsPaced(first, starts, runStart, clock);
    assert rows[..|rows|] == rows && turns[..|rows|] == turns;
    if failure == None && sustained && runEnd - runStart < 7200.0 {
      LongEnough(first, starts, runStart, clock);
      failure := Some(EndedEarly);
    }
    Note(journal, rows, statuses, hanging, Remark("cleanup"));
  }

  lemma NothingYet(rows: seq<Request>, sustained: bool, turns: seq<Turn>, runStart: real)
    requires |turns| == |rows|
    ensures Progress([], rows, [], false) && LastLoad([]) == None == LoadBefore(rows, 0)
    ensures Clocked(None, [], runStart, runStart) && Paced(None, []) && MeasuredStarts([], []) == []
    ensures Explained(rows, sustained, turns, [], false, None) && Since(rows, turns, 0, None)
  {
  }

  lemma ClockedIsPaced(first: Option<real>, starts: seq<real>, runStart: real, now: real)
    requires Clocked(first, starts, runStart, now)
    ensures Paced(first, starts)
  {
  }

  lemma LoadedNow(rows: seq<Request>, i: nat)
    requires i < |rows|
    ensures LoadBefore(rows, i + 1) == Some((rows[i].block, rows[i].arm))
  {
  }

  lemma NextTurn(turns: seq<Turn>, i: nat, clock: real)
    requires i < |turns| && ClockRuns(turns[i..], clock)
    ensures clock <= turns[i].due && PollsRun(turns[i].polls, turns[i].due)
    ensures LastPoll(turns[i].polls, turns[i].due) <= turns[i].startedAt
    ensures ClockRuns(turns[i + 1..], turns[i].startedAt)
  {
  }

  lemma OneMoreRow(rows: seq<Request>, turns: seq<Turn>, i: nat)
    requires i < |rows| == |turns|
    ensures MeasuredStarts(rows[..i + 1], turns[..i + 1])
      == MeasuredStarts(rows[..i], turns[..i]) + if rows[i].warmup then [] else [turns[i].startedAt]
  {
    assert rows[..i + 1][..i] == rows[..i] && turns[..i + 1][..i] == turns[..i];
  }

  // Serve one row: load its arm if need be, check its image, and attempt it.
  method ServeRow(journal: Journal, rows: seq<Request>, sustained: bool, turns: seq<Turn>, before: seq<string>,
      lastBlock: Option<(nat, ArmId)>)
      returns (statuses: seq<string>, hanging: bool, failure: Option<Failure>)
    requires journal.Valid() && |before| < |rows| == |turns| && Progress(journal.events, rows, before, false)
    requires Explained(rows, sustained, turns, before, false, None) && MayWait(rows, sustained, turns, |before|)
    requires lastBlock == LastLoad(journal.events) == LoadBefore(rows, |before|)
    modifies journal
    ensures journal.Valid() && Progress(journal.events, rows, statuses, hanging)
    ensures |before| <= |statuses| + (if hanging then 1 else 0) <= |before| + 1
    ensures Explained(rows, sustained, turns, statuses, hanging, failure)
    ensures failure == None ==>
      && !hanging && |statuses| == |before| + 1
      && LastLoad(journal.events) == LoadBefore(rows, |before| + 1)
  {
    hide Progress, LastLoad, Explained, MayWait, Changes;
    var turn := turns[|before|];
    TurnStops(rows, sustained, turns, before);
    TurnAttempts(rows, sustained, turns, before);
    statuses, hanging := before, false;
    var ready := LoadArm(journal, rows, before, turn, lastBlock);
    if !ready {
      failure := Some(LoadFailed);
    } else if !turn.intact {
      failure := Some(ImageChanged);
    } else {
      statuses, hanging, failure := Attempt(journal, rows, before, turn);
    }
  }

  // Journal one attempt around the request; an escaping exception leaves it hanging.
  method Attempt(journal: Journal, rows: seq<Request>, before: seq<string>, turn: Turn)
      returns (statuses: seq<string>, hanging: bool, failure: Option<Failure>)
    requires journal.Valid() && Progress(journal.events, rows, before, false) && |before| < |rows|
    requires LastLoad(journal.events) == Some((rows[|before|].block, rows[|before|].arm))
    modifies journal
    ensures journal.Valid() && Progress(journal.events, rows, statuses, hanging)
    ensures LastLoad(journal.events) == LastLoad(old(journal.events))
    ensures statuses == if turn.status.Some? then before + [turn.status.value] else before
    ensures hanging <==> turn.status.None?
    ensures failure ==
      if turn.status.None? then Some(AttemptRaised) else if !turn.safeAfter then Some(UnsafeAfter) else None
  {
    hide Progress, LastLoad;
    Begin(journal, rows, before, rows[|before|]);
    if turn.status.None? {
      return before, true, Some(AttemptRaised);
    }
    Finish(journal, rows, before, turn.status.value);
    return before + [turn.status.value], false, if turn.safeAfter then None else Some(UnsafeAfter);
  }

  // The 210th paced start comes no earlier than two hours after the first was due.
  lemma LongEnough(first: Option<real>, starts: seq<real>, runStart: real, clock: real)
    requires Clocked(first, starts, runStart, clock)
    ensures |starts| >= 210 ==> clock - runStart >= 7200.0
  {
    if |starts| >= 210 {
      assert starts[209] >= first.value + 209 as real * INTERVAL;
    }
  }

  method Note(journal: Journal, rows: seq<Request>, statuses: seq<string>, hanging: bool, e: Event)
    requires journal.Valid() && Progress(journal.events, rows, statuses, hanging)
    requires e.Loaded? || e.Remark?
    modifies journal
    ensures journal.Valid() && Progress(journal.events, rows, statuses, hanging)
    ensures journal.events == old(journal.events) + [e]
    ensures LastLoad(journal.events) == if e.Loaded? then Some((e.block, e.arm)) else LastLoad(old(journal.events))
  {
    ServedAppends(journal.events, rows, e);
    AttemptsAppend(journal.events, e);
    journal.Append(e);
    assert journal.events[..|journal.events| - 1] == old(journal.events);
  }

  method Begin(journal: Journal, rows: seq<Request>, statuses: seq<string>, row: Request)
    requires journal.Valid() && Progress(journal.events, rows, statuses, false)
    requires |statuses| < |rows| && row == rows[|statuses|]
    requires LastLoad(journal.events) == Some((row.block, row.arm))
    modifies journal
    ensures journal.Valid() && Progress(journal.events, rows, statuses, true)
    ensures LastLoad(journal.events) == LastLoad(old(journal.events))
  {
    assert row in rows;
    ServedAppends(journal.events, rows, Started(row.id));
    AttemptsAppend(journal.events, Started(row.id));
    journal.Append(Started(row.id));
    assert journal.events[..|journal.events| - 1] == old(journal.events);
  }

  method Finish(journal: Journal, rows: seq<Request>, statuses: seq<string>, status: string)
    requires journal.Valid() && |statuses| < |rows| && Progress(journal.events, rows, statuses, true)
    modifies journal
    ensures journal.Valid() && Progress(journal.events, rows, statuses + [status], false)
    ensures LastLoad(journal.events) == LastLoad(old(journal.events))
  {
    var e := Finished(rows[|statuses|].id, status);
    ServedAppends(journal.events, rows, e);
    AttemptsAppend(journal.events, e);
    journal.Append(e);
    assert journal.events[..|journal.events| - 1] == old(journal.events);
    assert (statuses + [status])[..|statuses|] == statuses;
  }

  // ----- Every frozen sustained schedule is long enough -----

  lemma {:induction false} WarmupsFirst(requests: seq<Request>, n: nat)
    requires forall o :: 0 <= o < |requests| ==> (requests[o].warmup <==> o < n)
    ensures MeasuredCount(requests) == if |requests| <= n then 0 else |requests| - n
  {
    if requests != [] {
      WarmupsFirst(requests[..|requests| - 1], n);
    }
  }

  lemma OneArmSchedule(arms: seq<Configuration>, trials: seq<Trial>)
    requires |arms| == 1
    ensures Blocks(Sustained, 1, arms, trials) == Load(Sustained, 0, arms[0].id, trials)
  {
    hide Load;
    TwoArmsStay(arms, 0);
    assert arms[..0] == [] && Loads(Sustained, 0, [], trials) == [];
    assert Loads(Sustained, 0, arms, trials) == Load(Sustained, 0, arms[0].id, trials);
    assert Blocks(Sustained, 0, arms, trials) == [];
  }

  lemma LoadWarmups(arm: ArmId, trials: seq<Trial>)
    requires |trials| >= 2 && forall o :: 0 <= o < |trials| ==> (trials[o].warmup <==> o < 2)
    ensures MeasuredCount(Load(Sustained, 0, arm, trials)) == |trials| - 2
  {
    WarmupsFirst(Load(Sustained, 0, arm, trials), 2);
  }

  /** A frozen sustained schedule has exactly 210 measured requests, so a run that gets
      through it spans two hours and is never refused as ended early. */
  lemma SustainedScheduleIsNeverShort(corpus: seq<Image>, matrix: seq<Configuration>)
    requires BalancedCorpus(corpus) && UniqueMatrix(matrix) && Refusal(Sustained, |matrix|).None?
    ensures |ImagesFor(corpus, Sustained)| > 0
    ensures MeasuredCount(Requests(corpus, matrix, Sustained)) == 210
  {
    hide ImagesFor, TrialsFor, Identity, Load, Loads, Blocks, ArmOrder;
    StageImages(corpus, Sustained);
    var images := ImagesFor(corpus, Sustained);
    var trials := TrialsFor(images, Sustained);
    var arms := Sorted(ArmAtMost, matrix);
    assert images[0] in images;
    CountStageTrials(images, Sustained, images[0], 1);
    OneArmSchedule(arms, trials);
    assert Requests(corpus, matrix, Sustained) == Load(Sustained, 0, arms[0].id, trials);
    forall o | 0 <= o < |trials| ensures trials[o].warmup <==> o < 2 {
      TrialAt(images, Sustained, o);
    }
    LoadWarmups(arms[0].id, trials);
  }

  /** A frozen sustained run: measured request k starts no earlier than k intervals after
      the first was due, a run that gets through all 210 has lasted two hours, and the
      early-end error cannot occur. */
  method ExecuteSustained(journal: Journal, corpus: seq<Image>, matrix: seq<Configuration>, turns: seq<Turn>,
      runStart: real, runEnd: real)
    returns (statuses: seq<string>, first: Option<real>, starts: seq<real>, failure: Option<Failure>)
    requires BalancedCorpus(corpus) && UniqueMatrix(matrix) && Refusal(Sustained, |matrix|).None?
    requires journal.Valid() && journal.events == []
    requires |ImagesFor(corpus, Sustained)| > 0 && |turns| == |Requests(corpus, matrix, Sustained)|
      && ClockRuns(turns, runStart)
    requires |turns| > 0 ==> Last(turns).startedAt <= runEnd
    modifies journal
    ensures failure != Some(EndedEarly)
    ensures failure == None ==> |starts| == 210 && runEnd - runStart >= 7200.0
    ensures starts != [] ==> first.Some?
    ensures forall k :: 0 <= k < |starts| ==> starts[k] >= first.value + k as real * (7200.0 / 209.0)
  {
    hide BalancedCorpus, UniqueMatrix, ImagesFor, ClockRuns, Progress, Requests, Explained, Passes, MeasuredStarts;
    SustainedScheduleIsNeverShort(corpus, matrix);
    var hanging;
    var rows := Requests(corpus, matrix, Sustained);
    statuses, hanging, first, starts, failure := Execute(journal, rows, true, turns, runStart, runEnd);
    assert rows[..|rows|] == rows && turns[..|rows|] == turns;
  }
}
