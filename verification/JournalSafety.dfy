/**
 Journal and runner together: whatever part of a run's journal reached the disk, the
 reader tells finished, interrupted and not-started rows apart correctly.
 */
module JournalSafety {
  import opened Common
  import opened Schedule
  import opened ScheduleProperties
  import opened AttemptJournal
  import opened Runner

  // Reading ignores every record that is not an attempt.
  lemma {:induction false} LatestIgnoresRemarks(events: seq<Event>)
    ensures Latest(events) == Latest(AttemptsIn(events))
  {
    if events == [] {
      assert AttemptsIn(events) == [];
    } else {
      var init := events[..|events| - 1];
      LatestIgnoresRemarks(init);
      OneMoreAttempt(events, AttemptsIn(init));
    }
  }

  lemma OneMoreAttempt(events: seq<Event>, kept: seq<Event>)
    requires events != [] && kept == AttemptsIn(events[..|events| - 1])
    requires Latest(events[..|events| - 1]) == Latest(kept)
    ensures Latest(events) == Latest(AttemptsIn(events))
  {
    var e := Last(events);
    if e.Started? || e.Finished? {
      assert (kept + [e])[..|kept|] == kept && Last(kept + [e]) == e;
    } else {
      assert AttemptsIn(events) == kept;
    }
  }

  lemma {:induction false} PrefixKeepsAttempts(events: seq<Event>, m: nat)
    requires m <= |events|
    ensures AttemptsIn(events[..m]) <= AttemptsIn(events)
  {
    if m < |events| {
      PrefixKeepsAttempts(events[..|events| - 1], m);
      assert events[..|events| - 1][..m] == events[..m];
    } else {
      assert events[..m] == events;
    }
  }

  lemma {:induction false} PairsLength(rows: seq<Request>, statuses: seq<string>)
    requires |statuses| <= |rows|
    ensures |Pairs(rows, statuses)| == 2 * |statuses|
  {
    if statuses != [] {
      PairsLength(rows, statuses[..|statuses| - 1]);
    }
  }

  lemma {:induction false} PairAt(rows: seq<Request>, statuses: seq<string>, j: nat)
    requires |statuses| <= |rows| && j < |statuses|
    ensures |Pairs(rows, statuses)| == 2 * |statuses|
    ensures Pairs(rows, statuses)[2 * j] == Started(rows[j].id)
    ensures Pairs(rows, statuses)[2 * j + 1] == Finished(rows[j].id, statuses[j])
  {
    PairsLength(rows, statuses);
    PairsLength(rows, statuses[..|statuses| - 1]);
    if j < |statuses| - 1 {
      PairAt(rows, statuses[..|statuses| - 1], j);
    }
  }

  // The records of a run by position: row j starts at 2j and finishes at 2j + 1.
  lemma AttemptAt(rows: seq<Request>, statuses: seq<string>, hanging: bool, i: nat)
    requires |statuses| <= |rows| && (hanging ==> |statuses| < |rows|)
    requires i < |AttemptsOf(rows, statuses, hanging)|
    ensures |AttemptsOf(rows, statuses, hanging)| == 2 * |statuses| + if hanging then 1 else 0
    ensures i / 2 < |rows| && (i % 2 == 1 ==> i / 2 < |statuses|)
    ensures AttemptsOf(rows, statuses, hanging)[i]
              == if i % 2 == 0 then Started(rows[i / 2].id) else Finished(rows[i / 2].id, statuses[i / 2])
  {
    PairsLength(rows, statuses);
    if i / 2 < |statuses| {
      PairAt(rows, statuses, i / 2);
    }
  }

  // After `seen` attempt records: finished rows, at most one interrupted, then none.
  ghost predicate Accounted(latest: map<Digest, Event>, rows: seq<Request>, statuses: seq<string>, seen: nat)
    requires |statuses| <= |rows| && seen / 2 <= |statuses|
  {
    forall j :: 0 <= j < |rows| ==>
      StatusOf(latest, rows[j].id)
        == if j < seen / 2 then Done(statuses[j])
           else if j == seen / 2 && seen % 2 == 1 then Interrupted
           else NotStarted
  }

  lemma {:induction false} EveryPrefixIsAccounted(rows: seq<Request>, statuses: seq<string>, hanging: bool, seen: nat)
    requires DistinctRequests(rows)
    requires |statuses| <= |rows| && (hanging ==> |statuses| < |rows|)
    requires seen <= |AttemptsOf(rows, statuses, hanging)|
    ensures seen / 2 <= |statuses|
    ensures Accounted(Latest(AttemptsOf(rows, statuses, hanging)[..seen]), rows, statuses, seen)
  {
    var all := AttemptsOf(rows, statuses, hanging);
    if seen == 0 {
      assert all[..0] == [];
    } else {
      var i := seen - 1;
      EveryPrefixIsAccounted(rows, statuses, hanging, i);
      AttemptAt(rows, statuses, hanging, i);
      assert all[..seen][..i] == all[..i] && Last(all[..seen]) == all[i];
    }
  }

  /** Crash safety of the journal.  Take any run, even one that ended in an exception,
      and keep any number of characters of its journal.  Reading that never fails, and
      gives finished rows with the statuses the run recorded, then at most one
      interrupted row, then rows not started, in schedule order; the complete journal
      gives every finished row. */
  lemma EveryCutIsReadCorrectly(
      codec: Codec, events: seq<Event>, rows: seq<Request>, statuses: seq<string>, hanging: bool, n: nat)
      returns (finished: nat, torn: bool)
    requires codec.Sound() && DistinctRequests(rows)
    requires |statuses| <= |rows| && Progress(events, rows, statuses, hanging)
    requires n <= |codec.Text(events)|
    ensures finished <= |statuses| && (torn ==> finished < |rows|)
    ensures Attempts(codec, Some(codec.Text(events)[..n]), rows).Ok?
    ensures
      var read := Attempts(codec, Some(codec.Text(events)[..n]), rows).value;
      && |read| == |rows|
      && (forall j :: 0 <= j < finished ==> read[j] == Done(statuses[j]))
      && (torn ==> read[finished] == Interrupted)
      && (forall j :: finished + (if torn then 1 else 0) <= j < |rows| ==> read[j] == NotStarted)
    ensures n == |codec.Text(events)| ==> finished == |statuses| && torn == hanging
  {
    hide Runner.ServedByOwnArm;
    var m := EveryCutIsAPrefixOfRecords(codec, events, n, rows);
    var all := AttemptsOf(rows, statuses, hanging);
    LatestIgnoresRemarks(events[..m]);
    PrefixKeepsAttempts(events, m);
    var seen := |AttemptsIn(events[..m])|;
    assert AttemptsIn(events[..m]) == all[..seen];
    EveryPrefixIsAccounted(rows, statuses, hanging, seen);
    finished, torn := seen / 2, seen % 2 == 1;
    PairsLength(rows, statuses);
    if n == |codec.Text(events)| {
      assert events[..m] == events;
    }
  }

  /** In particular, an attempt is read as a success only if the run finished it as one. */
  lemma NoUnfinishedAttemptSucceeds(
      codec: Codec, events: seq<Event>, rows: seq<Request>, statuses: seq<string>, hanging: bool, n: nat, j: nat)
    requires codec.Sound() && DistinctRequests(rows)
    requires |statuses| <= |rows| && Progress(events, rows, statuses, hanging)
    requires n <= |codec.Text(events)| && j < |rows|
    ensures Attempts(codec, Some(codec.Text(events)[..n]), rows).Ok?
    ensures Attempts(codec, Some(codec.Text(events)[..n]), rows).value[j] == Done("success") ==>
              j < |statuses| && statuses[j] == "success"
  {
    hide Progress, Attempts;
    var finished, torn := EveryCutIsReadCorrectly(codec, events, rows, statuses, hanging, n);
  }
}
