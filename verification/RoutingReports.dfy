/**
 What a validation report and an evidence status say, told of the bindings, the Workers
 and the tests: which errors are reported, how each Worker is resolved, and which test
 decides the status.
 */
module RoutingReports {
  import opened Common
  import opened Routing

  // ----- The evidence status -----

  // A test of this capability of this Worker,
  predicate IsAbout(t: Test, w: Worker, capability: string) {
    t.worker == Some(w.id) && t.capability == Some(capability)
  }

  // of its configuration of now,
  predicate IsCurrent(t: Test, w: Worker, capability: string) {
    IsAbout(t, w, capability) && t.fingerprint == Some(Sha256(w.config))
  }

  // that counts as a proof: a version 2 test, or an older one of a Worker from before
  // policy version 5.
  predicate IsProof(t: Test, w: Worker, capability: string) {
    && IsCurrent(t, w, capability) && t.working
    && (t.version == 2 || w.policyVersion.None? || w.policyVersion.value < 5)
  }

  predicate FirstProof(tests: seq<Test>, w: Worker, capability: string, i: int) {
    && 0 <= i < |tests| && IsProof(tests[i], w, capability)
    && forall j :: 0 <= j < i ==> !IsProof(tests[j], w, capability)
  }

  predicate LastFailure(tests: seq<Test>, w: Worker, capability: string, i: int) {
    && 0 <= i < |tests| && IsCurrent(tests[i], w, capability) && !tests[i].working
    && forall j :: i < j < |tests| ==> !(IsCurrent(tests[j], w, capability) && !tests[j].working)
  }

  lemma {:induction false} ProofDecides(tests: seq<Test>, w: Worker, capability: string, stale: bool,
      failed: Option<nat>, i: nat)
    requires FirstProof(tests, w, capability, i)
    ensures EvidenceFrom(tests, w, capability, stale, failed)
      == if tests[i].version == 2 then Qualified(tests[i].id) else Legacy(tests[i].id)
  {
    if i > 0 {
      var rest, t := tests[1..], tests[0];
      assert !IsProof(t, w, capability);
      ProofDecides(rest, w, capability, stale, failed, i - 1);
      ProofDecides(rest, w, capability, true, failed, i - 1);
      ProofDecides(rest, w, capability, stale, Some(t.id), i - 1);
    }
  }

  lemma {:induction false} FailureDecides(tests: seq<Test>, w: Worker, capability: string, stale: bool,
      failed: Option<nat>, i: nat)
    requires forall j :: 0 <= j < |tests| ==> !IsProof(tests[j], w, capability)
    requires LastFailure(tests, w, capability, i)
    ensures EvidenceFrom(tests, w, capability, stale, failed) == FailedTest(tests[i].id)
  {
    var rest, t := tests[1..], tests[0];
    assert !IsProof(t, w, capability);
    if i > 0 {
      FailureDecides(rest, w, capability, stale, failed, i - 1);
      FailureDecides(rest, w, capability, true, failed, i - 1);
      FailureDecides(rest, w, capability, stale, Some(t.id), i - 1);
    } else {
      NothingDecides(rest, w, capability, stale, Some(t.id));
    }
  }

  lemma {:induction false} NothingDecides(tests: seq<Test>, w: Worker, capability: string, stale: bool,
      failed: Option<nat>)
    requires forall j :: 0 <= j < |tests| ==> !IsProof(tests[j], w, capability)
    requires forall j :: 0 <= j < |tests| ==> !(IsCurrent(tests[j], w, capability) && !tests[j].working)
    ensures EvidenceFrom(tests, w, capability, stale, failed) ==
      if failed.Some? then FailedTest(failed.value)
      else if stale || exists j :: 0 <= j < |tests| && IsAbout(tests[j], w, capability) then Stale
      else NotTested
  {
    if tests != [] {
      var rest, t := tests[1..], tests[0];
      assert !IsProof(t, w, capability) && !(IsCurrent(t, w, capability) && !t.working);
      NothingDecides(rest, w, capability, stale, failed);
      NothingDecides(rest, w, capability, true, failed);
      if j :| 0 <= j < |rest| && IsAbout(rest[j], w, capability) {
        assert tests[j + 1] == rest[j];
      }
      if j :| 0 < j < |tests| && IsAbout(tests[j], w, capability) {
        assert rest[j - 1] == tests[j];
      }
    }
  }

  /** The status of a capability, with the tests newest first: the newest proof decides if
      there is one, and tells an old test from a new one; else the oldest failure of the
      current configuration; else it is stale if there is any test of the capability, and
      not tested if there is none. */
  lemma EvidenceExactly(tests: seq<Test>, w: Worker, capability: string)
    ensures
      var status := EvidenceFrom(tests, w, capability, false, None);
      var proven := exists i :: FirstProof(tests, w, capability, i);
      var failed := exists i :: LastFailure(tests, w, capability, i);
      && (forall i :: FirstProof(tests, w, capability, i) ==>
            status == if tests[i].version == 2 then Qualified(tests[i].id) else Legacy(tests[i].id))
      && (!proven ==> forall i :: LastFailure(tests, w, capability, i) ==> status == FailedTest(tests[i].id))
      && (!proven && !failed ==>
            status == if exists j :: 0 <= j < |tests| && IsAbout(tests[j], w, capability) then Stale else NotTested)
  {
    hide IsProof, IsAbout, IsCurrent;
    forall i | FirstProof(tests, w, capability, i)
      ensures EvidenceFrom(tests, w, capability, false, None)
        == if tests[i].version == 2 then Qualified(tests[i].id) else Legacy(tests[i].id)
    {
      ProofDecides(tests, w, capability, false, None, i);
    }
    if exists j :: 0 <= j < |tests| && IsProof(tests[j], w, capability) {
      var i := SomeFirstProof(tests, w, capability);
    } else if exists j :: 0 <= j < |tests| && IsCurrent(tests[j], w, capability) && !tests[j].working {
      var i := SomeLastFailure(tests, w, capability);
      FailureDecides(tests, w, capability, false, None, i);
      assert forall j :: LastFailure(tests, w, capability, j) ==> j == i;
    } else {
      NothingDecides(tests, w, capability, false, None);
    }
  }

  lemma {:induction false} SomeFirstProof(tests: seq<Test>, w: Worker, capability: string) returns (i: nat)
    requires exists j :: 0 <= j < |tests| && IsProof(tests[j], w, capability)
    ensures FirstProof(tests, w, capability, i)
  {
    if IsProof(tests[0], w, capability) {
      i := 0;
    } else {
      var k := SomeFirstProof(tests[1..], w, capability);
      i := k + 1;
    }
  }

  lemma {:induction false} SomeLastFailure(tests: seq<Test>, w: Worker, capability: string) returns (i: nat)
    requires exists j :: 0 <= j < |tests| && IsCurrent(tests[j], w, capability) && !tests[j].working
    ensures LastFailure(tests, w, capability, i)
  {
    var n := |tests| - 1;
    if IsCurrent(tests[n], w, capability) && !tests[n].working {
      i := n;
    } else {
      i := SomeLastFailure(tests[..n], w, capability);
    }
  }

  // ----- The validation report -----

  // What is wrong with this Worker for this binding.
  ghost predicate IsProblem(cat: Catalogue, testedWorking: bool, b: Binding, id: Id, x: Context, problem: Problem)
    requires b.contract in cat.contracts
  {
    var contract := cat.contracts[b.contract];
    if id !in x.workers then problem == UnknownWorker
    else
      var w := x.workers[id];
      match problem
      case UnknownWorker => false
      case WrongFamily => w.config.family !in contract.families
      case MissingTraits => exists t :: t in contract.traits && !HasTrait(w, t)
      case NoToolCalling => b.toolCalling && !HasTrait(w, "tool_calling")
      case WrongSettings => !HasSettings(w, contract.settings)
      case NotAllowed(k) =>
        b.contract in cat.capabilityOf && k == cat.capabilityOf[b.contract]
        && !GrantAllowed(x.policy, (CacheIdentity(w), k))
      case NoEvidence =>
        b.contract in cat.capabilityOf && testedWorking
        && !exists t :: t in x.tests && IsProof(t, w, cat.capabilityOf[b.contract])
  }

  lemma ProblemsExactly(cat: Catalogue, testedWorking: bool, b: Binding, id: Id, x: Context, problem: Problem)
    requires b.contract in cat.contracts
    ensures problem in Problems(cat, testedWorking, b, x.workers, id, x.tests, x.policy) <==>
      IsProblem(cat, testedWorking, b, id, x, problem)
  {
    hide EvidenceFrom;
    if id in x.workers && b.contract in cat.capabilityOf {
      EvidenceDecides(x.tests, x.workers[id], cat.capabilityOf[b.contract], false, None);
    }
  }

  lemma {:induction false} TaggedExactly(b: Binding, id: Id, problems: seq<Problem>, e: RoutingError)
    ensures e in Tagged(b, id, problems) <==> e.binding == b.id && e.worker == id && e.problem in problems
  {
    if problems != [] {
      TaggedExactly(b, id, problems[..|problems| - 1], e);
      assert problems == problems[..|problems| - 1] + [Last(problems)];
    }
  }

  lemma {:induction false} BindingErrorsExactly(cat: Catalogue, testedWorking: bool, b: Binding, ids: seq<Id>,
      x: Context, e: RoutingError)
    requires b.contract in cat.contracts
    ensures e in BindingErrors(cat, testedWorking, b, ids, x) <==>
      e.binding == b.id && e.worker in ids && IsProblem(cat, testedWorking, b, e.worker, x, e.problem)
  {
    hide Problems, IsProblem, Tagged;
    if ids != [] {
      var init, id := ids[..|ids| - 1], Last(ids);
      assert ids == init + [id];
      BindingErrorsExactly(cat, testedWorking, b, init, x, e);
      TaggedExactly(b, id, Problems(cat, testedWorking, b, x.workers, id, x.tests, x.policy), e);
      ProblemsExactly(cat, testedWorking, b, id, x, e.problem);
    }
  }

  lemma {:induction false} ErrorsExactly(cat: Catalogue, testedWorking: bool, bindings: seq<Binding>, x: Context,
      e: RoutingError)
    requires forall b :: b in bindings ==> b.contract in cat.contracts
    ensures e in Errors(cat, testedWorking, bindings, x) <==>
      exists b :: b in bindings && e.binding == b.id && e.worker in b.workers
        && IsProblem(cat, testedWorking, b, e.worker, x, e.problem)
  {
    hide BindingErrors, IsProblem;
    if bindings != [] {
      var init, b := bindings[..|bindings| - 1], Last(bindings);
      assert bindings == init + [b] && b in bindings;
      ErrorsExactly(cat, testedWorking, init, x, e);
      BindingErrorsExactly(cat, testedWorking, b, b.workers, x, e);
    }
  }

  /** The report of a profile: it lists an error exactly for each thing that is wrong with a
      Worker of a binding, under that binding and Worker, and resolves each binding to its
      Workers in order, the first as the primary one, each valid exactly if nothing is
      wrong with it. */
  lemma ReportExactly(cat: Catalogue, p: Profile, x: Context, e: RoutingError, i: nat, k: nat)
    requires WellFormedProfile(cat, p)
    ensures
      var report := ReportOn(cat, p, x);
      && (e in report.errors <==>
            exists b :: b in p.bindings && e.binding == b.id && e.worker in b.workers
              && IsProblem(cat, p.testedWorking, b, e.worker, x, e.problem))
      && (report.valid <==> report.errors == []) && (report.nothingPublished <==> p.bindings == [])
      && |report.resolutions| == |p.bindings|
    ensures i < |p.bindings| ==>
      var resolution, b := ReportOn(cat, p, x).resolutions[i], p.bindings[i];
      && b in p.bindings && resolution.binding == b.id && resolution.publicName == b.publicName
      && |resolution.workers| == |b.workers|
      && (k < |b.workers| ==>
            && resolution.workers[k].worker == b.workers[k]
            && (resolution.workers[k].primary <==> k == 0)
            && (resolution.workers[k].valid <==>
                  forall problem :: !IsProblem(cat, p.testedWorking, b, b.workers[k], x, problem)))
  {
    hide Errors, Problems, IsProblem;
    ErrorsExactly(cat, p.testedWorking, p.bindings, x, e);
    if i < |p.bindings| && k < |p.bindings[i].workers| {
      var b, id := p.bindings[i], p.bindings[i].workers[k];
      var problems := Problems(cat, p.testedWorking, b, x.workers, id, x.tests, x.policy);
      forall problem ensures problem in problems <==> IsProblem(cat, p.testedWorking, b, id, x, problem) {
        ProblemsExactly(cat, p.testedWorking, b, id, x, problem);
      }
      assert problems != [] ==> problems[0] in problems;
    }
  }
}
