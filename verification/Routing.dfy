/**
 Routing profiles and what makes one valid: Workers and their configuration
 fingerprints, capability evidence, the effective capability policy, validation, and
 the snapshot a published profile is served from.

 The tables of protocol contracts and capability matchers are parameters; SHA-256 is a
 constructor, so that different configurations have different fingerprints.
 */
module Routing {
  import opened Common
  import opened Sorting

  type Id = string
  type Identity = (string, string) // a Model and its revision
  type Grant = (Identity, string)  // a capability of a cached Model

  datatype Setting = Text(text: string) | Number(number: int) | Flag(flag: bool)

  // The immutable part of a Worker, all of it fingerprinted.
  datatype Configuration = Configuration(
    modelId: string, revision: string, artifact: Option<Identity>,
    family: string, runtime: string, template: Option<string>, templateVersion: Option<string>,
    dtype: string, traits: map<string, Setting>, settings: map<string, Setting>)

  datatype Worker = Worker(id: Id, name: string, config: Configuration, policyVersion: Option<int>)

  datatype Fingerprint = Sha256(config: Configuration)

  function CacheIdentity(w: Worker): Identity {
    if w.config.artifact.Some? then w.config.artifact.value else (w.config.modelId, w.config.revision)
  }

  function FingerprintOf(w: Worker): Fingerprint {
    Sha256(w.config)
  }

  datatype Contract = Contract(families: set<string>, traits: set<string>, settings: map<string, Setting>)

  // The static tables: trusted contracts, the capability each stands for, the contract
  // of each capability, the capabilities a configuration is recognised for, and case
  // folding.
  datatype Catalogue = Catalogue(
    contracts: map<string, Contract>,
    capabilityOf: map<string, string>,
    contractOf: map<string, string>,
    recognised: Configuration -> set<string>,
    fold: string -> string)
  {
    // The two capability tables are made from the same definitions.
    ghost predicate Coherent() {
      forall c :: c in capabilityOf ==> capabilityOf[c] in contractOf && contractOf[capabilityOf[c]] == c
    }
  }

  const CHAT := "openai-chat-v1"

  datatype Binding = Binding(
    id: Id, displayName: string, publicName: string, contract: string, toolCalling: bool, workers: seq<Id>)

  datatype Profile = Profile(id: Id, name: string, testedWorking: bool, bindings: seq<Binding>)

  predicate WellFormedBinding(cat: Catalogue, b: Binding) {
    && b.contract in cat.contracts
    && (b.toolCalling ==> b.contract == CHAT)
    && b.workers != [] && NoRepeats(b.workers)
  }

  // What parsing a profile accepts.  API model names are lower case by their pattern.
  predicate WellFormedProfile(cat: Catalogue, p: Profile) {
    && (forall b :: b in p.bindings ==> WellFormedBinding(cat, b))
    && (forall i, j :: 0 <= i < j < |p.bindings| ==>
          p.bindings[i].id != p.bindings[j].id && p.bindings[i].publicName != p.bindings[j].publicName)
  }

  // ----- Evidence -----

  datatype Test = Test(
    id: nat, worker: Option<Id>, capability: Option<string>, fingerprint: Option<Fingerprint>,
    version: int, working: bool)

  datatype EvidenceStatus = Qualified(test: nat) | Legacy(test: nat) | FailedTest(test: nat) | Stale | NotTested

  predicate RequiresV2(w: Worker) {
    w.policyVersion.Some? && w.policyVersion.value >= 5
  }

  predicate Concerns(t: Test, w: Worker, capability: string) {
    t.worker == Some(w.id) && t.capability == Some(capability)
  }

  // The scan over the tests, newest first, with what was seen so far.
  function EvidenceFrom(tests: seq<Test>, w: Worker, capability: string, stale: bool,
      failed: Option<nat>): EvidenceStatus
  {
    if tests == [] then
      if failed.Some? then FailedTest(failed.value) else if stale then Stale else NotTested
    else
      var t := tests[0];
      if !Concerns(t, w, capability) then EvidenceFrom(tests[1..], w, capability, stale, failed)
      else if t.fingerprint != Some(FingerprintOf(w)) then EvidenceFrom(tests[1..], w, capability, true, failed)
      else if !t.working then EvidenceFrom(tests[1..], w, capability, stale, Some(t.id))
      else if t.version == 2 then Qualified(t.id)
      else if RequiresV2(w) then EvidenceFrom(tests[1..], w, capability, true, failed)
      else Legacy(t.id)
  }

  method CapabilityEvidence(tests: seq<Test>, w: Worker, capability: string) returns (status: EvidenceStatus)
    ensures status == EvidenceFrom(tests, w, capability, false, None)
  {
    var fingerprint := FingerprintOf(w);
    var stale, failed := false, None;
    var i := 0;
    while i < |tests|
      invariant 0 <= i <= |tests|
      invariant EvidenceFrom(tests, w, capability, false, None)
        == EvidenceFrom(tests[i..], w, capability, stale, failed)
    {
      assert tests[i..][0] == tests[i] && tests[i..][1..] == tests[i + 1..];
      var t := tests[i];
      i := i + 1;
      if t.capability.None? || t.worker != Some(w.id) || t.capability != Some(capability) {
        continue;
      }
      if t.fingerprint != Some(fingerprint) {
        stale := true;
        continue;
      }
      if t.working {
        if t.version == 2 {
          return Qualified(t.id);
        }
        if RequiresV2(w) {
          stale := true;
          continue;
        }
        return Legacy(t.id);
      }
      failed := Some(t.id);
    }
    return if failed.Some? then FailedTest(failed.value) else if stale then Stale else NotTested;
  }

  // A test that proves the capability of the Worker as it is configured now.
  predicate Proves(t: Test, w: Worker, capability: string) {
    && Concerns(t, w, capability)
    && t.fingerprint == Some(FingerprintOf(w))
    && t.working
    && (t.version == 2 || !RequiresV2(w))
  }

  predicate Proven(s: EvidenceStatus) {
    s.Qualified? || s.Legacy?
  }

  /** The scan reports success exactly when some test proves the capability, whatever
      failures and stale tests stand before it, and names one that does. */
  lemma {:induction false} EvidenceDecides(tests: seq<Test>, w: Worker, capability: string, stale: bool,
      failed: Option<nat>)
    ensures Proven(EvidenceFrom(tests, w, capability, stale, failed)) <==>
      exists t :: t in tests && Proves(t, w, capability)
    ensures Proven(EvidenceFrom(tests, w, capability, stale, failed)) ==>
      exists t :: t in tests && Proves(t, w, capability)
        && t.id == EvidenceFrom(tests, w, capability, stale, failed).test
  {
    if tests != [] {
      var t, rest := tests[0], tests[1..];
      assert t in tests && forall x :: x in tests <==> x == t || x in rest;
      EvidenceDecides(rest, w, capability, stale, failed);
      EvidenceDecides(rest, w, capability, true, failed);
      EvidenceDecides(rest, w, capability, stale, Some(t.id));
      if Proves(t, w, capability) {
        assert EvidenceFrom(tests, w, capability, stale, failed).test == t.id;
      }
    }
  }

  // ----- The effective policy -----

  predicate ModelAllowed(models: map<Identity, bool>, identity: Identity) {
    identity !in models || models[identity]
  }

  predicate GrantAllowed(policy: map<Grant, bool>, grant: Grant) {
    grant in policy && policy[grant]
  }

  // What a Worker from before capability policies is granted if nothing else is stored.
  function Grandfathered(cat: Catalogue, w: Worker, models: map<Identity, bool>): set<Grant> {
    if w.policyVersion.Some? || !ModelAllowed(models, CacheIdentity(w)) then {}
    else set k | k in (cat.recognised)(w.config) :: (CacheIdentity(w), k)
  }

  function StoredPolicy(models: map<Identity, bool>, stored: map<Grant, bool>): map<Grant, bool> {
    map g | g in stored :: stored[g] && ModelAllowed(models, g.0)
  }

  function GrantsAmong(cat: Catalogue, workers: map<Id, Worker>, models: map<Identity, bool>,
      ids: set<Id>): set<Grant>
  {
    set id, g | id in ids && id in workers && g in Grandfathered(cat, workers[id], models) :: g
  }

  function GrantsOf(cat: Catalogue, workers: map<Id, Worker>, models: map<Identity, bool>): set<Grant> {
    GrantsAmong(cat, workers, models, workers.Keys)
  }

  function EffectivePolicy(
      cat: Catalogue, workers: map<Id, Worker>, models: map<Identity, bool>, stored: map<Grant, bool>): map<Grant, bool>
  {
    Granting(GrantsOf(cat, workers, models)) + StoredPolicy(models, stored)
  }

  function Granting(grants: set<Grant>): map<Grant, bool> {
    map g | g in grants :: true
  }

  lemma GrantingBoth(a: set<Grant>, b: set<Grant>, base: map<Grant, bool>)
    ensures Granting(a + b) + base == Granting(b) + (Granting(a) + base)
  {
  }

  lemma OneMoreGrantor(cat: Catalogue, workers: map<Id, Worker>, models: map<Identity, bool>, ids: set<Id>, id: Id)
    requires id in workers
    ensures GrantsAmong(cat, workers, models, ids + {id})
         == GrantsAmong(cat, workers, models, ids) + Grandfathered(cat, workers[id], models)
  {
  }

  method ComputePolicy(cat: Catalogue, workers: map<Id, Worker>, models: map<Identity, bool>, stored: map<Grant, bool>)
      returns (policy: map<Grant, bool>)
    ensures policy == EffectivePolicy(cat, workers, models, stored)
  {
    hide Grandfathered, StoredPolicy, GrantsAmong, Granting;
    policy := StoredPolicy(models, stored);
    var left := workers.Keys;
    NoGrantors(cat, workers, models, policy);
    assert workers.Keys - left == {};
    while left != {}
      invariant left <= workers.Keys
      invariant policy
        == Granting(GrantsAmong(cat, workers, models, workers.Keys - left)) + StoredPolicy(models, stored)
      decreases |left|
    {
      var id :| id in left;
      ghost var done := workers.Keys - left;
      left := left - {id};
      var grants := Grandfathered(cat, workers[id], models);
      policy := Granting(grants) + policy;
      assert workers.Keys - left == done + {id};
      OneMoreGrantor(cat, workers, models, done, id);
      GrantingBoth(GrantsAmong(cat, workers, models, done), grants, StoredPolicy(models, stored));
    }
    assert workers.Keys - left == workers.Keys;
  }

  lemma NoGrantors(cat: Catalogue, workers: map<Id, Worker>, models: map<Identity, bool>, base: map<Grant, bool>)
    ensures Granting(GrantsAmong(cat, workers, models, {})) + base == base
  {
  }

  // ----- Validation -----

  datatype Problem =
    | UnknownWorker
    | WrongFamily
    | MissingTraits
    | NoToolCalling
    | WrongSettings
    | NotAllowed(capability: string)
    | NoEvidence

  predicate HasTrait(w: Worker, t: string) {
    t in w.config.traits && w.config.traits[t] == Flag(true)
  }

  predicate HasSettings(w: Worker, settings: map<string, Setting>) {
    forall s :: s in settings ==> s in w.config.settings && w.config.settings[s] == settings[s]
  }

  function ConfigurationProblems(b: Binding, contract: Contract, w: Worker): seq<Problem> {
    (if w.config.family !in contract.families then [WrongFamily] else [])
    + (if exists t :: t in contract.traits && !HasTrait(w, t) then [MissingTraits] else [])
    + (if b.toolCalling && !HasTrait(w, "tool_calling") then [NoToolCalling] else [])
    + (if !HasSettings(w, contract.settings) then [WrongSettings] else [])
  }

  function CapabilityProblems(testedWorking: bool, k: string, w: Worker, tests: seq<Test>,
      policy: map<Grant, bool>): seq<Problem>
  {
    (if !GrantAllowed(policy, (CacheIdentity(w), k)) then [NotAllowed(k)] else [])
    + (if testedWorking && !Proven(EvidenceFrom(tests, w, k, false, None)) then [NoEvidence] else [])
  }

  function Problems(cat: Catalogue, testedWorking: bool, b: Binding, workers: map<Id, Worker>, id: Id,
      tests: seq<Test>, policy: map<Grant, bool>): seq<Problem>
    requires b.contract in cat.contracts
  {
    if id !in workers then [UnknownWorker]
    else
      ConfigurationProblems(b, cat.contracts[b.contract], workers[id])
      + if b.contract in cat.capabilityOf
        then CapabilityProblems(testedWorking, cat.capabilityOf[b.contract], workers[id], tests, policy)
        else []
  }

  datatype RoutingError = RoutingError(binding: Id, worker: Id, problem: Problem)

  datatype Resolved = Resolved(worker: Id, primary: bool, valid: bool)

  datatype Resolution = Resolution(binding: Id, publicName: string, workers: seq<Resolved>)

  datatype Report = Report(valid: bool, errors: seq<RoutingError>, nothingPublished: bool, resolutions: seq<Resolution>)

  function Tagged(b: Binding, id: Id, problems: seq<Problem>): seq<RoutingError> {
    if problems == [] then []
    else Tagged(b, id, problems[..|problems| - 1]) + [RoutingError(b.id, id, Last(problems))]
  }

  // The context a profile is judged in.
  datatype Context = Context(workers: map<Id, Worker>, tests: seq<Test>, policy: map<Grant, bool>)

  function BindingErrors(cat: Catalogue, testedWorking: bool, b: Binding, ids: seq<Id>, x: Context): seq<RoutingError>
    requires b.contract in cat.contracts
  {
    if ids == [] then []
    else
      BindingErrors(cat, testedWorking, b, ids[..|ids| - 1], x)
      + Tagged(b, Last(ids), Problems(cat, testedWorking, b, x.workers, Last(ids), x.tests, x.policy))
  }

  function Errors(cat: Catalogue, testedWorking: bool, bindings: seq<Binding>, x: Context): seq<RoutingError>
    requires forall b :: b in bindings ==> b.contract in cat.contracts
  {
    if bindings == [] then []
    else
      Errors(cat, testedWorking, bindings[..|bindings| - 1], x)
      + BindingErrors(cat, testedWorking, Last(bindings), Last(bindings).workers, x)
  }

  function ResolutionOf(cat: Catalogue, testedWorking: bool, b: Binding, x: Context): Resolution
    requires b.contract in cat.contracts
  {
    Resolution(b.id, b.publicName,
      seq(|b.workers|, i requires 0 <= i < |b.workers| =>
        Resolved(b.workers[i], i == 0,
                 Problems(cat, testedWorking, b, x.workers, b.workers[i], x.tests, x.policy) == [])))
  }

  function ReportOn(cat: Catalogue, p: Profile, x: Context): Report
    requires WellFormedProfile(cat, p)
  {
    var errors := Errors(cat, p.testedWorking, p.bindings, x);
    Report(errors == [], errors, p.bindings == [],
      seq(|p.bindings|, i requires 0 <= i < |p.bindings| => ResolutionOf(cat, p.testedWorking, p.bindings[i], x)))
  }

  method FindProblems(cat: Catalogue, testedWorking: bool, b: Binding, id: Id, x: Context)
    returns (problems: seq<Problem>)
    requires b.contract in cat.contracts
    ensures problems == Problems(cat, testedWorking, b, x.workers, id, x.tests, x.policy)
  {
    if id !in x.workers {
      return [UnknownWorker];
    }
    hide ConfigurationProblems, CapabilityProblems;
    var w := x.workers[id];
    problems := FindConfigurationProblems(b, cat.contracts[b.contract], w);
    if b.contract in cat.capabilityOf {
      var more := FindCapabilityProblems(testedWorking, cat.capabilityOf[b.contract], w, x);
      problems := problems + more;
    }
  }

  method FindConfigurationProblems(b: Binding, contract: Contract, w: Worker) returns (problems: seq<Problem>)
    ensures problems == ConfigurationProblems(b, contract, w)
  {
    hide HasTrait, HasSettings;
    problems := [];
    if w.config.family !in contract.families {
      problems := problems + [WrongFamily];
    }
    if exists t :: t in contract.traits && !HasTrait(w, t) {
      problems := problems + [MissingTraits];
    }
    if b.toolCalling && !HasTrait(w, "tool_calling") {
      problems := problems + [NoToolCalling];
    }
    if !HasSettings(w, contract.settings) {
      problems := problems + [WrongSettings];
    }
  }

  method FindCapabilityProblems(testedWorking: bool, k: string, w: Worker, x: Context) returns (problems: seq<Problem>)
    ensures problems == CapabilityProblems(testedWorking, k, w, x.tests, x.policy)
  {
    problems := [];
    if !GrantAllowed(x.policy, (CacheIdentity(w), k)) {
      problems := problems + [NotAllowed(k)];
    }
    if testedWorking {
      var status := CapabilityEvidence(x.tests, w, k);
      if !Proven(status) {
        problems := problems + [NoEvidence];
      }
    }
  }

  /** Validate a profile binding by binding and Worker by Worker. */
  method ValidateRoutingProfile(cat: Catalogue, p: Profile, x: Context) returns (report: Report)
    requires WellFormedProfile(cat, p)
    ensures report == ReportOn(cat, p, x)
  {
    hide BindingErrors, ResolutionOf;
    var errors, resolutions := [], [];
    for i := 0 to |p.bindings|
      invariant forall b :: b in p.bindings[..i] ==> b in p.bindings
      invariant errors == Errors(cat, p.testedWorking, p.bindings[..i], x)
      invariant resolutions == ReportOn(cat, p, x).resolutions[..i]
    {
      var b := p.bindings[i];
      assert p.bindings[..i + 1][..i] == p.bindings[..i] && b in p.bindings;
      var found, resolution := ValidateBinding(cat, p.testedWorking, b, x);
      errors := errors + found;
      resolutions := resolutions + [resolution];
    }
    assert p.bindings[..|p.bindings|] == p.bindings;
    return Report(errors == [], errors, p.bindings == [], resolutions);
  }

  method ValidateBinding(cat: Catalogue, testedWorking: bool, b: Binding, x: Context)
      returns (errors: seq<RoutingError>, resolution: Resolution)
    requires b.contract in cat.contracts
    ensures errors == BindingErrors(cat, testedWorking, b, b.workers, x)
    ensures resolution == ResolutionOf(cat, testedWorking, b, x)
  {
    hide Problems;
    errors := [];
    var resolved := [];
    for i := 0 to |b.workers|
      invariant errors == BindingErrors(cat, testedWorking, b, b.workers[..i], x)
      invariant resolved == ResolutionOf(cat, testedWorking, b, x).workers[..i]
    {
      assert b.workers[..i + 1][..i] == b.workers[..i];
      var problems := FindProblems(cat, testedWorking, b, b.workers[i], x);
      var tagged := TagProblems(b, b.workers[i], problems);
      errors := errors + tagged;
      resolved := resolved + [Resolved(b.workers[i], i == 0, problems == [])];
    }
    assert b.workers[..|b.workers|] == b.workers;
    return errors, Resolution(b.id, b.publicName, resolved);
  }

  method TagProblems(b: Binding, id: Id, problems: seq<Problem>) returns (errors: seq<RoutingError>)
    ensures errors == Tagged(b, id, problems)
  {
    errors := [];
    for i := 0 to |problems|
      invariant errors == Tagged(b, id, problems[..i])
    {
      assert problems[..i + 1][..i] == problems[..i];
      errors := errors + [RoutingError(b.id, id, problems[i])];
    }
    assert problems[..|problems|] == problems;
  }

  // ----- What validity means -----

  // This Worker can serve this binding.
  ghost predicate Suits(cat: Catalogue, testedWorking: bool, b: Binding, w: Worker, tests: seq<Test>,
      policy: map<Grant, bool>)
    requires b.contract in cat.contracts
  {
    var contract := cat.contracts[b.contract];
    && w.config.family in contract.families
    && (forall t :: t in contract.traits ==> HasTrait(w, t))
    && (b.toolCalling ==> HasTrait(w, "tool_calling"))
    && HasSettings(w, contract.settings)
    && (b.contract in cat.capabilityOf ==>
          && GrantAllowed(policy, (CacheIdentity(w), cat.capabilityOf[b.contract]))
          && (testedWorking ==> exists t :: t in tests && Proves(t, w, cat.capabilityOf[b.contract])))
  }

  // Every Worker of the binding is there and suits it.
  ghost predicate Served(cat: Catalogue, testedWorking: bool, b: Binding, x: Context) {
    && b.contract in cat.contracts
    && forall id :: id in b.workers ==>
      id in x.workers && Suits(cat, testedWorking, b, x.workers[id], x.tests, x.policy)
  }

  lemma NoProblemMeansSuits(cat: Catalogue, testedWorking: bool, b: Binding, id: Id, x: Context)
    requires b.contract in cat.contracts
    ensures Problems(cat, testedWorking, b, x.workers, id, x.tests, x.policy) == [] <==>
      id in x.workers && Suits(cat, testedWorking, b, x.workers[id], x.tests, x.policy)
  {
    hide EvidenceFrom, Proves;
    if id in x.workers && b.contract in cat.capabilityOf {
      EvidenceDecides(x.tests, x.workers[id], cat.capabilityOf[b.contract], false, None);
    }
  }

  lemma {:induction false} NoBindingErrors(cat: Catalogue, testedWorking: bool, b: Binding, ids: seq<Id>, x: Context)
    requires b.contract in cat.contracts
    ensures BindingErrors(cat, testedWorking, b, ids, x) == [] <==>
      forall id :: id in ids ==> id in x.workers && Suits(cat, testedWorking, b, x.workers[id], x.tests, x.policy)
  {
    hide Problems, Suits;
    if ids != [] {
      var init := ids[..|ids| - 1];
      assert ids == init + [Last(ids)];
      NoBindingErrors(cat, testedWorking, b, init, x);
      NoProblemMeansSuits(cat, testedWorking, b, Last(ids), x);
    }
  }

  lemma {:induction false} NoErrors(cat: Catalogue, testedWorking: bool, bindings: seq<Binding>, x: Context)
    requires forall b :: b in bindings ==> b.contract in cat.contracts
    ensures Errors(cat, testedWorking, bindings, x) == [] <==>
      forall b :: b in bindings ==> Served(cat, testedWorking, b, x)
  {
    hide BindingErrors, Suits;
    if bindings != [] {
      var init, b := bindings[..|bindings| - 1], Last(bindings);
      assert bindings == init + [b];
      NoErrors(cat, testedWorking, init, x);
      NoBindingErrors(cat, testedWorking, b, b.workers, x);
    }
  }

  /** A profile is reported valid exactly when every Worker of every binding is there,
      is of a family, with the traits and settings its contract asks for, is allowed the
      capability for its cached Model and, where the profile demands it, has a test that
      proves the capability as configured now. */
  lemma ValidExactlyWhenServed(cat: Catalogue, p: Profile, x: Context)
    requires WellFormedProfile(cat, p)
    ensures ReportOn(cat, p, x).valid <==> forall b :: b in p.bindings ==> Served(cat, p.testedWorking, b, x)
  {
    hide Errors, Served;
    NoErrors(cat, p.testedWorking, p.bindings, x);
  }

  // ----- Snapshots -----

  datatype Route = Route(binding: Id, displayName: string, publicName: string, contract: string, toolCalling: bool,
    workers: seq<Id>)

  datatype Snapshot = Snapshot(profile: Id, name: string, revision: nat, routes: seq<Route>)

  function RouteOf(b: Binding): Route {
    Route(b.id, b.displayName, b.publicName, b.contract, b.toolCalling, b.workers)
  }

  function SnapshotOf(p: Profile, revision: nat): Snapshot {
    Snapshot(p.id, p.name, revision,
      seq(|p.bindings|, i requires 0 <= i < |p.bindings| => RouteOf(p.bindings[i])))
  }

  function PublicNames(s: Snapshot): set<string> {
    set i | 0 <= i < |s.routes| :: s.routes[i].publicName
  }
}
