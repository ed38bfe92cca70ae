/**
 What the operations of the control plane do, told in terms of the stored Workers,
 policies, tests, drafts, revisions and live snapshots alone: when each is carried out,
 what it changes, and what no operation ever loses.
 */
module RoutingOperations {
  import opened Common
  import opened Sorting
  import opened Routing
  import opened ControlPlane
  import opened RoutingInvariant
  import opened GuidedPublication

  // ----- Going live -----

  // This definition is live as this revision, route by route; the other profiles are as
  // they were.
  ghost predicate GoesLive(
      before: map<Id, Active>, after: map<Id, Active>, profile: Id, revision: nat, definition: Profile)
  {
    && profile in after && after[profile].revision == revision
    && after[profile].snapshot.profile == definition.id && after[profile].snapshot.name == definition.name
    && after[profile].snapshot.revision == revision
    && |after[profile].snapshot.routes| == |definition.bindings|
    && (forall i :: 0 <= i < |definition.bindings| ==>
          var r, b := after[profile].snapshot.routes[i], definition.bindings[i];
          && r.binding == b.id && r.displayName == b.displayName && r.publicName == b.publicName
          && r.contract == b.contract && r.toolCalling == b.toolCalling && r.workers == b.workers)
    && (forall other :: other != profile ==>
          (other in after <==> other in before) && (other in before ==> after[other] == before[other]))
  }

  // Another live profile serves one of its public names.
  ghost predicate NameIsTaken(active: map<Id, Active>, profile: Id, definition: Profile) {
    exists other, b, r ::
      && other in active && other != profile && b in definition.bindings
      && r in active[other].snapshot.routes && r.publicName == b.publicName
  }

  // Every binding is well formed and served by every one of its Workers.
  ghost predicate CanServe(cat: Catalogue, p: Plane, definition: Profile) {
    && WellFormedProfile(cat, definition)
    && forall b :: b in definition.bindings ==> Served(cat, definition.testedWorking, b, ContextOf(cat, p))
  }

  lemma PublishableExactly(cat: Catalogue, p: Plane, definition: Profile)
    ensures Publishable(cat, p, definition) <==> CanServe(cat, p, definition)
  {
    hide ReportOn, Served, WellFormedProfile, ContextOf;
    if WellFormedProfile(cat, definition) {
      ValidExactlyWhenServed(cat, definition, ContextOf(cat, p));
    }
  }

  // Two snapshots share a public name.
  ghost predicate Overlap(s: Snapshot, definition: Profile) {
    exists b, r :: b in definition.bindings && r in s.routes && r.publicName == b.publicName
  }

  lemma NamesOverlap(s: Snapshot, definition: Profile, revision: nat)
    ensures PublicNames(s) * PublicNames(SnapshotOf(definition, revision)) != {} <==> Overlap(s, definition)
  {
    var t := SnapshotOf(definition, revision);
    if name :| name in PublicNames(s) * PublicNames(t) {
      var i :| 0 <= i < |t.routes| && t.routes[i].publicName == name;
      assert definition.bindings[i] in definition.bindings;
    }
    if b, r :| b in definition.bindings && r in s.routes && r.publicName == b.publicName {
      var i :| 0 <= i < |definition.bindings| && definition.bindings[i] == b;
      assert t.routes[i].publicName == r.publicName;
      assert r.publicName in PublicNames(s) * PublicNames(t);
    }
  }

  lemma CollidesExactly(active: map<Id, Active>, profile: Id, definition: Profile, revision: nat)
    ensures Collides(active, profile, SnapshotOf(definition, revision)) <==> NameIsTaken(active, profile, definition)
  {
    hide PublicNames, SnapshotOf;
    forall q | q in active
      ensures PublicNames(active[q].snapshot) * PublicNames(SnapshotOf(definition, revision)) != {} <==>
        Overlap(active[q].snapshot, definition)
    {
      NamesOverlap(active[q].snapshot, definition, revision);
    }
  }

  lemma ActivateExactly(p: Plane, profile: Id, revision: nat, definition: Profile)
    ensures
      var activated := Activate(p, profile, revision, definition);
      && (activated.1 <==> !NameIsTaken(p.active, profile, definition))
      && (!activated.1 ==> activated.0 == p)
      && (activated.1 ==>
            && activated.0 == p.(active := activated.0.active)
            && GoesLive(p.active, activated.0.active, profile, revision, definition))
  {
    hide Collides, NameIsTaken;
    CollidesExactly(p.active, profile, definition, revision);
  }

  /** Reactivation makes the requested stored revision live and nothing else: it is carried
      out exactly when that revision exists, is well formed, is served in every binding, and
      none of its public names is live in another profile; otherwise nothing changes. */
  lemma ReactivateExactly(cat: Catalogue, p: Plane, profile: Id, revision: nat)
    ensures
      var (q, ok) := Step(cat, p, Reactivate(profile, revision));
      && (ok <==>
            && profile in p.revisions && 1 <= revision <= |p.revisions[profile]|
            && CanServe(cat, p, p.revisions[profile][revision - 1])
            && !NameIsTaken(p.active, profile, p.revisions[profile][revision - 1]))
      && (!ok ==> q == p)
      && (ok ==>
            && q == p.(active := q.active)
            && GoesLive(p.active, q.active, profile, revision, p.revisions[profile][revision - 1]))
  {
    hide Publishable, Activate, CanServe, NameIsTaken, GoesLive;
    if profile in p.revisions && 1 <= revision <= |p.revisions[profile]| {
      PublishableExactly(cat, p, p.revisions[profile][revision - 1]);
      ActivateExactly(p, profile, revision, p.revisions[profile][revision - 1]);
    }
  }

  // The history one longer, and that revision live.
  ghost predicate Publishes(p: Plane, q: Plane, definition: Profile) {
    var id := definition.id;
    && q == p.(revisions := q.revisions, active := q.active)
    && id in q.revisions
    && q.revisions[id] == (if id in p.revisions then p.revisions[id] else []) + [definition]
    && (forall other :: other != id ==>
          (other in q.revisions <==> other in p.revisions)
          && (other in p.revisions ==> q.revisions[other] == p.revisions[other]))
    && GoesLive(p.active, q.active, id, |q.revisions[id]|, definition)
  }

  lemma PublishRevisionExactly(p: Plane, definition: Profile)
    ensures
      var published := PublishRevision(p, definition);
      && (published.1 <==> !NameIsTaken(p.active, definition.id, definition))
      && (if published.1 then Publishes(p, published.0, definition) else published.0 == p)
  {
    hide Activate, NameIsTaken, GoesLive;
    var history := History(p, definition.id) + [definition];
    var appended := p.(revisions := p.revisions[definition.id := history]);
    ActivateExactly(appended, definition.id, |history|, definition);
  }

  /** Publication appends the draft to its profile's history and makes that revision live,
      exactly when the draft can be served and none of its public names is live elsewhere;
      otherwise nothing changes, the history included. */
  lemma PublishExactly(cat: Catalogue, p: Plane, profile: Id)
    ensures
      var (q, ok) := Step(cat, p, Publish(profile));
      && (ok <==>
            && profile in p.drafts && CanServe(cat, p, p.drafts[profile])
            && !NameIsTaken(p.active, p.drafts[profile].id, p.drafts[profile]))
      && (if ok then Publishes(p, q, p.drafts[profile]) else q == p)
  {
    hide Publishable, PublishRevision, CanServe, NameIsTaken, Publishes;
    if profile in p.drafts {
      PublishableExactly(cat, p, p.drafts[profile]);
      PublishRevisionExactly(p, p.drafts[profile]);
    }
  }

  // ----- What references block -----

  // A binding of the profile's draft, or of its live revision.
  ghost predicate Current(p: Plane, profile: Id, b: Binding) {
    && profile in p.drafts
    && (|| b in p.drafts[profile].bindings
        || (&& profile in p.active && profile in p.revisions
            && 1 <= p.active[profile].revision <= |p.revisions[profile]|
            && b in p.revisions[profile][p.active[profile].revision - 1].bindings))
  }

  lemma UsageExactly(p: Plane, worker: Id)
    ensures UsageOf(p, worker) == {} <==> forall profile, b :: Current(p, profile, b) ==> worker !in b.workers
  {
    if r :| r in UsageOf(p, worker) {
      var profile :| profile in p.drafts && r in UsageIn(p, worker, profile);
      var b :| Current(p, profile, b) && worker in b.workers;
    }
    if profile, b :| Current(p, profile, b) && worker in b.workers {
      assert exists r :: r in UsageIn(p, worker, profile) by {
        CurrentIsUsed(p, worker, profile, b);
      }
      var r :| r in UsageIn(p, worker, profile);
      assert r in UsageOf(p, worker);
    }
  }

  lemma CurrentIsUsed(p: Plane, worker: Id, profile: Id, b: Binding)
    requires Current(p, profile, b) && worker in b.workers
    ensures UsageIn(p, worker, profile) != {}
  {
    if b in p.drafts[profile].bindings {
      assert Reference(p.drafts[profile].id, b.id, Draft) in UsageIn(p, worker, profile);
    } else {
      assert Reference(ActiveDefinition(p, profile).value.id, b.id, Live) in UsageIn(p, worker, profile);
    }
  }

  /** A Worker is archived exactly when it exists, is stopped, and no binding of any draft or
      live revision names it; the Workers lose it and nothing else changes. */
  lemma ArchiveExactly(cat: Catalogue, p: Plane, id: Id, stopped: bool)
    ensures
      var (q, ok) := Step(cat, p, Archive(id, stopped));
      && (ok <==>
            id in p.workers && stopped && forall profile, b :: Current(p, profile, b) ==> id !in b.workers)
      && q == if ok then p.(workers := p.workers - {id}) else p
  {
    hide UsageOf, Current;
    UsageExactly(p, id);
  }

  // The binding is of this contract and names a Worker of this cached Model.
  ghost predicate NeedsGrant(p: Plane, b: Binding, identity: Identity, contract: string) {
    b.contract == contract && exists w :: w in b.workers && w in p.workers && CacheIdentity(p.workers[w]) == identity
  }

  lemma NeedExactly(p: Plane, identity: Identity, contract: string)
    ensures NeedFor(p, identity, contract) == {} <==>
      forall profile, b :: Current(p, profile, b) ==> !NeedsGrant(p, b, identity, contract)
  {
    if r :| r in NeedFor(p, identity, contract) {
      var profile :| profile in p.drafts && r in NeedIn(p, identity, contract, profile);
      NeededIsCurrent(p, identity, contract, profile);
    }
    if profile, b :| Current(p, profile, b) && NeedsGrant(p, b, identity, contract) {
      CurrentIsNeeded(p, identity, contract, profile, b);
      var r :| r in NeedIn(p, identity, contract, profile);
      assert r in NeedFor(p, identity, contract);
    }
  }

  lemma NeededIsCurrent(p: Plane, identity: Identity, contract: string, profile: Id)
    requires profile in p.drafts && NeedIn(p, identity, contract, profile) != {}
    ensures exists b :: Current(p, profile, b) && NeedsGrant(p, b, identity, contract)
  {
    var r :| r in NeedIn(p, identity, contract, profile);
    if r in BindingsNeeding(p.drafts[profile], contract, WorkersOf(p, identity), Draft) {
      var b :| b in p.drafts[profile].bindings && b.contract == contract
        && exists w :: w in WorkersOf(p, identity) && w in b.workers;
      assert Current(p, profile, b);
    } else {
      var definition := ActiveDefinition(p, profile).value;
      var b :| b in definition.bindings && b.contract == contract
        && exists w :: w in WorkersOf(p, identity) && w in b.workers;
      assert Current(p, profile, b);
    }
  }

  lemma CurrentIsNeeded(p: Plane, identity: Identity, contract: string, profile: Id, b: Binding)
    requires Current(p, profile, b) && NeedsGrant(p, b, identity, contract)
    ensures NeedIn(p, identity, contract, profile) != {}
  {
    var w :| w in b.workers && w in p.workers && CacheIdentity(p.workers[w]) == identity;
    assert w in WorkersOf(p, identity);
    if b in p.drafts[profile].bindings {
      assert Reference(p.drafts[profile].id, b.id, Draft) in NeedIn(p, identity, contract, profile);
    } else {
      assert Reference(ActiveDefinition(p, profile).value.id, b.id, Live) in NeedIn(p, identity, contract, profile);
    }
  }

  /** A capability of a cached Model that the catalogue knows is allowed at once, and
      disallowed exactly when it has no contract or no binding of any draft or live revision
      needs that contract from a Worker of that Model.  The one grant changes. */
  lemma SetGrantExactly(cat: Catalogue, p: Plane, identity: Identity, capability: string, allowed: bool, known: bool)
    ensures
      var (q, ok) := Step(cat, p, SetGrant(identity, capability, allowed, known));
      && (ok <==>
            && known
            && (|| allowed
                || capability !in cat.contractOf
                || forall profile, b :: Current(p, profile, b) ==>
                     !NeedsGrant(p, b, identity, cat.contractOf[capability])))
      && q == if ok then p.(grants := p.grants[(identity, capability) := allowed]) else p
  {
    hide NeedFor, Current, NeedsGrant;
    if capability in cat.contractOf {
      NeedExactly(p, identity, cat.contractOf[capability]);
    }
  }

  /** A known cached Model is disallowed exactly when no Worker is configured for it, by its
      Model and revision or by its artifact.  The one Model policy changes. */
  lemma SetModelExactly(cat: Catalogue, p: Plane, identity: Identity, allowed: bool, known: bool)
    ensures
      var (q, ok) := Step(cat, p, SetModel(identity, allowed, known));
      && (ok <==>
            && known
            && (allowed || forall id :: id in p.workers ==>
                  var c := p.workers[id].config;
                  (c.modelId, c.revision) != identity && c.artifact != Some(identity)))
      && q == if ok then p.(models := p.models[identity := allowed]) else p
  {
  }

  // ----- Workers -----

  // Nobody but perhaps this Worker bears the name, whatever its case.
  ghost predicate NameIsFree(cat: Catalogue, p: Plane, name: string, except: set<Id>) {
    forall id :: id in p.workers && id !in except ==> cat.fold(p.workers[id].name) != cat.fold(name)
  }

  // The store allows this capability of the cached Model.
  predicate Granted(p: Plane, identity: Identity, capability: string) {
    (identity, capability) in p.grants && p.grants[(identity, capability)]
  }

  /** A Worker is created exactly under a new id and a free name, for an allowed Model, with
      a capability that its runtime offers and the policy allows: the one asked for, or any.
      It is stored as configured, under policy version 5; no other Worker changes. */
  lemma CreateExactly(cat: Catalogue, p: Plane, a: Action)
    requires a.Create?
    ensures
      var (q, ok) := Step(cat, p, a);
      var c := a.config;
      var identity := if c.artifact.Some? then c.artifact.value else (c.modelId, c.revision);
      && (ok <==>
            && a.id !in p.workers && NameIsFree(cat, p, a.name, {}) && a.ready
            && (identity in p.models ==> p.models[identity])
            && (if a.requested.Some? then a.requested.value in a.offered && Granted(p, identity, a.requested.value)
                else exists k :: k in a.offered && Granted(p, identity, k)))
      && q == if ok then p.(workers := p.workers[a.id := Worker(a.id, a.name, a.config, Some(5))]) else p
  {
  }

  /** Renaming changes the name alone, exactly when no other Worker bears it. */
  lemma RenameExactly(cat: Catalogue, p: Plane, id: Id, name: string)
    ensures
      var (q, ok) := Step(cat, p, Rename(id, name));
      && (ok <==> id in p.workers && NameIsFree(cat, p, name, {id}))
      && q == if ok then p.(workers := p.workers[id := p.workers[id].(name := name)]) else p
  {
  }

  // The binding with one Worker in place of another.
  predicate Exchanged(b: Binding, c: Binding, before: Id, after: Id) {
    && c == b.(workers := c.workers) && |c.workers| == |b.workers|
    && forall k :: 0 <= k < |b.workers| ==> c.workers[k] == if b.workers[k] == before then after else b.workers[k]
  }

  /** A replacement is created like any Worker, beside the old one, which must come from a
      template.  If asked for, every draft names the new Worker wherever it named the old
      one, place by place; revisions and what is live stay. */
  lemma ReplaceExactly(cat: Catalogue, p: Plane, a: Action)
    requires a.Replace?
    ensures
      var (q, ok) := Step(cat, p, a);
      var (made, created) := Step(cat, p, Create(a.id, a.name, a.config, a.offered, None, a.ready));
      && (ok <==> a.worker in p.workers && p.workers[a.worker].config.template.Some? && created)
      && (!ok ==> q == p)
      && (ok && !a.rebind ==> q == made)
      && (ok && a.rebind ==>
            && q == made.(drafts := q.drafts) && q.drafts.Keys == p.drafts.Keys
            && forall d :: d in p.drafts ==>
                 && q.drafts[d] == p.drafts[d].(bindings := q.drafts[d].bindings)
                 && |q.drafts[d].bindings| == |p.drafts[d].bindings|
                 && forall i :: 0 <= i < |p.drafts[d].bindings| ==>
                      Exchanged(p.drafts[d].bindings[i], q.drafts[d].bindings[i], a.worker, a.id))
  {
    hide NameTaken, ModelAllowed, GrantAllowed;
  }

  /** A qualification is recorded exactly for an existing Worker whose Model and capability
      are allowed, passed or not: as the newest test, of version 2, bound to the Worker's
      configuration of now.  A diagnosis is recorded without a capability. */
  lemma TestsExactly(cat: Catalogue, p: Plane, id: Id, capability: string, ready: bool, working: bool)
    ensures
      var (q, ok) := Step(cat, p, Qualify(id, capability, ready, working));
      && (ok <==>
            && id in p.workers && ready && Granted(p, CacheIdentity(p.workers[id]), capability)
            && (CacheIdentity(p.workers[id]) in p.models ==> p.models[CacheIdentity(p.workers[id])]))
      && q == (if !ok then p else
                 var test := Test(|p.tests| + 1, Some(p.workers[id].id), Some(capability),
                                  Some(Sha256(p.workers[id].config)), 2, working);
                 p.(tests := [test] + p.tests))
    ensures
      var (q, ok) := Step(cat, p, Diagnose(id, working));
      && (ok <==> id in p.workers)
      && q == (if !ok then p else
                 var test := Test(|p.tests| + 1, Some(p.workers[id].id), None,
                                  Some(Sha256(p.workers[id].config)), 2, working);
                 p.(tests := [test] + p.tests))
  {
  }

  // ----- Drafts -----

  /** A well-formed draft is saved under its own id, a new one only where there is none and
      an update only where there is one.  Discarding puts back the newest revision.  A
      profile goes only while it has no revision and is not live.  Deactivating takes
      exactly this profile out of routing. */
  lemma DraftsExactly(cat: Catalogue, p: Plane, definition: Profile, creating: bool, profile: Id)
    ensures
      var (q, ok) := Step(cat, p, SaveDraft(definition, creating));
      && (ok <==> WellFormedProfile(cat, definition) && (creating <==> definition.id !in p.drafts))
      && q == if ok then p.(drafts := p.drafts[definition.id := definition]) else p
    ensures
      var (q, ok) := Step(cat, p, DiscardDraft(profile));
      && (ok <==> profile in p.revisions && p.revisions[profile] != [])
      && q == if ok then p.(drafts := p.drafts[profile := Last(p.revisions[profile])]) else p
    ensures
      var (q, ok) := Step(cat, p, DeleteProfile(profile));
      && (ok <==>
            profile in p.drafts && profile !in p.active && (profile in p.revisions ==> p.revisions[profile] == []))
      && q == if ok then p.(drafts := p.drafts - {profile}) else p
    ensures
      var (q, ok) := Step(cat, p, Deactivate(profile));
      && (ok <==> profile in p.drafts)
      && q == if ok then p.(active := p.active - {profile}) else p
  {
  }

  // ----- What no operation loses -----

  // Histories and tests only grow.
  ghost predicate RecordsStay(p: Plane, q: Plane) {
    && (forall profile :: profile in p.revisions ==>
          profile in q.revisions && p.revisions[profile] <= q.revisions[profile])
    && (exists more: seq<Test> :: q.tests == more + p.tests)
  }

  lemma OthersKeepRecords(cat: Catalogue, p: Plane, a: Action)
    requires !a.GuidedPublish?
    ensures RecordsStay(p, Step(cat, p, a).0)
  {
    hide Publishable, UsageOf, NeedFor, NameTaken, WellFormedProfile, Collides, RebindDrafts, GrantAllowed,
         ModelAllowed, Configured, SnapshotOf;
    var q := Step(cat, p, a).0;
    assert q.tests == p.tests ==> q.tests == [] + p.tests;
  }

  lemma GuidedKeepsRecords(
      cat: Catalogue, p: Plane, target: Profile, previous: seq<Snapshot>, verification: Verification)
    ensures RecordsStay(p, ControlPlane.GuidedPublication(cat, p, target, previous, verification).0)
  {
    hide Publishable, Lists, Restore, Publication;
    var q := ControlPlane.GuidedPublication(cat, p, target, previous, verification).0;
    PublicationKeepsRecords(p, target);
    RestoreOnlyActivates(DeactivateProfile(Publication(p, target).0, target.id).0, previous);
    assert q.tests == [] + p.tests;
  }

  lemma PublicationKeepsRecords(p: Plane, target: Profile)
    ensures
      var q := Publication(p, target).0;
      && q.tests == p.tests
      && forall profile :: profile in p.revisions ==>
           profile in q.revisions && p.revisions[profile] <= q.revisions[profile]
  {
  }

  lemma RecordsStayOn(p: Plane, q: Plane, r: Plane)
    requires RecordsStay(p, q) && RecordsStay(q, r)
    ensures RecordsStay(p, r)
  {
    var more: seq<Test> :| q.tests == more + p.tests;
    var later: seq<Test> :| r.tests == later + q.tests;
    assert r.tests == (later + more) + p.tests;
  }

  /** Over every run of operations no published revision is altered or taken back and no
      test is lost: every history is a prefix of what it becomes, and the tests are its
      oldest part. */
  lemma {:induction false} EveryRunKeepsRecords(cat: Catalogue, p: Plane, actions: seq<Action>)
    ensures RecordsStay(p, Run(cat, p, actions))
  {
    hide Step, RecordsStay;
    if actions == [] {
      NothingLost(p);
    } else {
      var before, a := Run(cat, p, actions[..|actions| - 1]), Last(actions);
      EveryRunKeepsRecords(cat, p, actions[..|actions| - 1]);
      StepKeepsRecords(cat, before, a);
      RecordsStayOn(p, before, Step(cat, before, a).0);
    }
  }

  lemma NothingLost(p: Plane)
    ensures RecordsStay(p, p)
  {
    assert p.tests == [] + p.tests;
  }

  lemma StepKeepsRecords(cat: Catalogue, p: Plane, a: Action)
    ensures RecordsStay(p, Step(cat, p, a).0)
  {
    hide RecordsStay;
    if a.GuidedPublish? {
      GuidedKeepsRecords(cat, p, a.target, a.previous, a.verification);
    } else {
      OthersKeepRecords(cat, p, a);
    }
  }
}
