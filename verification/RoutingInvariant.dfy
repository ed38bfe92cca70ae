/**
 Published routing stays valid: what every operation of the control plane keeps, over
 all runs, and exactly when archiving a Worker does not.
 */
module RoutingInvariant {
  import opened Common
  import opened Routing
  import opened ControlPlane

  // A live profile's active revision exists and is what its snapshot says.
  ghost predicate LiveIsStored(p: Plane, profile: Id) {
    && profile in p.active
    && ActiveDefinition(p, profile).Some?
    && ActiveDefinition(p, profile).value.id == profile
    && p.active[profile].snapshot == SnapshotOf(ActiveDefinition(p, profile).value, p.active[profile].revision)
  }

  // And it still validates.
  ghost predicate LiveIsValid(cat: Catalogue, p: Plane, profile: Id) {
    LiveIsStored(p, profile) && profile in p.drafts && Publishable(cat, p, ActiveDefinition(p, profile).value)
  }

  // No public name is served by two live profiles.
  ghost predicate Unambiguous(active: map<Id, Active>) {
    forall a, b :: a in active && b in active && a != b ==>
      PublicNames(active[a].snapshot) * PublicNames(active[b].snapshot) == {}
  }

  // What the store keeps whatever happens.
  ghost predicate Kept(p: Plane) {
    && (forall id :: id in p.workers ==> p.workers[id].id == id)
    && (forall d :: d in p.drafts ==> p.drafts[d].id == d)
    && (forall d :: d in p.revisions ==> p.revisions[d] != [] && d in p.drafts && AllNamed(p.revisions[d], d))
    && Unambiguous(p.active)
  }

  ghost predicate AllNamed(history: seq<Profile>, id: Id) {
    forall i :: 0 <= i < |history| ==> history[i].id == id
  }

  // What the store alone guarantees of routing, whether or not it validates.
  ghost predicate RoutingStored(p: Plane) {
    Unambiguous(p.active) && forall profile :: profile in p.active ==> LiveIsStored(p, profile)
  }

  ghost predicate RoutingHolds(cat: Catalogue, p: Plane) {
    Kept(p) && forall profile :: profile in p.active ==> LiveIsValid(cat, p, profile)
  }

  // ----- What a change must not take away -----

  // The same Worker, perhaps renamed.
  predicate SameWorker(v: Worker, w: Worker) {
    w.id == v.id && w.config == v.config && w.policyVersion == v.policyVersion
  }

  // Workers keep their configuration, tests stay, and the grants in use stay allowed.
  ghost predicate StillServes(cat: Catalogue, definition: Profile, x: Context, y: Context) {
    && (forall b, id :: b in definition.bindings && id in b.workers && id in x.workers ==>
          id in y.workers && SameWorker(x.workers[id], y.workers[id]))
    && (forall t :: t in x.tests ==> t in y.tests)
    && (forall b, id ::
          b in definition.bindings && b.contract in cat.capabilityOf && id in b.workers && id in x.workers ==>
          var grant := (CacheIdentity(x.workers[id]), cat.capabilityOf[b.contract]);
          GrantAllowed(x.policy, grant) ==> GrantAllowed(y.policy, grant))
  }

  lemma SuitsAgain(cat: Catalogue, testedWorking: bool, b: Binding, v: Worker, w: Worker, x: Context, y: Context)
    requires b.contract in cat.contracts && Suits(cat, testedWorking, b, v, x.tests, x.policy)
    requires SameWorker(v, w)
    requires forall t :: t in x.tests ==> t in y.tests
    requires b.contract in cat.capabilityOf ==>
      var grant := (CacheIdentity(v), cat.capabilityOf[b.contract]);
      GrantAllowed(x.policy, grant) ==> GrantAllowed(y.policy, grant)
    ensures Suits(cat, testedWorking, b, w, y.tests, y.policy)
  {
  }

  lemma ValidAgain(cat: Catalogue, definition: Profile, x: Context, y: Context)
    requires WellFormedProfile(cat, definition) && ReportOn(cat, definition, x).valid
    requires StillServes(cat, definition, x, y)
    ensures ReportOn(cat, definition, y).valid
  {
    hide ReportOn, Suits, GrantAllowed, WellFormedBinding, Proves;
    ValidExactlyWhenServed(cat, definition, x);
    ValidExactlyWhenServed(cat, definition, y);
    forall b | b in definition.bindings ensures Served(cat, definition.testedWorking, b, y) {
      assert Served(cat, definition.testedWorking, b, x);
      forall id | id in b.workers
        ensures id in y.workers && Suits(cat, definition.testedWorking, b, y.workers[id], y.tests, y.policy)
      {
        SuitsAgain(cat, definition.testedWorking, b, x.workers[id], y.workers[id], x, y);
      }
    }
  }

  // Routing that is left alone stays valid if the context still serves it.
  lemma LiveAgain(cat: Catalogue, p: Plane, q: Plane, profile: Id)
    requires LiveIsValid(cat, p, profile)
    requires profile in q.active && q.active[profile] == p.active[profile]
    requires profile in q.drafts && History(p, profile) <= History(q, profile)
    requires StillServes(cat, ActiveDefinition(p, profile).value, ContextOf(cat, p), ContextOf(cat, q))
    ensures LiveIsValid(cat, q, profile)
  {
    hide ReportOn, StillServes, ContextOf, SnapshotOf, WellFormedProfile;
    ValidAgain(cat, ActiveDefinition(p, profile).value, ContextOf(cat, p), ContextOf(cat, q));
  }

  // An operation that leaves routing alone keeps it valid if every live profile is
  // still served.
  lemma KeepsRouting(cat: Catalogue, p: Plane, q: Plane)
    requires RoutingHolds(cat, p) && Kept(q) && q.active == p.active && q.revisions == p.revisions
    requires forall profile :: profile in p.active ==> profile in q.drafts
    requires forall profile :: profile in p.active ==>
      StillServes(cat, ActiveDefinition(p, profile).value, ContextOf(cat, p), ContextOf(cat, q))
    ensures RoutingHolds(cat, q)
  {
    hide LiveIsValid, StillServes, ContextOf, Kept;
    forall profile | profile in q.active ensures LiveIsValid(cat, q, profile) {
      assert LiveIsValid(cat, p, profile);
      LiveAgain(cat, p, q, profile);
    }
  }

  // ----- Each operation -----

  // Workers and tests may grow and be renamed as long as the policy stays.
  lemma GrowthServes(cat: Catalogue, definition: Profile, x: Context, y: Context)
    requires y.policy == x.policy
    requires forall id :: id in x.workers ==> id in y.workers && SameWorker(x.workers[id], y.workers[id])
    requires forall t :: t in x.tests ==> t in y.tests
    ensures StillServes(cat, definition, x, y)
  {
  }

  lemma NewWorkerGrantsNothing(cat: Catalogue, p: Plane, id: Id, w: Worker)
    requires id !in p.workers && w.policyVersion.Some?
    ensures EffectivePolicy(cat, p.workers[id := w], p.models, p.grants)
      == EffectivePolicy(cat, p.workers, p.models, p.grants)
  {
    hide StoredPolicy;
    var more := p.workers[id := w];
    assert GrantsOf(cat, more, p.models) == GrantsOf(cat, p.workers, p.models) by {
      assert Grandfathered(cat, w, p.models) == {};
      assert forall other :: other in p.workers ==> more[other] == p.workers[other];
    }
  }

  lemma RenameGrantsTheSame(cat: Catalogue, p: Plane, id: Id, name: string)
    requires id in p.workers
    ensures EffectivePolicy(cat, p.workers[id := p.workers[id].(name := name)], p.models, p.grants)
         == EffectivePolicy(cat, p.workers, p.models, p.grants)
  {
    hide StoredPolicy;
    var renamed := p.workers[id := p.workers[id].(name := name)];
    assert forall other :: other in p.workers ==>
      Grandfathered(cat, renamed[other], p.models) == Grandfathered(cat, p.workers[other], p.models);
    assert GrantsOf(cat, renamed, p.models) == GrantsOf(cat, p.workers, p.models);
  }

  // Create, rename and record tests.
  lemma GrowthKeepsRouting(cat: Catalogue, p: Plane, q: Plane)
    requires RoutingHolds(cat, p) && Kept(q) && q.active == p.active && q.revisions == p.revisions
    requires forall d :: d in p.drafts ==> d in q.drafts
    requires ContextOf(cat, q).policy == ContextOf(cat, p).policy
    requires forall id :: id in p.workers ==> id in q.workers && SameWorker(p.workers[id], q.workers[id])
    requires forall t :: t in p.tests ==> t in q.tests
    ensures RoutingHolds(cat, q)
  {
    hide StillServes, EffectivePolicy, Kept;
    forall profile | profile in p.active
      ensures StillServes(cat, ActiveDefinition(p, profile).value, ContextOf(cat, p), ContextOf(cat, q))
      ensures profile in q.drafts
    {
      assert LiveIsValid(cat, p, profile);
      GrowthServes(cat, ActiveDefinition(p, profile).value, ContextOf(cat, p), ContextOf(cat, q));
    }
    KeepsRouting(cat, p, q);
  }

  lemma CreateKeepsRouting(cat: Catalogue, p: Plane, id: Id, name: string, config: Configuration, offered: set<string>,
      requested: Option<string>, ready: bool)
    requires RoutingHolds(cat, p)
    ensures RoutingHolds(cat, CreateWorker(cat, p, id, name, config, offered, requested, ready).0)
  {
    hide EffectivePolicy, NameTaken, LiveIsValid, GrantAllowed, ModelAllowed, Unambiguous;
    var q := CreateWorker(cat, p, id, name, config, offered, requested, ready).0;
    if q != p {
      NewWorkerGrantsNothing(cat, p, id, Worker(id, name, config, Some(5)));
      GrowthKeepsRouting(cat, p, q);
    }
  }

  lemma RenameKeepsRouting(cat: Catalogue, p: Plane, id: Id, name: string)
    requires RoutingHolds(cat, p)
    ensures RoutingHolds(cat, RenameWorker(cat, p, id, name).0)
  {
    hide EffectivePolicy, Publishable, NameTaken;
    if RenameWorker(cat, p, id, name).1 {
      RenameGrantsTheSame(cat, p, id, name);
      GrowthKeepsRouting(cat, p, RenameWorker(cat, p, id, name).0);
    }
  }

  lemma TestKeepsRouting(cat: Catalogue, p: Plane, worker: Worker, capability: Option<string>, working: bool)
    requires RoutingHolds(cat, p)
    ensures RoutingHolds(cat, RecordTest(p, worker, capability, working))
  {
    hide EffectivePolicy, Publishable;
    GrowthKeepsRouting(cat, p, RecordTest(p, worker, capability, working));
  }

  // Who allows a grant: the store, or a Worker from before capability policies.
  lemma AllowedExactly(cat: Catalogue, p: Plane, g: Grant)
    ensures GrantAllowed(ContextOf(cat, p).policy, g) <==>
      if g in p.grants then p.grants[g] && ModelAllowed(p.models, g.0)
      else exists id :: id in p.workers && g in Grandfathered(cat, p.workers[id], p.models)
  {
  }

  lemma GrantedModelIsAllowed(cat: Catalogue, p: Plane, g: Grant)
    requires GrantAllowed(ContextOf(cat, p).policy, g)
    ensures ModelAllowed(p.models, g.0)
  {
  }

  // A live binding relies on a grant for this Worker.
  ghost predicate Relies(cat: Catalogue, p: Plane, profile: Id, b: Binding, id: Id) {
    && profile in p.active && ActiveDefinition(p, profile).Some? && b in ActiveDefinition(p, profile).value.bindings
    && b.contract in cat.capabilityOf && id in b.workers && id in p.workers
  }

  function GrantFor(cat: Catalogue, p: Plane, b: Binding, id: Id): Grant
    requires b.contract in cat.capabilityOf && id in p.workers
  {
    (CacheIdentity(p.workers[id]), cat.capabilityOf[b.contract])
  }

  ghost predicate KeepsGrant(cat: Catalogue, p: Plane, q: Plane, g: Grant) {
    GrantAllowed(ContextOf(cat, p).policy, g) ==> GrantAllowed(ContextOf(cat, q).policy, g)
  }

  // A policy change keeps routing when every grant that live bindings use stays allowed.
  lemma PolicyKeepsRouting(cat: Catalogue, p: Plane, q: Plane)
    requires RoutingHolds(cat, p)
    requires q == p.(grants := q.grants, models := q.models)
    requires forall profile, b, id :: Relies(cat, p, profile, b, id) ==> KeepsGrant(cat, p, q, GrantFor(cat, p, b, id))
    ensures RoutingHolds(cat, q)
  {
    hide EffectivePolicy, GrantAllowed, Publishable;
    forall profile | profile in p.active
      ensures StillServes(cat, ActiveDefinition(p, profile).value, ContextOf(cat, p), ContextOf(cat, q))
    {
      assert LiveIsValid(cat, p, profile);
      var definition := ActiveDefinition(p, profile).value;
      forall b, id | b in definition.bindings && b.contract in cat.capabilityOf && id in b.workers && id in p.workers
        ensures KeepsGrant(cat, p, q, GrantFor(cat, p, b, id))
      {
        assert Relies(cat, p, profile, b, id);
      }
    }
    assert Kept(q);
    KeepsRouting(cat, p, q);
  }

  // A live binding that relies on a grant of this capability is among the references.
  lemma UseIsReferenced(cat: Catalogue, p: Plane, profile: Id, b: Binding, id: Id, identity: Identity)
    requires RoutingHolds(cat, p) && Relies(cat, p, profile, b, id) && CacheIdentity(p.workers[id]) == identity
    ensures NeedFor(p, identity, b.contract) != {}
  {
    hide Publishable;
    var definition := ActiveDefinition(p, profile).value;
    assert LiveIsValid(cat, p, profile);
    assert id in WorkersOf(p, identity);
    var r := Reference(definition.id, b.id, Live);
    assert r in BindingsNeeding(definition, b.contract, WorkersOf(p, identity), Live);
    assert r in NeedIn(p, identity, b.contract, profile) && profile in p.drafts;
    assert r in NeedFor(p, identity, b.contract);
  }

  lemma SetGrantKeepsRouting(cat: Catalogue, p: Plane, identity: Identity, capability: string, allowed: bool,
      known: bool)
    requires cat.Coherent() && RoutingHolds(cat, p)
    ensures RoutingHolds(cat, SetGrantAllowed(cat, p, identity, capability, allowed, known).0)
  {
    hide ContextOf, Publishable, NeedFor, LiveIsValid;
    var q := SetGrantAllowed(cat, p, identity, capability, allowed, known).0;
    if SetGrantAllowed(cat, p, identity, capability, allowed, known).1 {
      forall profile, b, id | Relies(cat, p, profile, b, id) ensures KeepsGrant(cat, p, q, GrantFor(cat, p, b, id)) {
        var g := GrantFor(cat, p, b, id);
        AllowedExactly(cat, p, g);
        AllowedExactly(cat, q, g);
        if g == (identity, capability) {
          UseIsReferenced(cat, p, profile, b, id, identity);
          if GrantAllowed(ContextOf(cat, p).policy, g) {
            GrantedModelIsAllowed(cat, p, g);
          }
        }
      }
      PolicyKeepsRouting(cat, p, q);
    }
  }

  lemma SetModelKeepsRouting(cat: Catalogue, p: Plane, identity: Identity, allowed: bool, known: bool)
    requires RoutingHolds(cat, p)
    ensures RoutingHolds(cat, SetModelAllowed(p, identity, allowed, known).0)
  {
    hide ContextOf, Publishable, LiveIsValid;
    var q := SetModelAllowed(p, identity, allowed, known).0;
    if SetModelAllowed(p, identity, allowed, known).1 {
      forall profile, b, id | Relies(cat, p, profile, b, id) ensures KeepsGrant(cat, p, q, GrantFor(cat, p, b, id)) {
        var g := GrantFor(cat, p, b, id);
        assert !allowed ==> g.0 != identity;
        AllowedExactly(cat, p, g);
        AllowedExactly(cat, q, g);
      }
      PolicyKeepsRouting(cat, p, q);
    }
  }

  // Routing that is left alone stays valid in the same context.
  lemma LiveElsewhere(cat: Catalogue, p: Plane, q: Plane, live: Id)
    requires LiveIsValid(cat, p, live) && ContextOf(cat, q) == ContextOf(cat, p)
    requires live in q.active && q.active[live] == p.active[live]
    requires (live in p.drafts ==> live in q.drafts) && History(p, live) <= History(q, live)
    ensures LiveIsValid(cat, q, live)
  {
  }

  lemma DraftsServe(cat: Catalogue, p: Plane, q: Plane)
    requires RoutingHolds(cat, p) && q == p.(drafts := q.drafts) && Kept(q)
    requires forall profile :: profile in p.active ==> profile in q.drafts
    ensures RoutingHolds(cat, q)
  {
    hide EffectivePolicy, LiveIsValid, Kept;
    forall live | live in q.active ensures LiveIsValid(cat, q, live) {
      LiveElsewhere(cat, p, q, live);
    }
  }

  lemma ReplaceKeepsRouting(cat: Catalogue, p: Plane, a: Action)
    requires RoutingHolds(cat, p) && a.Replace?
    ensures RoutingHolds(cat, Step(cat, p, a).0)
  {
    hide EffectivePolicy, LiveIsValid, Unambiguous, CreateWorker;
    CreateKeepsRouting(cat, p, a.id, a.name, a.config, a.offered, None, a.ready);
    var created := CreateWorker(cat, p, a.id, a.name, a.config, a.offered, None, a.ready).0;
    LiveHasDraft(cat, created);
    DraftsServe(cat, created, created.(drafts := RebindDrafts(created.drafts, a.worker, a.id)));
  }

  lemma LiveHasDraft(cat: Catalogue, p: Plane)
    requires RoutingHolds(cat, p)
    ensures forall profile :: profile in p.active ==> profile in p.drafts
  {
  }

  lemma DraftsKeepRouting(cat: Catalogue, p: Plane, a: Action)
    requires RoutingHolds(cat, p) && (a.SaveDraft? || a.DiscardDraft? || a.DeleteProfile?)
    ensures RoutingHolds(cat, Step(cat, p, a).0)
  {
    hide Publishable, WellFormedProfile, SnapshotOf, Unambiguous;
    var q := Step(cat, p, a).0;
    if Step(cat, p, a).1 {
      assert forall profile :: profile in p.active ==> LiveIsValid(cat, p, profile);
      if a.DiscardDraft? {
        assert AllNamed(p.revisions[a.profile], a.profile);
      }
      DraftsServe(cat, p, q);
    }
  }

  // ----- Activation -----

  // A valid revision can go live; a collision leaves routing as it was.
  lemma ActivateKeepsRouting(cat: Catalogue, p: Plane, history: seq<Profile>, profile: Id, revision: nat)
    requires RoutingHolds(cat, p) && profile in p.drafts
    requires History(p, profile) <= history && AllNamed(history, profile) && 1 <= revision <= |history|
    requires Publishable(cat, p, history[revision - 1])
    ensures
      var moved := p.(revisions := p.revisions[profile := history]);
      var activated := Activate(moved, profile, revision, history[revision - 1]);
      activated.1 ==> RoutingHolds(cat, activated.0)
  {
    hide Publishable, LiveIsValid, Unambiguous, SnapshotOf, Collides, Kept;
    var moved := p.(revisions := p.revisions[profile := history]);
    var activated := Activate(moved, profile, revision, history[revision - 1]);
    if activated.1 {
      var q := activated.0;
      ActivatedIsKept(p, q, history, profile);
      forall live | live in q.active ensures LiveIsValid(cat, q, live) {
        if live == profile {
          NewlyLive(cat, p, q, history, profile, revision);
        } else {
          assert History(q, live) == History(p, live);
          LiveElsewhere(cat, p, q, live);
        }
      }
    }
  }

  lemma ActivatedIsKept(p: Plane, q: Plane, history: seq<Profile>, profile: Id)
    requires Kept(p) && profile in p.drafts && history != [] && AllNamed(history, profile)
    requires profile in q.active && !Collides(p.active, profile, q.active[profile].snapshot)
    requires q == p.(revisions := p.revisions[profile := history], active := p.active[profile := q.active[profile]])
    ensures Kept(q)
  {
  }

  lemma NewlyLive(cat: Catalogue, p: Plane, q: Plane, history: seq<Profile>, profile: Id, revision: nat)
    requires profile in p.drafts && AllNamed(history, profile) && 1 <= revision <= |history|
    requires Publishable(cat, p, history[revision - 1]) && ContextOf(cat, q) == ContextOf(cat, p)
    requires profile in q.drafts && History(q, profile) == history
    requires profile in q.active && q.active[profile] == Active(revision, SnapshotOf(history[revision - 1], revision))
    ensures LiveIsValid(cat, q, profile)
  {
  }

  lemma PublishKeepsRouting(cat: Catalogue, p: Plane, profile: Id)
    requires RoutingHolds(cat, p)
    ensures RoutingHolds(cat, PublishProfile(cat, p, profile).0)
  {
    hide Publishable, Activate;
    if PublishProfile(cat, p, profile).1 {
      var definition := p.drafts[profile];
      var history := History(p, profile) + [definition];
      ActivateKeepsRouting(cat, p, history, profile, |history|);
    }
  }

  lemma ReactivateKeepsRouting(cat: Catalogue, p: Plane, profile: Id, revision: nat)
    requires RoutingHolds(cat, p)
    ensures RoutingHolds(cat, ReactivateRevision(cat, p, profile, revision).0)
  {
    hide Publishable;
    if ReactivateRevision(cat, p, profile, revision).1 {
      var history := History(p, profile);
      assert p.revisions[profile := history] == p.revisions;
      assert p.(revisions := p.revisions[profile := history]) == p;
      ActivateKeepsRouting(cat, p, history, profile, revision);
    }
  }

  lemma DeactivateKeepsRouting(cat: Catalogue, p: Plane, profile: Id)
    requires RoutingHolds(cat, p)
    ensures RoutingHolds(cat, DeactivateProfile(p, profile).0)
  {
    hide EffectivePolicy, LiveIsValid;
    var q := DeactivateProfile(p, profile).0;
    forall live | live in q.active ensures LiveIsValid(cat, q, live) {
      LiveElsewhere(cat, p, q, live);
    }
  }
}
