/**
 Runs of the control plane: published routing stays valid, exactly when archiving a
 Worker breaks it, and what clients can rely on.
 */
module PublishedRouting {
  import opened Common
  import opened Routing
  import opened ControlPlane
  import opened RoutingInvariant
  import opened GuidedPublication

  // ----- Archiving -----

  // Some live binding relies on a grant that is not stored and that no Worker but this
  // one carries over from before capability policies.
  ghost predicate OnlyGrantor(cat: Catalogue, p: Plane, worker: Id) {
    exists profile, b, id :: Relies(cat, p, profile, b, id) && OnlyGrants(cat, p, worker, GrantFor(cat, p, b, id))
  }

  ghost predicate OnlyGrants(cat: Catalogue, p: Plane, worker: Id, g: Grant) {
    && g !in p.grants
    && forall other :: other in p.workers && other != worker ==> g !in Grandfathered(cat, p.workers[other], p.models)
  }

  lemma GrantWithout(cat: Catalogue, p: Plane, worker: Id, g: Grant)
    ensures
      var q := p.(workers := p.workers - {worker});
      GrantAllowed(ContextOf(cat, q).policy, g) <==>
        GrantAllowed(ContextOf(cat, p).policy, g) && !OnlyGrants(cat, p, worker, g)
  {
    hide ContextOf, GrantAllowed, Grandfathered;
    var q := p.(workers := p.workers - {worker});
    AllowedExactly(cat, p, g);
    AllowedExactly(cat, q, g);
    assert forall other :: other in q.workers ==> q.workers[other] == p.workers[other];
    if other :| other in p.workers && other != worker && g in Grandfathered(cat, p.workers[other], p.models) {
      assert other in q.workers && g in Grandfathered(cat, q.workers[other], q.models);
    }
  }

  lemma LiveUseIsReferenced(cat: Catalogue, p: Plane, worker: Id, profile: Id, b: Binding)
    requires RoutingHolds(cat, p) && profile in p.active && ActiveDefinition(p, profile).Some?
    requires b in ActiveDefinition(p, profile).value.bindings && worker in b.workers
    ensures UsageOf(p, worker) != {}
  {
    hide Publishable;
    assert LiveIsValid(cat, p, profile);
    var definition := ActiveDefinition(p, profile).value;
    var r := Reference(definition.id, b.id, Live);
    assert r in BindingsUsing(definition, worker, Live);
    assert r in UsageIn(p, worker, profile) && profile in p.drafts;
    assert r in UsageOf(p, worker);
  }

  // Every binding of a live profile is served.
  lemma LiveIsServed(cat: Catalogue, p: Plane, profile: Id, b: Binding)
    requires RoutingHolds(cat, p) && profile in p.active && ActiveDefinition(p, profile).Some?
    requires b in ActiveDefinition(p, profile).value.bindings
    ensures Served(cat, ActiveDefinition(p, profile).value.testedWorking, b, ContextOf(cat, p))
  {
    hide ReportOn, EffectivePolicy, Served;
    assert LiveIsValid(cat, p, profile);
    ValidExactlyWhenServed(cat, ActiveDefinition(p, profile).value, ContextOf(cat, p));
  }

  lemma ArchiveServes(cat: Catalogue, p: Plane, worker: Id, profile: Id)
    requires RoutingHolds(cat, p) && UsageOf(p, worker) == {} && !OnlyGrantor(cat, p, worker) && profile in p.active
    ensures ActiveDefinition(p, profile).Some?
    ensures
      var q := p.(workers := p.workers - {worker});
      StillServes(cat, ActiveDefinition(p, profile).value, ContextOf(cat, p), ContextOf(cat, q))
  {
    hide EffectivePolicy, GrantAllowed, Publishable, UsageOf, OnlyGrants;
    assert LiveIsValid(cat, p, profile);
    var definition := ActiveDefinition(p, profile).value;
    forall b | b in definition.bindings ensures worker !in b.workers {
      if worker in b.workers {
        LiveUseIsReferenced(cat, p, worker, profile, b);
      }
    }
    forall b, id | b in definition.bindings && b.contract in cat.capabilityOf && id in b.workers && id in p.workers
      ensures KeepsGrant(cat, p, p.(workers := p.workers - {worker}), GrantFor(cat, p, b, id))
    {
      assert Relies(cat, p, profile, b, id);
      GrantWithout(cat, p, worker, GrantFor(cat, p, b, id));
    }
  }

  // Otherwise the binding that loses its grant no longer validates.
  lemma ArchiveBreaks(cat: Catalogue, p: Plane, worker: Id, profile: Id, b: Binding, id: Id)
    requires Relies(cat, p, profile, b, id) && OnlyGrants(cat, p, worker, GrantFor(cat, p, b, id))
    ensures !RoutingHolds(cat, p.(workers := p.workers - {worker}))
  {
    hide ReportOn, EffectivePolicy, OnlyGrants;
    var q := p.(workers := p.workers - {worker});
    GrantWithout(cat, p, worker, GrantFor(cat, p, b, id));
    if RoutingHolds(cat, q) {
      LiveIsServed(cat, q, profile, b);
    }
  }

  /** Archiving a Worker that nothing references keeps published routing valid exactly
      when no live binding relies on a grant that only this Worker carries over from
      before capability policies. */
  lemma ArchiveKeepsRoutingExactly(cat: Catalogue, p: Plane, worker: Id, stopped: bool)
    requires RoutingHolds(cat, p) && ArchiveWorker(p, worker, stopped).1
    ensures RoutingHolds(cat, ArchiveWorker(p, worker, stopped).0) <==> !OnlyGrantor(cat, p, worker)
  {
    hide EffectivePolicy, LiveIsValid, StillServes, OnlyGrants, UsageOf;
    var q := p.(workers := p.workers - {worker});
    if OnlyGrantor(cat, p, worker) {
      var profile, b, id :| Relies(cat, p, profile, b, id) && OnlyGrants(cat, p, worker, GrantFor(cat, p, b, id));
      ArchiveBreaks(cat, p, worker, profile, b, id);
    } else {
      forall profile | profile in p.active
        ensures ActiveDefinition(p, profile).Some?
        ensures StillServes(cat, ActiveDefinition(p, profile).value, ContextOf(cat, p), ContextOf(cat, q))
      {
        ArchiveServes(cat, p, worker, profile);
      }
      LiveHasDraft(cat, p);
      KeepsRouting(cat, p, q);
    }
  }

  // ----- Runs -----

  lemma StepKeepsRouting(cat: Catalogue, p: Plane, a: Action)
    requires cat.Coherent() && RoutingHolds(cat, p)
    requires a.Archive? ==> !OnlyGrantor(cat, p, a.id)
    ensures RoutingHolds(cat, Step(cat, p, a).0)
  {
    hide RoutingHolds, OnlyGrantor, CreateWorker, RenameWorker, ReplaceWorker, ArchiveWorker, QualifyWorker,
         SetGrantAllowed, SetModelAllowed, PublishProfile, ReactivateRevision, DeactivateProfile,
         SaveProfileDraft, DiscardProfileDraft, RemoveProfile, RecordTest, ControlPlane.GuidedPublication;
    match a
    case Create(id, name, config, offered, requested, ready) =>
      CreateKeepsRouting(cat, p, id, name, config, offered, requested, ready);
    case Rename(id, name) => RenameKeepsRouting(cat, p, id, name);
    case Replace(_, _, _, _, _, _, _) => ReplaceKeepsRouting(cat, p, a);
    case Archive(id, stopped) =>
      if ArchiveWorker(p, id, stopped).1 {
        ArchiveKeepsRoutingExactly(cat, p, id, stopped);
      } else {
        RefusedArchive(p, id, stopped);
      }
    case Qualify(id, capability, ready, working) => QualifyKeepsRouting(cat, p, id, capability, ready, working);
    case Diagnose(id, working) => if id in p.workers { TestKeepsRouting(cat, p, p.workers[id], None, working); }
    case SetGrant(identity, capability, allowed, known) =>
      SetGrantKeepsRouting(cat, p, identity, capability, allowed, known);
    case SetModel(identity, allowed, known) => SetModelKeepsRouting(cat, p, identity, allowed, known);
    case SaveDraft(_, _) => DraftsKeepRouting(cat, p, a);
    case DiscardDraft(_) => DraftsKeepRouting(cat, p, a);
    case DeleteProfile(_) => DraftsKeepRouting(cat, p, a);
    case Publish(profile) => PublishKeepsRouting(cat, p, profile);
    case Reactivate(profile, revision) => ReactivateKeepsRouting(cat, p, profile, revision);
    case Deactivate(profile) => DeactivateKeepsRouting(cat, p, profile);
    case GuidedPublish(target, previous, verification) => GuidedKeepsRouting(cat, p, target, previous, verification);
  }

  lemma RefusedArchive(p: Plane, worker: Id, stopped: bool)
    requires !ArchiveWorker(p, worker, stopped).1
    ensures ArchiveWorker(p, worker, stopped).0 == p
  {
  }

  lemma QualifyKeepsRouting(cat: Catalogue, p: Plane, id: Id, capability: string, ready: bool, working: bool)
    requires RoutingHolds(cat, p)
    ensures RoutingHolds(cat, QualifyWorker(p, id, capability, ready, working).0)
  {
    hide RoutingHolds, RecordTest;
    if id in p.workers {
      TestKeepsRouting(cat, p, p.workers[id], Some(capability), working);
    }
  }

  // Every grandfathered grant is also stored, as the migration to schema v4 leaves it.
  ghost predicate GrantsStored(cat: Catalogue, p: Plane) {
    forall id, k ::
      id in p.workers && p.workers[id].policyVersion.None? && k in cat.recognised(p.workers[id].config) ==>
      (CacheIdentity(p.workers[id]), k) in p.grants
  }

  lemma AllowedIsStored(cat: Catalogue, p: Plane, g: Grant)
    requires GrantsStored(cat, p) && GrantAllowed(ContextOf(cat, p).policy, g)
    ensures g in p.grants
  {
  }

  lemma StoredGrantsSuffice(cat: Catalogue, p: Plane, worker: Id)
    requires RoutingHolds(cat, p) && GrantsStored(cat, p)
    ensures !OnlyGrantor(cat, p, worker)
  {
    hide EffectivePolicy, GrantsStored, RoutingHolds, Proves, GrantAllowed;
    forall profile, b, id | Relies(cat, p, profile, b, id) ensures GrantFor(cat, p, b, id) in p.grants {
      LiveIsServed(cat, p, profile, b);
      AllowedIsStored(cat, p, GrantFor(cat, p, b, id));
    }
  }

  lemma CreateStoresGrants(cat: Catalogue, p: Plane, id: Id, name: string, config: Configuration, offered: set<string>,
      requested: Option<string>, ready: bool)
    requires GrantsStored(cat, p)
    ensures GrantsStored(cat, CreateWorker(cat, p, id, name, config, offered, requested, ready).0)
  {
  }

  lemma StepStoresGrants(cat: Catalogue, p: Plane, a: Action)
    requires GrantsStored(cat, p)
    ensures GrantsStored(cat, Step(cat, p, a).0)
  {
    hide Publishable, UsageOf, NeedFor, NameTaken, WellFormedProfile, Collides, RebindDrafts, GrantAllowed,
         ModelAllowed, Configured, CreateWorker, ControlPlane.GuidedPublication;
    if a.GuidedPublish? {
      GuidedOnlyRoutes(cat, p, a.target, a.previous, a.verification);
    } else if a.Create? {
      CreateStoresGrants(cat, p, a.id, a.name, a.config, a.offered, a.requested, a.ready);
    } else if a.Replace? {
      CreateStoresGrants(cat, p, a.id, a.name, a.config, a.offered, None, a.ready);
    }
  }

  /** A fresh store is such a state. */
  lemma FreshStoreHolds(cat: Catalogue)
    ensures RoutingHolds(cat, Plane(map[], map[], map[], [], map[], map[], map[]))
    ensures GrantsStored(cat, Plane(map[], map[], map[], [], map[], map[], map[]))
  {
  }

  /** Published routing stays valid: over every sequence of operations, each run to
      completion, from a state where grandfathered grants are stored, every live
      profile's active revision still validates, is what its snapshot says, and no two
      live profiles share a public name. */
  lemma {:induction false} EveryRunKeepsRouting(cat: Catalogue, p: Plane, actions: seq<Action>)
    requires cat.Coherent() && RoutingHolds(cat, p) && GrantsStored(cat, p)
    ensures RoutingHolds(cat, Run(cat, p, actions)) && GrantsStored(cat, Run(cat, p, actions))
  {
    hide RoutingHolds, GrantsStored, Step, OnlyGrantor;
    if actions != [] {
      var before := Run(cat, p, actions[..|actions| - 1]);
      EveryRunKeepsRouting(cat, p, actions[..|actions| - 1]);
      StepStoresGrants(cat, before, Last(actions));
      if Last(actions).Archive? {
        StoredGrantsSuffice(cat, before, Last(actions).id);
      }
      StepKeepsRouting(cat, before, Last(actions));
    }
  }

  /** And from any valid state, stored grants or not, if no Worker is archived while it
      is the only grantor of a live binding. */
  lemma {:induction false} EveryGuardedRunKeepsRouting(cat: Catalogue, p: Plane, actions: seq<Action>)
    requires cat.Coherent() && RoutingHolds(cat, p)
    requires forall i :: 0 <= i < |actions| && actions[i].Archive? ==>
      !OnlyGrantor(cat, Run(cat, p, actions[..i]), actions[i].id)
    ensures RoutingHolds(cat, Run(cat, p, actions))
  {
    hide RoutingHolds, Step, OnlyGrantor;
    if actions != [] {
      var init := actions[..|actions| - 1];
      assert forall i :: 0 <= i < |init| ==> init[..i] == actions[..i] && init[i] == actions[i];
      EveryGuardedRunKeepsRouting(cat, p, init);
      assert actions[..|init|] == init && actions[|init|] == Last(actions);
      StepKeepsRouting(cat, Run(cat, p, init), Last(actions));
    }
  }

  // ----- What clients can rely on -----

  /** In every reachable state each Worker behind a live route exists, still suits the
      route's contract and is allowed its capability, and, if the profile demands it, is
      proven for it as configured now; and a public name belongs to one live route. */
  lemma EveryLiveRouteIsServed(cat: Catalogue, p: Plane, actions: seq<Action>, profile: Id, r: Route, worker: Id)
    requires cat.Coherent() && RoutingHolds(cat, p) && GrantsStored(cat, p)
    requires
      var now := Run(cat, p, actions);
      profile in now.active && r in now.active[profile].snapshot.routes && worker in r.workers
    ensures
      var now := Run(cat, p, actions);
      && worker in now.workers
      && r.contract in cat.contracts
      && now.workers[worker].config.family in cat.contracts[r.contract].families
      && (forall t :: t in cat.contracts[r.contract].traits ==> HasTrait(now.workers[worker], t))
      && (r.toolCalling ==> r.contract == "openai-chat-v1" && HasTrait(now.workers[worker], "tool_calling"))
      && (r.contract in cat.capabilityOf ==>
            ModelAllowed(now.models, CacheIdentity(now.workers[worker]))
            && (ActiveDefinition(now, profile).Some? && ActiveDefinition(now, profile).value.testedWorking ==>
                  exists t :: t in now.tests && Proves(t, now.workers[worker], cat.capabilityOf[r.contract])))
    ensures
      var now := Run(cat, p, actions);
      forall other, s ::
        other in now.active && s in now.active[other].snapshot.routes && s.publicName == r.publicName ==>
        other == profile && s == r
  {
    hide Run, Step;
    EveryRunKeepsRouting(cat, p, actions);
    var now := Run(cat, p, actions);
    RouteIsServed(cat, now, profile, r, worker);
    forall other, s | other in now.active && s in now.active[other].snapshot.routes && s.publicName == r.publicName
      ensures other == profile && s == r
    {
      NameIsUnique(cat, now, profile, r, other, s);
    }
  }

  lemma RouteIsServed(cat: Catalogue, now: Plane, profile: Id, r: Route, worker: Id)
    requires RoutingHolds(cat, now) && profile in now.active && r in now.active[profile].snapshot.routes
      && worker in r.workers
    ensures ActiveDefinition(now, profile).Some? && r.contract in cat.contracts && worker in now.workers
    ensures r.toolCalling ==> r.contract == "openai-chat-v1"
    ensures Suits(cat, ActiveDefinition(now, profile).value.testedWorking,
                  Binding(r.binding, r.displayName, r.publicName, r.contract, r.toolCalling, r.workers),
                  now.workers[worker], now.tests, ContextOf(cat, now).policy)
    ensures r.contract in cat.capabilityOf ==> ModelAllowed(now.models, CacheIdentity(now.workers[worker]))
  {
    hide ReportOn, EffectivePolicy, Proves, GrantAllowed, ModelAllowed;
    assert LiveIsValid(cat, now, profile);
    var definition := ActiveDefinition(now, profile).value;
    var i :| 0 <= i < |definition.bindings| && RouteOf(definition.bindings[i]) == r;
    LiveIsServed(cat, now, profile, definition.bindings[i]);
    if r.contract in cat.capabilityOf {
      GrantedModelIsAllowed(cat, now, (CacheIdentity(now.workers[worker]), cat.capabilityOf[r.contract]));
    }
  }

  lemma NameIsUnique(cat: Catalogue, now: Plane, profile: Id, r: Route, other: Id, s: Route)
    requires RoutingHolds(cat, now)
    requires profile in now.active && r in now.active[profile].snapshot.routes
    requires other in now.active && s in now.active[other].snapshot.routes && s.publicName == r.publicName
    ensures other == profile && s == r
  {
    hide ReportOn, EffectivePolicy, ContextOf;
    var mine, theirs := now.active[profile].snapshot, now.active[other].snapshot;
    assert r.publicName in PublicNames(mine) && s.publicName in PublicNames(theirs);
    assert r.publicName in PublicNames(mine) * PublicNames(theirs);
    assert LiveIsValid(cat, now, profile);
  }

  // ----- The exception is real -----

  // One cached Model with the two shipped templates for it.
  const GEMMA := ("google/gemma-4-E2B-it", "9dbdf8a839e4e9e0eb56ed80cc8886661d3817cf")
  const PLAIN := "gemma4-general-chat-rocm"
  const ADAPTIVE := "gemma4-general-chat-rocm-adaptive"

  const IMAGE_CHAT := "openai-image-chat-v1"

  function GemmaWorker(id: Id, template: string, policyVersion: Option<int>): Worker {
    var traits := map["chat" := Flag(true), "image_input" := Flag(true)];
    Worker(id, id, Configuration(GEMMA.0, GEMMA.1, None, "vision-language", "gemma4-general-chat-transformers-rocm",
                                 Some(template), None, "bfloat16", traits, map[]), policyVersion)
  }

  // The two contracts these templates serve; both templates are recognised for both.
  function ChatContracts(): Catalogue {
    var families := {"autoregressive", "vision-language"};
    Catalogue(map[CHAT := Contract(families, {"chat"}, map[]),
                  IMAGE_CHAT := Contract(families, {"chat", "image_input"}, map[])],
              map[CHAT := "general-chat", IMAGE_CHAT := "general-image-chat"],
              map["general-chat" := CHAT, "general-image-chat" := IMAGE_CHAT],
              (c: Configuration) =>
                if c.template == Some(PLAIN) || c.template == Some(ADAPTIVE)
                then {"general-chat", "general-image-chat"} else {},
              (name: string) => name)
  }

  const LIVE := Profile("p", "Profile", false, [Binding("c", "Chat", "chat", CHAT, false, ["v"])])

  // A recovered Worker from before capability policies; only image chat is granted.
  function Recovered(): Plane {
    Plane(map["w" := GemmaWorker("w", PLAIN, None)], map[], map[(GEMMA, "general-image-chat") := true], [],
          map[], map[], map[])
  }

  // And a later one that was created for image chat and serves general chat as well.
  function Fragile(): Plane {
    Recovered().(workers := Recovered().workers["v" := GemmaWorker("v", ADAPTIVE, Some(5))],
                 drafts := map["p" := LIVE], revisions := map["p" := [LIVE]],
                 active := map["p" := Active(1, SnapshotOf(LIVE, 1))])
  }

  lemma FragileServes()
    ensures Served(ChatContracts(), false, Fragile().drafts["p"].bindings[0], ContextOf(ChatContracts(), Fragile()))
    ensures OnlyGrants(ChatContracts(), Fragile(), "w", (GEMMA, "general-chat"))
  {
    hide EffectivePolicy;
    var cat, p := ChatContracts(), Fragile();
    var g: Grant := (GEMMA, "general-chat");
    AllowedExactly(cat, p, g);
    assert g in Grandfathered(cat, p.workers["w"], p.models);
  }

  lemma FragileHolds()
    ensures RoutingHolds(ChatContracts(), Fragile())
  {
    hide EffectivePolicy, Served, ReportOn;
    var cat, p := ChatContracts(), Fragile();
    var definition := p.drafts["p"];
    FragileServes();
    ValidExactlyWhenServed(cat, definition, ContextOf(cat, p));
    assert LiveIsValid(cat, p, "p");
  }

  // Three operations lead there: create the second Worker, save a draft, publish it.
  function Steps(): seq<Action> {
    var config := GemmaWorker("v", ADAPTIVE, Some(5)).config;
    [Create("v", "v", config, {"general-chat", "general-image-chat"}, Some("general-image-chat"), true),
     SaveDraft(LIVE, true), Publish("p")]
  }

  function Drafted(): Plane {
    Fragile().(revisions := map[], active := map[])
  }

  lemma FragileIsMade()
    ensures Run(ChatContracts(), Recovered(), Steps()) == Fragile()
  {
    hide Step, Recovered, Drafted, Fragile, ChatContracts;
    DraftIsSaved();
    DraftIsPublished();
    ThreeSteps(ChatContracts(), Recovered(), Steps()[0], Steps()[1], Publish("p"));
  }

  lemma ThreeSteps(cat: Catalogue, p: Plane, a: Action, b: Action, c: Action)
    ensures Run(cat, p, [a, b, c]) == Step(cat, Step(cat, Step(cat, p, a).0, b).0, c).0
  {
    hide Step;
    var all := [a, b, c];
    assert all[..2] == [a, b] && [a, b][..1] == [a] && [a][..0] == [];
    assert Run(cat, p, [a]) == Step(cat, p, a).0;
  }

  lemma DraftIsPublishable()
    ensures Publishable(ChatContracts(), Drafted(), LIVE)
  {
    hide Publishable, EffectivePolicy;
    FragileHolds();
    assert LiveIsValid(ChatContracts(), Fragile(), "p");
    SamePublishable(ChatContracts(), Fragile(), Drafted(), LIVE);
  }

  lemma DraftIsSaved()
    ensures
      var made := Step(ChatContracts(), Recovered(), Steps()[0]).0;
      Step(ChatContracts(), made, Steps()[1]).0 == Drafted()
  {
    hide EffectivePolicy, ReportOn;
    DraftIsPublishable();
  }

  lemma DraftIsPublished()
    ensures Step(ChatContracts(), Drafted(), Publish("p")).0 == Fragile()
  {
    hide Publishable, SnapshotOf;
    DraftIsPublishable();
    assert History(Drafted(), "p") + [LIVE] == [LIVE];
  }

  lemma FragileIsUnreferenced()
    ensures UsageOf(Fragile(), "w") == {}
  {
  }

  /** A Gemma 4 Worker from before capability policies shares its cached Model with a
      later one, which serves a live chat route only thanks to what the first is
      recognised for.  Nothing references the first, so it may be archived, and the live
      route is then invalid. */
  lemma ArchivingAGrantorBreaksARoute()
    ensures ChatContracts().Coherent() && RoutingHolds(ChatContracts(), Fragile())
    ensures Run(ChatContracts(), Recovered(), Steps()) == Fragile()
    ensures ArchiveWorker(Fragile(), "w", true).1
    ensures !RoutingHolds(ChatContracts(), ArchiveWorker(Fragile(), "w", true).0)
  {
    hide EffectivePolicy, UsageOf, OnlyGrants, RoutingHolds;
    var cat, p := ChatContracts(), Fragile();
    FragileServes();
    FragileHolds();
    FragileIsMade();
    FragileIsUnreferenced();
    assert Relies(cat, p, "p", p.drafts["p"].bindings[0], "v");
    ArchiveKeepsRoutingExactly(cat, p, "w", true);
  }
}
