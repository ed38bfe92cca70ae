/**
 The control plane: Workers, policies, evidence, profile drafts, revisions and active
 routing, and the management operations on them, each run to completion.

 What an operation learns from outside (the model cache, the supervisor, a probe) is a
 parameter of the operation.
 */
module ControlPlane {
  import opened Common
  import opened Sorting
  import opened Routing

  datatype Active = Active(revision: nat, snapshot: Snapshot)

  // Revision n of a profile is the n-th element of its history.
  datatype Plane = Plane(
    workers: map<Id, Worker>,
    models: map<Identity, bool>,
    grants: map<Grant, bool>,
    tests: seq<Test>,
    drafts: map<Id, Profile>,
    revisions: map<Id, seq<Profile>>,
    active: map<Id, Active>)

  function ContextOf(cat: Catalogue, p: Plane): Context {
    Context(p.workers, p.tests, EffectivePolicy(cat, p.workers, p.models, p.grants))
  }

  function History(p: Plane, profile: Id): seq<Profile> {
    if profile in p.revisions then p.revisions[profile] else []
  }

  // The definition of a profile's active revision, if it has one.
  function ActiveDefinition(p: Plane, profile: Id): Option<Profile> {
    if profile in p.active && 1 <= p.active[profile].revision <= |History(p, profile)|
    then Some(History(p, profile)[p.active[profile].revision - 1]) else None
  }

  // ----- The store -----

  // Another active profile already serves one of these public names.
  predicate Collides(active: map<Id, Active>, profile: Id, s: Snapshot) {
    exists q :: q in active && q != profile && PublicNames(active[q].snapshot) * PublicNames(s) != {}
  }

  // Both steps are one transaction: a collision leaves everything as it was.
  function Activate(p: Plane, profile: Id, revision: nat, definition: Profile): (Plane, bool) {
    var s := SnapshotOf(definition, revision);
    if Collides(p.active, profile, s) then (p, false)
    else (p.(active := p.active[profile := Active(revision, s)]), true)
  }

  function PublishRevision(p: Plane, definition: Profile): (Plane, bool) {
    var history := History(p, definition.id) + [definition];
    var appended := p.(revisions := p.revisions[definition.id := history]);
    var activated := Activate(appended, definition.id, |history|, definition);
    if activated.1 then activated else (p, false)
  }

  predicate Uses(definition: Profile, worker: Id) {
    exists b :: b in definition.bindings && worker in b.workers
  }

  function Rebound(b: Binding, before: Id, after: Id): Binding {
    b.(workers := seq(|b.workers|, i requires 0 <= i < |b.workers| =>
      if b.workers[i] == before then after else b.workers[i]))
  }

  function RebindProfile(d: Profile, before: Id, after: Id): Profile {
    d.(bindings := seq(|d.bindings|, i requires 0 <= i < |d.bindings| => Rebound(d.bindings[i], before, after)))
  }

  function RebindDrafts(drafts: map<Id, Profile>, before: Id, after: Id): map<Id, Profile> {
    map d | d in drafts :: RebindProfile(drafts[d], before, after)
  }

  // ----- References that block an operation -----

  datatype Kind = Draft | Live

  datatype Reference = Reference(profile: Id, binding: Id, kind: Kind)

  function BindingsUsing(definition: Profile, worker: Id, kind: Kind): set<Reference> {
    set b | b in definition.bindings && worker in b.workers :: Reference(definition.id, b.id, kind)
  }

  // The draft and active references to a Worker; older revisions do not block.
  function UsageIn(p: Plane, worker: Id, profile: Id): set<Reference> {
    (if profile in p.drafts then BindingsUsing(p.drafts[profile], worker, Draft) else {})
    + (if ActiveDefinition(p, profile).Some?
       then BindingsUsing(ActiveDefinition(p, profile).value, worker, Live) else {})
  }

  function UsageOf(p: Plane, worker: Id): set<Reference> {
    set d, r | d in p.drafts && r in UsageIn(p, worker, d) :: r
  }

  function BindingsNeeding(definition: Profile, contract: string, workers: set<Id>, kind: Kind): set<Reference> {
    set b | b in definition.bindings && b.contract == contract && (exists w :: w in workers && w in b.workers)
      :: Reference(definition.id, b.id, kind)
  }

  function WorkersOf(p: Plane, identity: Identity): set<Id> {
    set id | id in p.workers && CacheIdentity(p.workers[id]) == identity
  }

  function NeedIn(p: Plane, identity: Identity, contract: string, profile: Id): set<Reference> {
    var workers := WorkersOf(p, identity);
    (if profile in p.drafts then BindingsNeeding(p.drafts[profile], contract, workers, Draft) else {})
    + (if ActiveDefinition(p, profile).Some?
       then BindingsNeeding(ActiveDefinition(p, profile).value, contract, workers, Live) else {})
  }

  // The current bindings that rely on a capability of a cached Model.
  function NeedFor(p: Plane, identity: Identity, contract: string): set<Reference> {
    set d, r | d in p.drafts && r in NeedIn(p, identity, contract, d) :: r
  }

  // ----- Operations -----

  datatype Action =
    // `offered` is what the chosen runtime offers; `ready` sums up every other condition.
    | Create(id: Id, name: string, config: Configuration, offered: set<string>, requested: Option<string>, ready: bool)
    | Rename(id: Id, name: string)
    | Replace(worker: Id, id: Id, name: string, config: Configuration, offered: set<string>, ready: bool, rebind: bool)
    | Archive(id: Id, stopped: bool)
    | Qualify(id: Id, capability: string, ready: bool, working: bool)
    | Diagnose(id: Id, working: bool)
    | SetGrant(identity: Identity, capability: string, allowed: bool, known: bool)
    | SetModel(identity: Identity, allowed: bool, known: bool)
    | SaveDraft(definition: Profile, creating: bool)
    | DiscardDraft(profile: Id)
    | DeleteProfile(profile: Id)
    | Publish(profile: Id)
    | Reactivate(profile: Id, revision: nat)
    | Deactivate(profile: Id)
    // `previous` lists what was live before.
    | GuidedPublish(target: Profile, previous: seq<Snapshot>, verification: Verification)

  predicate NameTaken(cat: Catalogue, p: Plane, name: string, except: Option<Id>) {
    exists id :: id in p.workers && except != Some(id) && (cat.fold)(p.workers[id].name) == (cat.fold)(name)
  }

  // Identifiers are fresh UUIDs, so a taken one stands for what never happens.
  function CreateWorker(cat: Catalogue, p: Plane, id: Id, name: string, config: Configuration, offered: set<string>,
      requested: Option<string>, ready: bool): (Plane, bool)
  {
    var w := Worker(id, name, config, Some(5));
    var identity := CacheIdentity(w);
    var granted :=
      if requested.Some? then requested.value in offered && GrantAllowed(p.grants, (identity, requested.value))
      else exists k :: k in offered && GrantAllowed(p.grants, (identity, k));
    if id in p.workers || NameTaken(cat, p, name, None) || !ModelAllowed(p.models, identity) || !granted || !ready
    then (p, false)
    else (p.(workers := p.workers[id := w]), true)
  }

  function RenameWorker(cat: Catalogue, p: Plane, id: Id, name: string): (Plane, bool) {
    if id !in p.workers || NameTaken(cat, p, name, Some(id)) then (p, false)
    else (p.(workers := p.workers[id := p.workers[id].(name := name)]), true)
  }

  function ReplaceWorker(cat: Catalogue, p: Plane, worker: Id, id: Id, name: string, config: Configuration,
      offered: set<string>, ready: bool, rebind: bool): (Plane, bool)
  {
    if worker !in p.workers || p.workers[worker].config.template.None? then (p, false)
    else
      var created := CreateWorker(cat, p, id, name, config, offered, None, ready);
      if !created.1 || !rebind then created
      else (created.0.(drafts := RebindDrafts(created.0.drafts, worker, id)), true)
  }

  function ArchiveWorker(p: Plane, id: Id, stopped: bool): (Plane, bool) {
    if id !in p.workers || UsageOf(p, id) != {} || !stopped then (p, false)
    else (p.(workers := p.workers - {id}), true)
  }

  function RecordTest(p: Plane, worker: Worker, capability: Option<string>, working: bool): Plane {
    p.(tests := [Test(|p.tests| + 1, Some(worker.id), capability, Some(FingerprintOf(worker)), 2, working)] + p.tests)
  }

  function QualifyWorker(p: Plane, id: Id, capability: string, ready: bool, working: bool): (Plane, bool) {
    if id !in p.workers || !ready then (p, false)
    else
      var identity := CacheIdentity(p.workers[id]);
      if !ModelAllowed(p.models, identity) || !GrantAllowed(p.grants, (identity, capability)) then (p, false)
      else (RecordTest(p, p.workers[id], Some(capability), working), true)
  }

  function SetGrantAllowed(cat: Catalogue, p: Plane, identity: Identity, capability: string, allowed: bool,
      known: bool): (Plane, bool)
  {
    var needed := capability in cat.contractOf && NeedFor(p, identity, cat.contractOf[capability]) != {};
    if !known || (!allowed && needed) then (p, false)
    else (p.(grants := p.grants[(identity, capability) := allowed]), true)
  }

  predicate Configured(p: Plane, identity: Identity) {
    exists id :: id in p.workers &&
      ((p.workers[id].config.modelId, p.workers[id].config.revision) == identity
       || p.workers[id].config.artifact == Some(identity))
  }

  function SetModelAllowed(p: Plane, identity: Identity, allowed: bool, known: bool): (Plane, bool) {
    if !known || (!allowed && Configured(p, identity)) then (p, false)
    else (p.(models := p.models[identity := allowed]), true)
  }

  function SaveProfileDraft(cat: Catalogue, p: Plane, definition: Profile, creating: bool): (Plane, bool) {
    if !WellFormedProfile(cat, definition) || (creating <==> definition.id in p.drafts) then (p, false)
    else (p.(drafts := p.drafts[definition.id := definition]), true)
  }

  function DiscardProfileDraft(p: Plane, profile: Id): (Plane, bool) {
    if History(p, profile) == [] then (p, false)
    else (p.(drafts := p.drafts[profile := Last(History(p, profile))]), true)
  }

  function RemoveProfile(p: Plane, profile: Id): (Plane, bool) {
    if profile in p.active || History(p, profile) != [] || profile !in p.drafts then (p, false)
    else (p.(drafts := p.drafts - {profile}), true)
  }

  predicate Publishable(cat: Catalogue, p: Plane, definition: Profile) {
    WellFormedProfile(cat, definition) && ReportOn(cat, definition, ContextOf(cat, p)).valid
  }

  function PublishProfile(cat: Catalogue, p: Plane, profile: Id): (Plane, bool) {
    if profile !in p.drafts || !Publishable(cat, p, p.drafts[profile]) then (p, false)
    else PublishRevision(p, p.drafts[profile])
  }

  function ReactivateRevision(cat: Catalogue, p: Plane, profile: Id, revision: nat): (Plane, bool) {
    if !(1 <= revision <= |History(p, profile)|) then (p, false)
    else
      var definition := History(p, profile)[revision - 1];
      if !Publishable(cat, p, definition) then (p, false) else Activate(p, profile, revision, definition)
  }

  function DeactivateProfile(p: Plane, profile: Id): (Plane, bool) {
    if profile !in p.drafts then (p, false) else (p.(active := p.active - {profile}), true)
  }

  // ----- Publication from a guided setup -----

  function ProfilesOf(snapshots: seq<Snapshot>): (ids: seq<Id>)
    ensures |ids| == |snapshots|
  {
    seq(|snapshots|, i requires 0 <= i < |snapshots| => snapshots[i].profile)
  }

  // This snapshot is live.
  predicate IsLive(s: Snapshot, active: map<Id, Active>) {
    s.profile in active && active[s.profile].snapshot == s && active[s.profile].revision == s.revision
  }

  // The live snapshots, each once, in whatever order the store gives them.
  predicate Lists(snapshots: seq<Snapshot>, active: map<Id, Active>) {
    && NoRepeats(ProfilesOf(snapshots))
    && (forall s :: s in snapshots ==> IsLive(s, active))
    && (forall profile :: profile in active ==> active[profile].snapshot in snapshots)
  }

  // Make each earlier revision live again; false as soon as one is refused.
  function Restore(p: Plane, previous: seq<Snapshot>): (Plane, bool) {
    if previous == [] then (p, true)
    else
      var before := Restore(p, previous[..|previous| - 1]);
      var s := Last(previous);
      var history := History(before.0, s.profile);
      if !before.1 || !(1 <= s.revision <= |history|) then before
      else Activate(before.0, history[s.revision - 1].id, s.revision, history[s.revision - 1])
  }

  // Publishing a target whose draft is saved first.
  function Publication(p: Plane, target: Profile): (Plane, bool) {
    PublishRevision(p.(drafts := p.drafts[target.id := target]), target)
  }

  function Rollback(p: Plane, target: Profile, previous: seq<Snapshot>): (Plane, bool) {
    Restore(DeactivateProfile(Publication(p, target).0, target.id).0, previous)
  }

  // What exercising the published route ends with: an answer, an HTTP error, or any
  // other exception, which escapes the handler without a rollback.
  datatype Verification = Answers | Refuses | Raises

  // A list that is not the store's stands for what never happens.
  function GuidedPublication(
      cat: Catalogue, p: Plane, target: Profile, previous: seq<Snapshot>, verification: Verification): (Plane, bool)
  {
    if !Lists(previous, p.active) || !Publishable(cat, p, target) then (p, false)
    else if !Publication(p, target).1 then (p.(drafts := p.drafts[target.id := target]), false)
    else
      match verification
      case Answers => Publication(p, target)
      case Refuses => (Rollback(p, target, previous).0, false)
      case Raises => (Publication(p, target).0, false)
  }

  // The plane after an action, and whether it was carried out.
  function Step(cat: Catalogue, p: Plane, a: Action): (Plane, bool) {
    match a
    case Create(id, name, config, offered, requested, ready) =>
      CreateWorker(cat, p, id, name, config, offered, requested, ready)
    case Rename(id, name) => RenameWorker(cat, p, id, name)
    case Replace(worker, id, name, config, offered, ready, rebind) =>
      ReplaceWorker(cat, p, worker, id, name, config, offered, ready, rebind)
    case Archive(id, stopped) => ArchiveWorker(p, id, stopped)
    case Qualify(id, capability, ready, working) => QualifyWorker(p, id, capability, ready, working)
    case Diagnose(id, working) =>
      if id in p.workers then (RecordTest(p, p.workers[id], None, working), true) else (p, false)
    case SetGrant(identity, capability, allowed, known) => SetGrantAllowed(cat, p, identity, capability, allowed, known)
    case SetModel(identity, allowed, known) => SetModelAllowed(p, identity, allowed, known)
    case SaveDraft(definition, creating) => SaveProfileDraft(cat, p, definition, creating)
    case DiscardDraft(profile) => DiscardProfileDraft(p, profile)
    case DeleteProfile(profile) => RemoveProfile(p, profile)
    case Publish(profile) => PublishProfile(cat, p, profile)
    case Reactivate(profile, revision) => ReactivateRevision(cat, p, profile, revision)
    case Deactivate(profile) => DeactivateProfile(p, profile)
    case GuidedPublish(target, previous, verification) => GuidedPublication(cat, p, target, previous, verification)
  }

  function Run(cat: Catalogue, p: Plane, actions: seq<Action>): Plane {
    if actions == [] then p else Step(cat, Run(cat, p, actions[..|actions| - 1]), Last(actions)).0
  }
}
