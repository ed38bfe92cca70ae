/**
 The management operations that loop over profiles, bindings and active snapshots, as
 they run on the mutable stores, and those built on them.  Each is proved to take the
 step of the control plane that specifies it.
 */
module ControlPlaneService {
  import opened Common
  import opened Routing
  import opened ControlPlane

  class Service {
    const cat: Catalogue
    var workers: map<Id, Worker>
    var models: map<Identity, bool>
    var grants: map<Grant, bool>
    var tests: seq<Test>
    var drafts: map<Id, Profile>
    var revisions: map<Id, seq<Profile>>
    var active: map<Id, Active>

    constructor (cat: Catalogue)
      ensures this.cat == cat && State() == Plane(map[], map[], map[], [], map[], map[], map[])
    {
      this.cat := cat;
      workers, models, grants, tests := map[], map[], map[], [];
      drafts, revisions, active := map[], map[], map[];
    }

    function State(): Plane
      reads this
    {
      Plane(workers, models, grants, tests, drafts, revisions, active)
    }

    // ----- Workers -----

    // Every draft that names the old Worker now names the new one.
    method RebindRoutingProfileDrafts(before: Id, after: Id)
      modifies this`drafts
      ensures drafts == RebindDrafts(old(drafts), before, after)
    {
      hide RebindProfile;
      var left := drafts.Keys;
      while left != {}
        invariant left <= drafts.Keys == old(drafts).Keys
        invariant forall d :: d in drafts ==>
          drafts[d] == if d in left then old(drafts)[d] else RebindProfile(old(drafts)[d], before, after)
        decreases |left|
      {
        var d :| d in left;
        left := left - {d};
        if Uses(drafts[d], before) {
          drafts := drafts[d := RebindProfile(drafts[d], before, after)];
        } else {
          NothingToRebind(drafts[d], before, after);
        }
      }
    }

    // The draft and active bindings that block archiving a Worker.
    method WorkerUsage(worker: Id) returns (blocking: set<Reference>)
      ensures blocking == UsageOf(State(), worker)
    {
      hide UsageIn;
      blocking := {};
      var left := drafts.Keys;
      while left != {}
        invariant left <= drafts.Keys
        invariant blocking == set d, r | d in drafts && d !in left && r in UsageIn(State(), worker, d) :: r
        decreases |left|
      {
        var d :| d in left;
        left := left - {d};
        blocking := blocking + UsageIn(State(), worker, d);
      }
    }

    method ArchiveWorker(id: Id, stopped: bool) returns (ok: bool)
      modifies this`workers
      ensures (State(), ok) == Step(cat, old(State()), Archive(id, stopped))
      ensures workers == if ok then old(workers) - {id} else old(workers)
    {
      if id !in workers {
        return false;
      }
      var blocking := WorkerUsage(id);
      if blocking != {} || !stopped {
        return false;
      }
      workers := workers - {id};
      return true;
    }

    // ----- Policies -----

    // The draft and active bindings that need a capability of a cached Model.
    method CapabilityPolicyReferences(identity: Identity, contract: string) returns (references: set<Reference>)
      ensures references == NeedFor(State(), identity, contract)
    {
      hide NeedIn;
      references := {};
      var left := drafts.Keys;
      while left != {}
        invariant left <= drafts.Keys
        invariant references == set d, r | d in drafts && d !in left && r in NeedIn(State(), identity, contract, d) :: r
        decreases |left|
      {
        var d :| d in left;
        left := left - {d};
        references := references + NeedIn(State(), identity, contract, d);
      }
    }

    method SetCapabilityPolicy(identity: Identity, capability: string, allowed: bool, known: bool) returns (ok: bool)
      modifies this`grants
      ensures (State(), ok) == Step(cat, old(State()), SetGrant(identity, capability, allowed, known))
    {
      if !known {
        return false;
      }
      if !allowed && capability in cat.contractOf {
        var references := CapabilityPolicyReferences(identity, cat.contractOf[capability]);
        if references != {} {
          return false;
        }
      }
      grants := grants[(identity, capability) := allowed];
      return true;
    }

    // ----- Profiles -----

    // Validate a definition against the Workers, tests and policies as they are.
    method Validate(definition: Profile) returns (valid: bool)
      ensures valid == Publishable(cat, State(), definition)
    {
      hide EffectivePolicy, ReportOn, WellFormedProfile;
      if !WellFormedProfile(cat, definition) {
        return false;
      }
      var policy := ComputePolicy(cat, workers, models, grants);
      var report := ValidateRoutingProfile(cat, definition, Context(workers, tests, policy));
      return report.valid;
    }

    // The public names another live profile already serves.
    method Conflicts(profile: Id, s: Snapshot) returns (conflicts: set<string>)
      ensures conflicts != {} <==> Collides(active, profile, s)
      ensures forall name :: name in conflicts <==>
        name in PublicNames(s) && exists q :: q in active && q != profile && name in PublicNames(active[q].snapshot)
    {
      hide PublicNames;
      conflicts := {};
      var left := active.Keys - {profile};
      while left != {}
        invariant left <= active.Keys - {profile}
        invariant forall name :: name in conflicts <==>
          name in PublicNames(s)
          && exists q :: q in active && q != profile && q !in left && name in PublicNames(active[q].snapshot)
        decreases |left|
      {
        var q :| q in left;
        left := left - {q};
        conflicts := conflicts + PublicNames(s) * PublicNames(active[q].snapshot);
      }
    }

    // Make a revision live, unless its names collide.
    method SetActive(profile: Id, revision: nat, definition: Profile) returns (ok: bool)
      modifies this`active
      ensures (State(), ok) == Activate(old(State()), profile, revision, definition)
    {
      hide Collides;
      var s := SnapshotOf(definition, revision);
      var conflicts := Conflicts(profile, s);
      if conflicts != {} {
        return false;
      }
      active := active[profile := Active(revision, s)];
      return true;
    }

    // Append a revision and make it live, in one transaction.
    method PublishRevision(definition: Profile) returns (ok: bool)
      modifies this`revisions, this`active
      ensures (State(), ok) == ControlPlane.PublishRevision(old(State()), definition)
    {
      hide Collides;
      var before := revisions;
      var history := History(State(), definition.id) + [definition];
      revisions := revisions[definition.id := history];
      ok := SetActive(definition.id, |history|, definition);
      if !ok {
        revisions := before;
      }
    }

    method PublishProfile(profile: Id) returns (ok: bool)
      modifies this`revisions, this`active
      ensures (State(), ok) == Step(cat, old(State()), Publish(profile))
      ensures !ok ==> revisions == old(revisions) && active == old(active)
      ensures ok ==> profile in drafts
      ensures ok ==>
        var d, history := drafts[profile], History(old(State()), drafts[profile].id) + [drafts[profile]];
        && revisions == old(revisions)[d.id := history]
        && active == old(active)[d.id := Active(|history|, SnapshotOf(d, |history|))]
    {
      hide Publishable, SnapshotOf, Collides;
      if profile !in drafts {
        return false;
      }
      var definition := drafts[profile];
      var valid := Validate(definition);
      if !valid {
        return false;
      }
      ok := PublishRevision(definition);
    }

    method ReactivateRevision(profile: Id, revision: nat) returns (ok: bool)
      modifies this`active
      ensures (State(), ok) == Step(cat, old(State()), Reactivate(profile, revision))
      ensures !ok ==> active == old(active)
      ensures ok ==>
        && profile in revisions && 1 <= revision <= |revisions[profile]|
        && active == old(active)[profile := Active(revision, SnapshotOf(revisions[profile][revision - 1], revision))]
    {
      hide Publishable, SnapshotOf, Collides;
      var history := History(State(), profile);
      if !(1 <= revision <= |history|) {
        return false;
      }
      var definition := history[revision - 1];
      var valid := Validate(definition);
      if !valid {
        return false;
      }
      ok := SetActive(profile, revision, definition);
    }
  }

  lemma NothingToRebind(d: Profile, before: Id, after: Id)
    requires !Uses(d, before)
    ensures RebindProfile(d, before, after) == d
  {
    forall i | 0 <= i < |d.bindings| ensures Rebound(d.bindings[i], before, after) == d.bindings[i] {
      var b := d.bindings[i];
      assert b in d.bindings && before !in b.workers;
      assert Rebound(b, before, after).workers == b.workers;
    }
    assert RebindProfile(d, before, after).bindings == d.bindings;
  }
}
