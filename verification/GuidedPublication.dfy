/**
 Publishing from a guided setup: publish the reviewed profile, exercise the route and,
 if that fails, restore the routing that was live before.
 */
module GuidedPublication {
  import opened Common
  import opened Sorting
  import opened Routing
  import opened ControlPlane
  import opened RoutingInvariant
  import opened ControlPlaneService

  // A state on the way back: the histories are those of p or longer, and what is live
  // was live in p.
  ghost predicate OnTheWayBack(p: Plane, now: Plane) {
    && (forall q :: History(p, q) <= History(now, q))
    && (forall q :: q in now.active ==> q in p.active && now.active[q] == p.active[q])
  }

  lemma RestoresOne(p: Plane, now: Plane, s: Snapshot)
    requires RoutingStored(p) && OnTheWayBack(p, now) && IsLive(s, p.active)
    ensures 1 <= s.revision <= |History(now, s.profile)|
    ensures
      var definition := History(now, s.profile)[s.revision - 1];
      definition.id == s.profile
      && Activate(now, definition.id, s.revision, definition)
           == (now.(active := now.active[s.profile := p.active[s.profile]]), true)
  {
  }

  lemma {:induction false} RestoresAll(p: Plane, now: Plane, previous: seq<Snapshot>)
    requires RoutingStored(p) && OnTheWayBack(p, now) && forall s :: s in previous ==> IsLive(s, p.active)
    ensures
      var restored := Restore(now, previous);
      && restored.1 && restored.0 == now.(active := restored.0.active)
      && OnTheWayBack(p, restored.0)
      && (forall q :: q in now.active ==> q in restored.0.active)
      && (forall s :: s in previous ==> s.profile in restored.0.active)
  {
    hide RoutingStored, Activate;
    if previous != [] {
      var init, s := previous[..|previous| - 1], Last(previous);
      assert previous == init + [s];
      RestoresAll(p, now, init);
      RestoresOne(p, Restore(now, init).0, s);
    }
  }

  // What the rollback starts from: the target is not live, the rest is.
  function Withdrawn(p: Plane, target: Profile): Plane {
    p.(drafts := p.drafts[target.id := target],
       revisions := p.revisions[target.id := History(p, target.id) + [target]],
       active := p.active - {target.id})
  }

  lemma WithdrawnIsOnTheWayBack(p: Plane, target: Profile)
    ensures OnTheWayBack(p, Withdrawn(p, target))
    ensures Publication(p, target).1 ==>
      DeactivateProfile(Publication(p, target).0, target.id).0 == Withdrawn(p, target)
  {
  }

  /** Rolling back a publication whose route did not verify restores the live routing
      exactly, whether or not it still validates: the same profiles with the same
      revisions and snapshots.  No step of the restore is refused; only the new revision
      and the saved draft remain. */
  lemma RollbackRestoresRouting(p: Plane, target: Profile, previous: seq<Snapshot>)
    requires RoutingStored(p) && Lists(previous, p.active)
    requires Publication(p, target).1
    ensures Rollback(p, target, previous).1
    ensures Rollback(p, target, previous).0 == p.(
      drafts := p.drafts[target.id := target],
      revisions := p.revisions[target.id := History(p, target.id) + [target]])
  {
    hide Publication, DeactivateProfile, SnapshotOf, OnTheWayBack, Restore;
    var now := Withdrawn(p, target);
    WithdrawnIsOnTheWayBack(p, target);
    RestoresAll(p, now, previous);
    var restored := Restore(now, previous).0;
    forall q | q in p.active ensures q in restored.active {
      var s := p.active[q].snapshot;
      assert LiveIsStored(p, q);
      SnapshotNames(ActiveDefinition(p, q).value, p.active[q].revision);
      assert s in previous && s.profile == q;
    }
    SameActive(p, restored);
  }

  lemma SameActive(p: Plane, restored: Plane)
    requires OnTheWayBack(p, restored) && forall q :: q in p.active ==> q in restored.active
    ensures restored.active == p.active
  {
  }

  lemma SnapshotNames(definition: Profile, revision: nat)
    ensures SnapshotOf(definition, revision).profile == definition.id
  {
  }

  // ----- Guided publication among the other operations -----

  lemma {:induction false} RestoreOnlyActivates(p: Plane, previous: seq<Snapshot>)
    ensures Restore(p, previous).0 == p.(active := Restore(p, previous).0.active)
  {
    hide Collides, SnapshotOf;
    if previous != [] {
      RestoreOnlyActivates(p, previous[..|previous| - 1]);
    }
  }

  lemma PublishOnlyRoutes(p: Plane, target: Profile)
    ensures
      var q := PublishRevision(p, target).0;
      q == p.(revisions := q.revisions, active := q.active)
  {
  }

  lemma GuidedOnlyRoutes(cat: Catalogue, p: Plane, target: Profile, previous: seq<Snapshot>, verification: Verification)
    ensures GuidedPublication(cat, p, target, previous, verification).0.workers == p.workers
    ensures GuidedPublication(cat, p, target, previous, verification).0.grants == p.grants
  {
    hide Publishable, Lists, Restore, PublishRevision;
    PublishOnlyRoutes(p.(drafts := p.drafts[target.id := target]), target);
    RestoreOnlyActivates(DeactivateProfile(Publication(p, target).0, target.id).0, previous);
  }

  // Published routing is still routing when a revision or a draft is added beside it.
  lemma MoreHistoryKeepsRouting(cat: Catalogue, p: Plane, target: Profile)
    requires RoutingHolds(cat, p)
    ensures RoutingHolds(cat, p.(drafts := p.drafts[target.id := target]))
    ensures RoutingHolds(cat, p.(
      drafts := p.drafts[target.id := target],
      revisions := p.revisions[target.id := History(p, target.id) + [target]]))
  {
    hide ContextOf, LiveIsValid;
    var saved := p.(drafts := p.drafts[target.id := target]);
    var more := saved.(revisions := p.revisions[target.id := History(p, target.id) + [target]]);
    SameContext(cat, p, saved, more);
    forall live | live in p.active ensures LiveIsValid(cat, saved, live) && LiveIsValid(cat, more, live) {
      LiveElsewhere(cat, p, saved, live);
      LiveElsewhere(cat, p, more, live);
    }
  }

  lemma SameContext(cat: Catalogue, p: Plane, q: Plane, r: Plane)
    requires q == p.(drafts := q.drafts) && r == p.(drafts := r.drafts, revisions := r.revisions)
    ensures ContextOf(cat, q) == ContextOf(cat, p) && ContextOf(cat, r) == ContextOf(cat, p)
  {
  }

  lemma HoldsIsStored(cat: Catalogue, p: Plane)
    requires RoutingHolds(cat, p)
    ensures RoutingStored(p)
  {
  }

  /** A guided publication keeps published routing valid however it ends: refused,
      serving, rolled back, or left serving by an exception. */
  lemma GuidedKeepsRouting(
      cat: Catalogue, p: Plane, target: Profile, previous: seq<Snapshot>, verification: Verification)
    requires RoutingHolds(cat, p)
    ensures RoutingHolds(cat, GuidedPublication(cat, p, target, previous, verification).0)
  {
    hide RoutingHolds, Publishable, Rollback, Activate, Lists;
    if Lists(previous, p.active) && Publishable(cat, p, target) {
      var saved := p.(drafts := p.drafts[target.id := target]);
      MoreHistoryKeepsRouting(cat, p, target);
      if Publication(p, target).1 {
        if verification.Refuses? {
          HoldsIsStored(cat, p);
          RollbackRestoresRouting(p, target, previous);
        } else {
          PublishKeepsRouting(cat, saved, target.id);
          SamePublishable(cat, p, saved, target);
        }
      }
    }
  }

  lemma SamePublishable(cat: Catalogue, p: Plane, saved: Plane, target: Profile)
    requires saved == p.(drafts := saved.drafts, revisions := saved.revisions, active := saved.active)
    ensures Publishable(cat, saved, target) <==> Publishable(cat, p, target)
  {
  }

  datatype Outcome = Conflict | Serving | RolledBack | Escaped | Stuck

  /** The publishing part of the handler; `previous` is what the store listed before.
      An exception other than an HTTP error escapes and leaves the target serving. */
  method PublishAndVerify(s: Service, target: Profile, previous: seq<Snapshot>, verification: Verification)
    returns (outcome: Outcome)
    requires RoutingStored(s.State()) && Lists(previous, s.active)
    modifies s`drafts, s`revisions, s`active
    ensures outcome != Stuck
    ensures outcome == Conflict ==> s.State() == old(s.State()).(drafts := old(s.drafts)[target.id := target])
    ensures outcome == Conflict <==> !Publication(old(s.State()), target).1
    ensures outcome == Serving <==> Publication(old(s.State()), target).1 && verification.Answers?
    ensures outcome == RolledBack <==> Publication(old(s.State()), target).1 && verification.Refuses?
    ensures outcome == Serving || outcome == Escaped ==>
      && s.State() == Publication(old(s.State()), target).0
      && s.drafts == old(s.drafts)[target.id := target]
      && var history := History(old(s.State()), target.id) + [target];
         && s.revisions == old(s.revisions)[target.id := history]
         && s.active == old(s.active)[target.id := Active(|history|, SnapshotOf(target, |history|))]
    ensures outcome == RolledBack ==>
      && s.active == old(s.active)
      && s.revisions == old(s.revisions)[target.id := History(old(s.State()), target.id) + [target]]
      && s.drafts == old(s.drafts)[target.id := target]
    ensures Publishable(s.cat, old(s.State()), target) ==>
      s.State() == GuidedPublication(s.cat, old(s.State()), target, previous, verification).0
  {
    hide RoutingStored, Publishable, Lists, ControlPlane.PublishRevision, Activate;
    ghost var p := s.State();
    s.drafts := s.drafts[target.id := target];
    ghost var saved := s.State();
    assert saved == p.(drafts := p.drafts[target.id := target]);
    var ok := s.PublishRevision(target);
    if !ok {
      RefusedChangesNothing(saved, target);
      return Conflict;
    }
    PublicationGoesLive(p, target);
    if !verification.Refuses? {
      return if verification.Answers? then Serving else Escaped;
    }
    PublishOnlyRoutes(saved, target);
    s.active := s.active - {target.id};
    RollbackRestoresRouting(p, target, previous);
    ok := RestorePrevious(s, previous);
    return if ok then RolledBack else Stuck;
  }

  lemma PublicationGoesLive(p: Plane, target: Profile)
    requires Publication(p, target).1
    ensures
      var history := History(p, target.id) + [target];
      Publication(p, target).0 == p.(
        drafts := p.drafts[target.id := target],
        revisions := p.revisions[target.id := history],
        active := p.active[target.id := Active(|history|, SnapshotOf(target, |history|))])
  {
  }

  // Make the earlier revisions live again, in order.
  method RestorePrevious(s: Service, previous: seq<Snapshot>) returns (ok: bool)
    modifies s`active
    ensures Restore(old(s.State()), previous).1 ==> (s.State(), ok) == Restore(old(s.State()), previous)
  {
    hide Activate;
    ghost var p := s.State();
    for i := 0 to |previous|
      invariant Restore(p, previous).1 ==> (s.State(), true) == Restore(p, previous[..i])
    {
      assert previous[..i + 1][..i] == previous[..i] && Last(previous[..i + 1]) == previous[i];
      if Restore(p, previous).1 {
        RestoredSoFar(p, previous, i + 1);
      }
      var snapshot := previous[i];
      var history := History(s.State(), snapshot.profile);
      if 1 <= snapshot.revision <= |history| {
        var definition := history[snapshot.revision - 1];
        ok := s.SetActive(definition.id, snapshot.revision, definition);
        if !ok {
          return false;
        }
      }
    }
    assert previous[..|previous|] == previous;
    return true;
  }

  lemma RefusedChangesNothing(p: Plane, target: Profile)
    requires !PublishRevision(p, target).1
    ensures PublishRevision(p, target).0 == p
  {
  }

  // A restore that goes through goes through up to any point.
  lemma {:induction false} RestoredSoFar(p: Plane, previous: seq<Snapshot>, i: nat)
    requires i <= |previous| && Restore(p, previous).1
    ensures Restore(p, previous[..i]).1
    decreases |previous| - i
  {
    hide Activate;
    if i < |previous| {
      RestoredSoFar(p, previous, i + 1);
      assert previous[..i + 1][..i] == previous[..i];
    } else {
      assert previous[..i] == previous;
    }
  }
}
