/** What starting and accepting a query means for the snapshot it was started from. */
module AgentAcceptance {
  import opened Basics
  import opened AgentState
  import opened AgentSteps
  import opened AgentInvariant
  import opened AgentRuns

  // ---------------------------------------------------------------------
  // Starting.
  // ---------------------------------------------------------------------

  lemma ScheduleKeepsProfiles(a: Access, order: seq<Id>, admission: Admission, id: Id)
    ensures var b := Schedule(a, order, admission);
            id in b.queries <==> id in a.queries
    ensures id in a.queries ==> Schedule(a, order, admission).queries[id].profile == a.queries[id].profile
  {
    hide Candidate;
  }

  predicate Startable(p: Access, step: Step)
    requires step.Starts?
  {
    && Authenticated(p, step.conn) && step.sid in p.snapshots
    && p.snapshots[step.sid].connection == step.conn && !p.snapshots[step.sid].reserved
    && p.snapshots[step.sid].decision.SafeRead?
  }

  function AfterAdmission(w: World, step: Step): Access
    requires step.Starts? && Startable(Prune(w.access, step.now), step)
  {
    var p := Prune(w.access, step.now);
    Admit(p, w.limits, p.connections[step.conn].profile, step.conn, step.sid, step.eid, step.now)
  }

  /** A start is refused, or admits the query and schedules. */
  lemma StartCases(w: World, step: Step)
    requires step.Starts?
    ensures var p := Prune(w.access, step.now);
            || Apply(w, step).access == p
            || (Startable(p, step)
                && Apply(w, step).access == Schedule(AfterAdmission(w, step), step.order, step.admission))
  {
    hide Total, Schedule, Candidate, Admit, Prune;
  }

  lemma StartAdmits(w: World, step: Step)
    requires step.Starts? && step.eid !in w.access.queries && step.eid in Apply(w, step).access.queries
    ensures Startable(Prune(w.access, step.now), step)
    ensures Apply(w, step).access == Schedule(AfterAdmission(w, step), step.order, step.admission)
  {
    hide Apply, Schedule;
    StartCases(w, step);
  }

  /** A query only starts from a statement that its own authenticated connection had
      classified as a safe read within the last two minutes, and that no other query
      holds; and it starts for that connection's profile. */
  lemma StartsUseFreshSnapshots(steps: seq<Step>, w: World, step: Step)
    requires Run(INITIAL_WORLD, steps, w) && Enabled(w, step) && step.Starts?
    requires step.eid in Apply(w, step).access.queries
    ensures step.conn in w.access.connections && w.access.connections[step.conn].authenticated
    ensures step.sid in w.access.snapshots && forall id :: !Holds(w.access, id, step.sid)
    ensures var s := w.access.snapshots[step.sid];
            s.connection == step.conn && s.decision.SafeRead? && Elapsed(step.now, s.createdAt) < SQL_SNAPSHOT_LIFETIME
    ensures Apply(w, step).access.queries[step.eid].profile == w.access.connections[step.conn].profile
  {
    assert Reservations(w.access) by { ReachableStatesAreSafe(steps, w); }
    hide Apply, Run, Schedule;
    StartAdmits(w, step);
    ScheduleKeepsProfiles(AfterAdmission(w, step), step.order, step.admission, step.eid);
  }

  // ---------------------------------------------------------------------
  // Acceptance.
  // ---------------------------------------------------------------------

  /** Entries that can be scheduled afterwards were there before, from the same snapshot. */
  ghost predicate KeepsWaiting(a: Access, a': Access) {
    forall id :: id in a'.queries && Schedulable(a'.queries[id]) ==>
      id in a.queries && !a.queries[id].accepted && a'.queries[id].snapshotId == a.queries[id].snapshotId
  }

  lemma {:induction false} PollKeepsWaiting(a: Access, ids: seq<Id>, statuses: map<Id, Status>, now: Millis)
    requires forall id :: id in ids && id in a.queries ==> a.queries[id].accepted
    ensures KeepsWaiting(a, PollAll(a, ids, statuses, now))
    ensures forall id :: id in PollAll(a, ids, statuses, now).queries ==>
              id in a.queries && PollAll(a, ids, statuses, now).queries[id].accepted == a.queries[id].accepted
  {
    if ids != [] { PollKeepsWaiting(a, ids[..|ids| - 1], statuses, now); }
  }

  lemma {:induction false} FailKeepsWaiting(a: Access, ids: seq<Id>)
    ensures KeepsWaiting(a, FailAll(a, ids))
    ensures forall id :: id in FailAll(a, ids).queries ==>
              id in a.queries && FailAll(a, ids).queries[id].accepted == a.queries[id].accepted
    ensures forall id :: id in FailAll(a, ids).queries && Schedulable(FailAll(a, ids).queries[id]) ==>
              Schedulable(a.queries[id])
  {
    if ids != [] { FailKeepsWaiting(a, ids[..|ids| - 1]); }
  }

  lemma {:induction false} LateKeepsWaiting(a: Access, ids: seq<Id>)
    ensures KeepsWaiting(a, RequestCancelAll(a, ids))
    ensures forall id :: id in RequestCancelAll(a, ids).queries ==>
              id in a.queries && RequestCancelAll(a, ids).queries[id].accepted == a.queries[id].accepted
    ensures forall id :: id in RequestCancelAll(a, ids).queries && Schedulable(RequestCancelAll(a, ids).queries[id]) ==>
              Schedulable(a.queries[id])
  {
    if ids != [] { LateKeepsWaiting(a, ids[..|ids| - 1]); }
  }

  lemma BeforePassKeepsWaiting(a: Access, now: Millis, order: seq<Id>, e: Answers)
    ensures KeepsWaiting(a, BeforePass(a, now, order, e))
    ensures forall id :: id in BeforePass(a, now, order, e).queries ==>
              id in a.queries && BeforePass(a, now, order, e).queries[id].accepted == a.queries[id].accepted
  {
    var a0 := Begin(a, now);
    assert a0.queries == a.queries;
    SelectedAre(ToPoll, a0.queries, order, now);
    var toPoll, overdue := Select(ToPoll, a0.queries, order, now), Select(QueueOverdue, a0.queries, order, now);
    PollKeepsWaiting(a0, toPoll, e.statuses, now);
    var a1 := PollAll(a0, toPoll, e.statuses, now);
    FailKeepsWaiting(a1, overdue);
    var a2 := FailAll(a1, overdue);
    LateKeepsWaiting(a2, Select(RunOverdue, a0.queries, order, now));
    hide Begin, Select, PollAll, FailAll, RequestCancelAll;
  }

  /** A scheduling pass accepts only the query it picks, and drops its snapshot. */
  lemma ScheduleDropsSnapshot(a: Access, order: seq<Id>, admission: Admission, id: Id)
    requires id in Schedule(a, order, admission).queries && Schedule(a, order, admission).queries[id].accepted
    requires id in a.queries ==> !a.queries[id].accepted
    ensures id in a.queries && Schedulable(a.queries[id])
    ensures a.queries[id].snapshotId.Some? ==>
              a.queries[id].snapshotId.value !in Schedule(a, order, admission).snapshots
  {
    hide Candidate;
  }

  /** Later passes accept nothing and bring no snapshot back. */
  ghost predicate AcceptsNothing(a: Access, a': Access) {
    && a'.snapshots.Keys <= a.snapshots.Keys
    && forall id :: id in a'.queries ==> id in a.queries && a'.queries[id].accepted == a.queries[id].accepted
  }

  lemma {:induction false} DisconnectAllAcceptsNothing(a: Access, conns: seq<Id>)
    ensures AcceptsNothing(a, DisconnectAll(a, conns))
  {
    if conns != [] { DisconnectAllAcceptsNothing(a, conns[..|conns| - 1]); }
  }

  lemma {:induction false} UnpublishAllAcceptsNothing(a: Access, ids: seq<Id>)
    ensures AcceptsNothing(a, UnpublishAll(a, ids))
  {
    if ids != [] { UnpublishAllAcceptsNothing(a, ids[..|ids| - 1]); }
  }

  lemma {:induction false} CleanAllAcceptsNothing(a: Access, ids: seq<Id>, releases: map<Id, Release>, now: Millis)
    ensures AcceptsNothing(a, CleanAll(a, ids, releases, now))
  {
    if ids != [] { CleanAllAcceptsNothing(a, ids[..|ids| - 1], releases, now); }
  }

  lemma AfterPassAcceptsNothing(a: Access, stale: seq<Id>, expired: seq<Id>, toClean: seq<Id>,
                                releases: map<Id, Release>, now: Millis)
    ensures AcceptsNothing(a, AfterPass(a, stale, expired, toClean, releases, now))
  {
    DisconnectAllAcceptsNothing(a, stale);
    var a5 := DisconnectAll(a, stale);
    UnpublishAllAcceptsNothing(a5, expired);
    var a6 := UnpublishAll(a5, expired);
    CleanAllAcceptsNothing(a6, Unread(a6.queries, toClean + expired), releases, now);
    hide DisconnectAll, UnpublishAll, CleanAll, Unread;
  }

  /** The snapshot a query was started from. */
  function StartedFrom(w: World, step: Step, id: Id): Option<Id> {
    if id in w.access.queries then w.access.queries[id].snapshotId
    else if step.Starts? && step.eid == id then Some(step.sid)
    else None
  }

  lemma MaintenanceDropsSnapshot(w: World, step: Step, id: Id)
    requires step.Maintains?
    requires var a' := Apply(w, step).access; id in a'.queries && a'.queries[id].accepted
    requires id in w.access.queries ==> !w.access.queries[id].accepted
    ensures id in w.access.queries
    ensures StartedFrom(w, step, id).Some? ==> StartedFrom(w, step, id).value !in Apply(w, step).access.snapshots
  {
    var Maintains(now, order, connOrder, e) := step;
    hide BeforePass, Schedule, Select, StaleConnections, TakeFirst, AfterPass, Candidate, Begin, Schedulable;
    var a0 := Begin(w.access, now);
    var a3 := BeforePass(w.access, now, order, e);
    BeforePassKeepsWaiting(w.access, now, order, e);
    var a4 := Schedule(a3, order, e.admission);
    MaintainInPasses(w.access, now, order, connOrder, e);
    AfterPassAcceptsNothing(a4, StaleConnections(a0.connections, connOrder, now),
                            Select(Expired, a0.queries, order, now),
                            TakeFirst(Select(ToClean, a0.queries, order, now), MAX_CLEANUP_PENDING), e.releases, now);
    ScheduleDropsSnapshot(a3, order, e.admission, id);
  }

  lemma StartDropsSnapshot(w: World, step: Step, id: Id)
    requires step.Starts? && step.eid !in w.access.queries
    requires var a' := Apply(w, step).access; id in a'.queries && a'.queries[id].accepted
    requires id in w.access.queries ==> !w.access.queries[id].accepted
    ensures StartedFrom(w, step, id).Some? ==> StartedFrom(w, step, id).value !in Apply(w, step).access.snapshots
  {
    hide Apply, Schedule;
    StartCases(w, step);
    if Startable(Prune(w.access, step.now), step)
       && Apply(w, step).access == Schedule(AfterAdmission(w, step), step.order, step.admission) {
      ScheduleDropsSnapshot(AfterAdmission(w, step), step.order, step.admission, id);
    }
  }

  lemma RequestDropsSnapshot(w: World, step: Step, id: Id)
    requires step.AsksStatus? || step.BeginsCancel?
    requires var a' := Apply(w, step).access; id in a'.queries && a'.queries[id].accepted
    requires id in w.access.queries ==> !w.access.queries[id].accepted
    ensures StartedFrom(w, step, id).Some? ==> StartedFrom(w, step, id).value !in Apply(w, step).access.snapshots
  {
    hide Schedule, Candidate;
    var p := Prune(w.access, step.now);
    var told := if step.AsksStatus? && step.answer.Some? then ApplyStatus(p, step.id, step.answer.value, step.now)
                else p;
    var before := if step.AsksStatus? then told else CancelUnaccepted(p, step.id);
    if Apply(w, step).access == Schedule(p, step.order, step.admission) {
      ScheduleDropsSnapshot(p, step.order, step.admission, id);
    } else if Apply(w, step).access == Schedule(before, step.order, step.admission) {
      ScheduleDropsSnapshot(before, step.order, step.admission, id);
    }
  }

  /** Whenever a step makes a query accepted, from whatever tables, the snapshot it was
      started from is deleted. */
  lemma AcceptanceDeletesTheSnapshot(w: World, step: Step, id: Id)
    requires Enabled(w, step)
    requires var a' := Apply(w, step).access; id in a'.queries && a'.queries[id].accepted
    requires id in w.access.queries ==> !w.access.queries[id].accepted
    ensures step.Starts? || step.AsksStatus? || step.BeginsCancel? || step.Maintains?
    ensures StartedFrom(w, step, id).Some? ==> StartedFrom(w, step, id).value !in Apply(w, step).access.snapshots
  {
    if step.Maintains? {
      MaintenanceDropsSnapshot(w, step, id);
    } else if step.Starts? {
      StartDropsSnapshot(w, step, id);
    } else if step.AsksStatus? || step.BeginsCancel? {
      RequestDropsSnapshot(w, step, id);
    } else {
      QuietStepAcceptsNothing(w, step, id);
    }
  }

  lemma QuietStepAcceptsNothing(w: World, step: Step, id: Id)
    requires !step.Starts? && !step.AsksStatus? && !step.BeginsCancel? && !step.Maintains?
    ensures var a' := Apply(w, step).access;
            id in a'.queries ==> id in w.access.queries && a'.queries[id].accepted == w.access.queries[id].accepted
  {
    hide Total, Candidate, FreedByCut, ChargedBytes, IsOutstanding;
    if step.Releases? || step.DesktopReleases? { ReleaseAcceptsNothing(w, step, id); }
    hide ReleaseResult, DesktopRelease;
  }

  lemma ReleaseAcceptsNothing(w: World, step: Step, id: Id)
    requires step.Releases? || step.DesktopReleases?
    ensures var a' := Apply(w, step).access;
            id in a'.queries ==> id in w.access.queries && a'.queries[id].accepted == w.access.queries[id].accepted
  {
  }
}
