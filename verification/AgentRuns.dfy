/** Runs of the agent query tables: every sequence of requests, maintenance
    passes, setting changes and engine progress, and what holds throughout. */
module AgentRuns {
  import opened Basics
  import opened AgentState
  import opened AgentSteps
  import opened AgentInvariant

  datatype Step =
    | EngineMoves(id: Id, execution: Execution)
    | SetLimits(limits: Limits)
    | Connects(conn: Id, profile: Id, now: Millis)
    | Beats(conn: Id, now: Millis)
    | Classifies(conn: Id, sid: Id, decision: Decision, now: Millis)
    | TakesSnapshot(sid: Id, now: Millis)
    | Starts(conn: Id, sid: Id, eid: Id, now: Millis, order: seq<Id>, admission: Admission)
    | AsksStatus(conn: Id, id: Id, granted: bool, answer: Option<Status>, now: Millis,
                 order: seq<Id>, admission: Admission)
    | BeginsCancel(conn: Id, id: Id, granted: bool, now: Millis, order: seq<Id>, admission: Admission)
    | DesktopCancels(id: Id)
    | Releases(conn: Id, id: Id, granted: bool, release: Release, now: Millis)
    | DesktopReleases(id: Id, release: Release, now: Millis)
    | BeginsPage(conn: Id, id: Id, granted: bool, now: Millis)
    | EndsPage(id: Id, ok: bool, now: Millis)
    | Maintains(now: Millis, order: seq<Id>, connOrder: seq<Id>, answers: Answers)
    | Disconnects(conn: Id)

  /** Identifiers are fresh, the engine reports truthfully, and a maintenance pass goes through
      the whole table. */
  ghost predicate Enabled(w: World, step: Step) {
    match step
    case EngineMoves(id, execution) => id in w.engine && Advances(w.engine[id], execution)
    case Classifies(conn, sid, decision, now) =>
      sid !in w.access.snapshots && forall id :: id in w.access.queries ==> !Holds(w.access, id, sid)
    case Starts(conn, sid, eid, now, order, admission) => eid !in w.access.queries && eid !in w.engine
    case AsksStatus(conn, id, granted, answer, now, order, admission) =>
      answer.Some? && id in w.engine && id in w.access.queries ==>
        Reports(w.engine[id], w.access.queries[id], answer.value)
    case Maintains(now, order, connOrder, answers) =>
      && Lists(order, w.access.queries) && Lists(connOrder, w.access.connections)
      && forall id :: id in answers.statuses && id in w.engine && id in w.access.queries ==>
           Reports(w.engine[id], w.access.queries[id], answers.statuses[id])
    case _ => true
  }

  /** The engine sees the submission, if any, of the scheduling pass that ends a step. */
  function Scheduled(w: World, before: Access, order: seq<Id>, admission: Admission): World {
    ScheduleWorld(With(w, before), order, admission)
  }

  ghost function Apply(w: World, step: Step): World {
    var a := w.access;
    match step
    case EngineMoves(id, execution) => w.(engine := w.engine[id := execution])
    case SetLimits(limits) => if ValidLimits(limits) then w.(limits := limits) else w
    case Connects(conn, profile, now) => With(w, Connect(a, conn, profile, now))
    case Beats(conn, now) => With(w, Heartbeat(a, conn, now))
    case Classifies(conn, sid, decision, now) => With(w, Classify(a, conn, sid, decision, now))
    case TakesSnapshot(sid, now) => With(w, TakeSnapshot(a, sid, now))
    case Starts(conn, sid, eid, now, order, admission) =>
      var p := Prune(a, now);
      if !Authenticated(p, conn) || !ValidLimits(w.limits)
         || StartCheck(p, w.limits, p.connections[conn].profile, conn, sid) != Admitted
      then With(w, p)
      else Scheduled(w, Admit(p, w.limits, p.connections[conn].profile, conn, sid, eid, now), order, admission)
    case AsksStatus(conn, id, granted, answer, now, order, admission) =>
      var p := Prune(a, now);
      if !Owns(p, conn, id) || !granted || (p.queries[id].accepted && answer.None?) then With(w, p)
      else if !p.queries[id].accepted then Scheduled(w, p, order, admission)
      else Scheduled(w, ApplyStatus(p, id, answer.value, now), order, admission)
    case BeginsCancel(conn, id, granted, now, order, admission) =>
      var p := Prune(a, now);
      if !Owns(p, conn, id) || !granted then With(w, p)
      else if !p.queries[id].accepted then Scheduled(w, CancelUnaccepted(p, id), order, admission)
      else With(w, RequestCancel(p, id))
    case DesktopCancels(id) => With(w, DesktopCancel(a, id))
    case Releases(conn, id, granted, release, now) => With(w, ReleaseResult(a, conn, id, granted, release, now))
    case DesktopReleases(id, release, now) => With(w, DesktopRelease(a, id, release, now))
    case BeginsPage(conn, id, granted, now) => With(w, BeginPage(a, conn, id, granted, now))
    case EndsPage(id, ok, now) => With(w, EndPage(a, id, ok, now))
    case Maintains(now, order, connOrder, answers) =>
      var submitted := Submit(With(w, BeforePass(a, now, order, answers)),
                              Candidate(BeforePass(a, now, order, answers), order), answers.admission);
      World(w.limits, Maintain(a, now, order, connOrder, answers), submitted)
    case Disconnects(conn) => With(w, Disconnect(a, conn))
  }

  /** The tables when a maintenance pass reaches the scheduler. */
  function BeforePass(a: Access, now: Millis, order: seq<Id>, e: Answers): Access {
    var qs := Begin(a, now).queries;
    RequestCancelAll(
      FailAll(
        PollAll(Begin(a, now), Select(ToPoll, qs, order, now), e.statuses, now),
        Select(QueueOverdue, qs, order, now)),
      Select(RunOverdue, qs, order, now))
  }

  // ---------------------------------------------------------------------
  // The passes of maintenance.
  // ---------------------------------------------------------------------

  /** Before and after a pass: no entry is new, results stay recorded, and no
      entry takes hold of a snapshot. */
  ghost predicate Carries(a: Access, a': Access) {
    && a'.queries.Keys <= a.queries.Keys
    && forall id :: id in a'.queries ==>
         && (a.queries[id].cacheBytes.Some? ==> a'.queries[id].cacheBytes.Some?)
         && (a'.queries[id].snapshotId.Some? ==> a'.queries[id].snapshotId == a.queries[id].snapshotId)
  }

  ghost predicate CarriesAcceptance(a: Access, a': Access) {
    Carries(a, a') && forall id :: id in a'.queries ==> a'.queries[id].accepted == a.queries[id].accepted
  }

  lemma {:induction false} PollAllCarries(a: Access, ids: seq<Id>, statuses: map<Id, Status>, now: Millis)
    ensures CarriesAcceptance(a, PollAll(a, ids, statuses, now))
  {
    if ids != [] { PollAllCarries(a, ids[..|ids| - 1], statuses, now); }
  }

  lemma {:induction false} PollAllKeepsInv(w: World, ids: seq<Id>, statuses: map<Id, Status>, now: Millis)
    requires Inv(w)
    requires forall id :: id in ids && id in w.access.queries ==> w.access.queries[id].accepted
    requires forall id :: id in statuses && id in w.engine && id in w.access.queries ==>
               Reports(w.engine[id], w.access.queries[id], statuses[id])
    ensures Inv(With(w, PollAll(w.access, ids, statuses, now)))
    ensures CarriesAcceptance(w.access, PollAll(w.access, ids, statuses, now))
  {
    PollAllCarries(w.access, ids, statuses, now);
    if ids != [] {
      var init, id := ids[..|ids| - 1], ids[|ids| - 1];
      PollAllKeepsInv(w, init, statuses, now);
      var w1 := With(w, PollAll(w.access, init, statuses, now));
      if id in statuses {
        if id in w1.access.queries { AcceptedIsInEngine(w1, id); }
        hide Inv, PollAll, ApplyStatus;
        ApplyStatusKeepsInv(w1, id, statuses[id], now);
        assert PollAll(w.access, ids, statuses, now) == ApplyStatus(w1.access, id, statuses[id], now) by {
          LastPoll(w.access, ids, statuses, now);
        }
      }
    }
  }

  lemma LastPoll(a: Access, ids: seq<Id>, statuses: map<Id, Status>, now: Millis)
    requires ids != [] && ids[|ids| - 1] in statuses
    ensures var id := ids[|ids| - 1];
            PollAll(a, ids, statuses, now)
            == ApplyStatus(PollAll(a, ids[..|ids| - 1], statuses, now), id, statuses[id], now)
  {
  }

  lemma AcceptedIsInEngine(w: World, id: Id)
    requires Inv(w) && id in w.access.queries
    ensures w.access.queries[id].accepted ==> id in w.engine
  {
    assert EntryOk(id, w.access.queries[id], w.engine);
  }

  lemma {:induction false} FailAllKeepsInv(w: World, ids: seq<Id>)
    requires Inv(w)
    requires forall id :: id in ids && id in w.access.queries ==> !w.access.queries[id].accepted
    ensures Inv(With(w, FailAll(w.access, ids)))
    ensures CarriesAcceptance(w.access, FailAll(w.access, ids))
  {
    hide Inv;
    if ids != [] {
      var init, id := ids[..|ids| - 1], ids[|ids| - 1];
      FailAllKeepsInv(w, init);
      FailQueuedKeepsInv(With(w, FailAll(w.access, init)), id, "agent.queue_deadline");
    }
  }

  lemma {:induction false} RequestCancelAllKeepsInv(w: World, ids: seq<Id>)
    requires Inv(w)
    ensures Inv(With(w, RequestCancelAll(w.access, ids)))
    ensures CarriesAcceptance(w.access, RequestCancelAll(w.access, ids))
  {
    hide Inv;
    if ids != [] {
      RequestCancelAllKeepsInv(w, ids[..|ids| - 1]);
      RequestCancelKeepsInv(With(w, RequestCancelAll(w.access, ids[..|ids| - 1])), ids[|ids| - 1]);
    }
  }

  lemma CarriesOn(a: Access, b: Access, c: Access)
    requires Carries(a, b) && Carries(b, c)
    ensures Carries(a, c)
  {
  }

  lemma CarriesSelf(a: Access)
    ensures Carries(a, a)
  {
  }

  lemma DisconnectCarries(a: Access, conn: Id)
    ensures Carries(a, Disconnect(a, conn))
  {
  }

  lemma {:induction false} DisconnectAllKeepsInv(w: World, conns: seq<Id>)
    requires Inv(w)
    ensures Inv(With(w, DisconnectAll(w.access, conns)))
    ensures Carries(w.access, DisconnectAll(w.access, conns))
  {
    hide Inv, Carries, Disconnect;
    if conns != [] {
      var init, conn := conns[..|conns| - 1], conns[|conns| - 1];
      DisconnectAllKeepsInv(w, init);
      var a1 := DisconnectAll(w.access, init);
      DisconnectKeepsInv(With(w, a1), conn);
      DisconnectCarries(a1, conn);
      CarriesOn(w.access, a1, Disconnect(a1, conn));
    } else {
      CarriesSelf(w.access);
    }
  }

  lemma {:induction false} UnpublishAllCarries(a: Access, ids: seq<Id>)
    ensures Carries(a, UnpublishAll(a, ids))
  {
    if ids != [] { UnpublishAllCarries(a, ids[..|ids| - 1]); }
  }

  lemma {:induction false} UnpublishAllKeepsInv(w: World, ids: seq<Id>)
    requires Inv(w)
    requires forall id :: id in ids && id in w.access.queries ==> w.access.queries[id].cacheBytes.Some?
    ensures Inv(With(w, UnpublishAll(w.access, ids)))
    ensures Carries(w.access, UnpublishAll(w.access, ids))
  {
    UnpublishAllCarries(w.access, ids);
    if ids != [] {
      var init := ids[..|ids| - 1];
      UnpublishAllKeepsInv(w, init);
      hide Inv, Unpublish;
      UnpublishKeepsInv(With(w, UnpublishAll(w.access, init)), ids[|ids| - 1]);
    }
  }

  lemma CleanOneKeepsInv(w: World, id: Id, release: Release, now: Millis)
    requires Inv(w) && (id in w.access.queries ==> w.access.queries[id].cacheBytes.Some?)
    ensures Inv(With(w, CleanOne(w.access, id, release, now)))
  {
    hide Inv;
    if release.ReleaseFails? {
      if id in w.access.queries {
        var attempts := SaturatingAdd(w.access.queries[id].cleanupAttempts, 1, U32_MAX);
        PostponeKeepsInv(w, id, attempts, now + CleanupRetryDelay(attempts));
      }
    } else {
      RemoveKeepsInv(w, id);
    }
  }

  lemma CleanOneCarries(a: Access, id: Id, release: Release, now: Millis)
    ensures Carries(a, CleanOne(a, id, release, now))
  {
  }

  lemma {:induction false} CleanAllKeepsInv(w: World, ids: seq<Id>, releases: map<Id, Release>, now: Millis)
    requires Inv(w)
    requires forall id :: id in ids && id in w.access.queries ==> w.access.queries[id].cacheBytes.Some?
    ensures Inv(With(w, CleanAll(w.access, ids, releases, now)))
    ensures Carries(w.access, CleanAll(w.access, ids, releases, now))
  {
    hide Inv, CleanOne;
    if ids != [] {
      var init, id := ids[..|ids| - 1], ids[|ids| - 1];
      CleanAllKeepsInv(w, init, releases, now);
      var a1, release := CleanAll(w.access, init, releases, now), if id in releases then releases[id] else ReleaseFails;
      CleanOneKeepsInv(With(w, a1), id, release, now);
      CleanOneCarries(a1, id, release, now);
    }
  }

  lemma BeginKeepsInv(w: World, now: Millis)
    requires Inv(w)
    ensures Inv(With(w, Begin(w.access, now)))
  {
    assert forall id, sid :: Holds(Begin(w.access, now), id, sid) <==> Holds(w.access, id, sid);
    SettlingKeepsInv(w, With(w, Begin(w.access, now)));
  }

  lemma BeforePassKeepsInv(w: World, now: Millis, order: seq<Id>, e: Answers)
    requires Inv(w)
    requires forall id :: id in e.statuses && id in w.engine && id in w.access.queries ==>
               Reports(w.engine[id], w.access.queries[id], e.statuses[id])
    ensures Inv(With(w, BeforePass(w.access, now, order, e)))
    ensures Carries(w.access, BeforePass(w.access, now, order, e))
  {
    var a0 := Begin(w.access, now);
    BeginKeepsInv(w, now);
    SelectedAre(ToPoll, a0.queries, order, now);
    SelectedAre(QueueOverdue, a0.queries, order, now);
    var a1 := PollAll(a0, Select(ToPoll, a0.queries, order, now), e.statuses, now);
    PollAllKeepsInv(With(w, a0), Select(ToPoll, a0.queries, order, now), e.statuses, now);
    var a2 := FailAll(a1, Select(QueueOverdue, a0.queries, order, now));
    FailAllKeepsInv(With(w, a1), Select(QueueOverdue, a0.queries, order, now));
    RequestCancelAllKeepsInv(With(w, a2), Select(RunOverdue, a0.queries, order, now));
  }

  lemma ScheduleCarries(a: Access, order: seq<Id>, admission: Admission)
    ensures Carries(a, Schedule(a, order, admission))
  {
  }

  /** What the selections made at the start of a pass say about their entries. */
  lemma SelectionsHaveResults(w: World, order: seq<Id>, now: Millis)
    requires Inv(w)
    ensures forall id :: id in Select(Expired, w.access.queries, order, now) ==>
              id in w.access.queries && w.access.queries[id].cacheBytes.Some?
    ensures forall id :: id in TakeFirst(Select(ToClean, w.access.queries, order, now), MAX_CLEANUP_PENDING) ==>
              id in w.access.queries && w.access.queries[id].cacheBytes.Some?
  {
    var clean := Select(ToClean, w.access.queries, order, now);
    SelectedAre(Expired, w.access.queries, order, now);
    SelectedAre(ToClean, w.access.queries, order, now);
    assert forall id :: id in TakeFirst(clean, MAX_CLEANUP_PENDING) ==> id in clean;
  }

  /** The passes that follow the scheduler. */
  ghost function AfterPass(a: Access, stale: seq<Id>, expired: seq<Id>, toClean: seq<Id>,
                           releases: map<Id, Release>, now: Millis): Access {
    var a6 := UnpublishAll(DisconnectAll(a, stale), expired);
    CleanAll(a6, Unread(a6.queries, toClean + expired), releases, now)
  }

  lemma AfterPassKeepsInv(w: World, stale: seq<Id>, expired: seq<Id>, toClean: seq<Id>,
                          releases: map<Id, Release>, now: Millis)
    requires Inv(w)
    requires forall id :: (id in expired || id in toClean) && id in w.access.queries ==>
               w.access.queries[id].cacheBytes.Some?
    ensures Inv(With(w, AfterPass(w.access, stale, expired, toClean, releases, now)))
    ensures Carries(w.access, AfterPass(w.access, stale, expired, toClean, releases, now))
  {
    hide Inv, UnpublishAll, DisconnectAll, CleanAll, Unread;
    DisconnectAllKeepsInv(w, stale);
    var w5 := With(w, DisconnectAll(w.access, stale));
    UnpublishAllKeepsInv(w5, expired);
    var w6 := With(w5, UnpublishAll(w5.access, expired));
    var ids := Unread(w6.access.queries, toClean + expired);
    UnreadAre(w6.access.queries, toClean + expired);
    CleanAllKeepsInv(w6, ids, releases, now);
    var a7 := CleanAll(w6.access, ids, releases, now);
    CarriesOn(w.access, w5.access, w6.access);
    CarriesOn(w.access, w6.access, a7);
  }

  lemma MaintainKeepsInv(w: World, now: Millis, order: seq<Id>, connOrder: seq<Id>, e: Answers)
    requires Inv(w) && Enabled(w, Maintains(now, order, connOrder, e))
    ensures Inv(Apply(w, Maintains(now, order, connOrder, e)))
    ensures Carries(w.access, Apply(w, Maintains(now, order, connOrder, e)).access)
  {
    hide Inv, BeforePass, Schedule, Select, StaleConnections, TakeFirst, AfterPass, Candidate;
    var a0 := Begin(w.access, now);
    BeginKeepsInv(w, now);
    SelectionsHaveResults(With(w, a0), order, now);
    var stale := StaleConnections(a0.connections, connOrder, now);
    var expired := Select(Expired, a0.queries, order, now);
    var toClean := TakeFirst(Select(ToClean, a0.queries, order, now), MAX_CLEANUP_PENDING);
    var a3 := BeforePass(w.access, now, order, e);
    BeforePassKeepsInv(w, now, order, e);
    var w4 := Scheduled(w, a3, order, e.admission);
    ScheduleKeepsInv(With(w, a3), order, e.admission);
    ScheduleCarries(a3, order, e.admission);
    CarriesOn(w.access, a3, w4.access);
    AfterPassKeepsInv(w4, stale, expired, toClean, e.releases, now);
    CarriesOn(w.access, w4.access, AfterPass(w4.access, stale, expired, toClean, e.releases, now));
    MaintainInPasses(w.access, now, order, connOrder, e);
  }

  lemma MaintainInPasses(a: Access, now: Millis, order: seq<Id>, connOrder: seq<Id>, e: Answers)
    ensures var a0 := Begin(a, now);
            Maintain(a, now, order, connOrder, e)
            == AfterPass(Schedule(BeforePass(a, now, order, e), order, e.admission),
                         StaleConnections(a0.connections, connOrder, now),
                         Select(Expired, a0.queries, order, now),
                         TakeFirst(Select(ToClean, a0.queries, order, now), MAX_CLEANUP_PENDING),
                         e.releases, now)
  {
  }

  // ---------------------------------------------------------------------
  // Every step keeps the invariant.
  // ---------------------------------------------------------------------

  lemma EngineMoveKeepsInv(w: World, id: Id, execution: Execution)
    requires Inv(w) && Enabled(w, EngineMoves(id, execution))
    ensures Inv(Apply(w, EngineMoves(id, execution)))
  {
    var w' := Apply(w, EngineMoves(id, execution));
    forall i | i in w'.access.queries ensures EntryOk(i, w'.access.queries[i], w'.engine) {
      assert EntryOk(i, w.access.queries[i], w.engine);
    }
  }

  lemma ReleaseKeepsInv(w: World, id: Id, release: Release, attempts: nat, now: Millis)
    requires Inv(w) && id in w.access.queries && w.access.queries[id].cacheBytes.Some?
    ensures var u := Unpublish(w.access, id);
            && Inv(With(w, u))
            && Inv(With(w, Postpone(u, id, attempts, now)))
            && Inv(With(w, RemoveQuery(u, id)))
  {
    UnpublishKeepsInv(w, id);
    PostponeKeepsInv(With(w, Unpublish(w.access, id)), id, attempts, now);
    RemoveKeepsInv(With(w, Unpublish(w.access, id)), id);
  }

  lemma SnapshotsShrinkKeepsInv(w: World, a': Access)
    requires Inv(w) && a'.queries == w.access.queries
    requires forall sid :: sid in a'.snapshots ==>
               sid in w.access.snapshots && a'.snapshots[sid].reserved == w.access.snapshots[sid].reserved
    ensures Inv(With(w, a'))
  {
    assert forall id, sid :: Holds(a', id, sid) <==> Holds(w.access, id, sid);
    SettlingKeepsInv(w, With(w, a'));
  }

  lemma ClassifyKeepsInv(w: World, conn: Id, sid: Id, decision: Decision, now: Millis)
    requires Inv(w) && Enabled(w, Classifies(conn, sid, decision, now))
    ensures Inv(Apply(w, Classifies(conn, sid, decision, now)))
  {
    PruneKeepsInv(w, now);
    var p, a' := Prune(w.access, now), Classify(w.access, conn, sid, decision, now);
    if a' != p {
      assert forall id, s :: Holds(a', id, s) <==> Holds(w.access, id, s);
      forall s | s in a'.snapshots && a'.snapshots[s].reserved
        ensures exists id :: Holds(a', id, s)
      {
        var id :| Holds(p, id, s);
        assert Holds(a', id, s);
      }
      SettlingKeepsInv(With(w, p), With(w, a'));
    }
  }

  lemma LimitsKeepInv(w: World, limits: Limits)
    requires Inv(w)
    ensures Inv(Apply(w, SetLimits(limits)))
  {
  }

  lemma StepKeepsInv(w: World, step: Step)
    requires Inv(w) && Enabled(w, step)
    ensures Inv(Apply(w, step))
  {
    hide Inv;
    var a := w.access;
    match step
    case EngineMoves(id, execution) => EngineMoveKeepsInv(w, id, execution);
    case SetLimits(limits) => LimitsKeepInv(w, limits);
    case Connects(conn, profile, now) => SnapshotsShrinkKeepsInv(w, Connect(a, conn, profile, now));
    case Beats(conn, now) => SnapshotsShrinkKeepsInv(w, Heartbeat(a, conn, now));
    case Classifies(conn, sid, decision, now) => ClassifyKeepsInv(w, conn, sid, decision, now);
    case TakesSnapshot(sid, now) => SnapshotsShrinkKeepsInv(w, TakeSnapshot(a, sid, now));
    case Starts(conn, sid, eid, now, order, admission) => StartKeepsInv(w, step);
    case AsksStatus(conn, id, granted, answer, now, order, admission) => StatusKeepsInv(w, step);
    case BeginsCancel(conn, id, granted, now, order, admission) => BeginCancelKeepsInv(w, step);
    case Maintains(now, order, connOrder, answers) => MaintainKeepsInv(w, now, order, connOrder, answers);
    case Disconnects(conn) => DisconnectKeepsInv(w, conn);
    case DesktopCancels(id) => DesktopCancelKeepsInv(w, id);
    case Releases(conn, id, granted, release, now) => ReleaseResultKeepsInv(w, conn, id, granted, release, now);
    case DesktopReleases(id, release, now) => DesktopReleaseKeepsInv(w, id, release, now);
    case BeginsPage(conn, id, granted, now) => PageKeepsInv(w, step);
    case EndsPage(id, ok, now) => PageKeepsInv(w, step);
  }

  lemma ResultsAreRecorded(w: World, id: Id)
    requires Inv(w) && id in w.access.queries && w.access.queries[id].resultId.Some?
    ensures w.access.queries[id].cacheBytes.Some?
  {
  }

  lemma DesktopCancelKeepsInv(w: World, id: Id)
    requires Inv(w)
    ensures Inv(With(w, DesktopCancel(w.access, id)))
  {
    hide Inv, CancelUnaccepted, RequestCancel;
    if id in w.access.queries && !w.access.queries[id].accepted { CancelUnacceptedKeepsInv(w, id); }
    RequestCancelKeepsInv(w, id);
  }

  lemma ReleaseResultKeepsInv(w: World, conn: Id, id: Id, granted: bool, release: Release, now: Millis)
    requires Inv(w)
    ensures Inv(With(w, ReleaseResult(w.access, conn, id, granted, release, now)))
  {
    hide Inv, Unpublish, Postpone, RemoveQuery;
    PruneKeepsInv(w, now);
    if id in w.access.queries && w.access.queries[id].resultId.Some? {
      ResultsAreRecorded(w, id);
      ReleaseKeepsInv(With(w, Prune(w.access, now)), id, release, 1, now + CLEANUP_RETRY_BASE);
    }
  }

  lemma DesktopReleaseKeepsInv(w: World, id: Id, release: Release, now: Millis)
    requires Inv(w)
    ensures Inv(With(w, DesktopRelease(w.access, id, release, now)))
  {
    if id in w.access.queries && w.access.queries[id].resultId.Some? {
      ResultsAreRecorded(w, id);
      hide Inv, Postpone, RemoveQuery;
      ReleaseKeepsInv(w, id, release, SaturatingAdd(w.access.queries[id].cleanupAttempts, 1, U32_MAX),
                      now + CLEANUP_RETRY_BASE);
    }
  }

  lemma ReadersKeepInv(w: World, id: Id, readers: nat, accessed: Option<Millis>)
    requires Inv(w) && id in w.access.queries
    ensures Inv(With(w, SetQuery(w.access, id, w.access.queries[id].(readers := readers, lastAccessedAt := accessed))))
  {
    RewriteKeepsInv(w, id, w.access.queries[id].(readers := readers, lastAccessedAt := accessed));
  }

  lemma PageKeepsInv(w: World, step: Step)
    requires Inv(w) && (step.BeginsPage? || step.EndsPage?)
    ensures Inv(Apply(w, step))
  {
    hide Inv;
    var a := w.access;
    if step.id in a.queries {
      var q := a.queries[step.id];
      match step
      case BeginsPage(conn, id, granted, now) =>
        PruneKeepsInv(w, now);
        ReadersKeepInv(With(w, Prune(a, now)), id, SaturatingAdd(q.readers, 1, U32_MAX), q.lastAccessedAt);
      case EndsPage(id, ok, now) =>
        ReadersKeepInv(w, id, if q.readers == 0 then 0 else q.readers - 1,
                       if ok then Some(now) else q.lastAccessedAt);
    } else if step.BeginsPage? {
      PruneKeepsInv(w, step.now);
    }
  }

  lemma StartKeepsInv(w: World, step: Step)
    requires Inv(w) && step.Starts? && Enabled(w, step)
    ensures Inv(Apply(w, step))
  {
    var Starts(conn, sid, eid, now, order, admission) := step;
    PruneKeepsInv(w, now);
    var p := Prune(w.access, now);
    if Authenticated(p, conn) && StartCheck(p, w.limits, p.connections[conn].profile, conn, sid) == Admitted {
      var profile := p.connections[conn].profile;
      AdmitKeepsInv(With(w, p), profile, conn, sid, eid, now);
      ScheduleKeepsInv(With(w, Admit(p, w.limits, profile, conn, sid, eid, now)), order, admission);
    }
  }

  lemma StatusKeepsInv(w: World, step: Step)
    requires Inv(w) && step.AsksStatus? && Enabled(w, step)
    ensures Inv(Apply(w, step))
  {
    var AsksStatus(conn, id, granted, answer, now, order, admission) := step;
    PruneKeepsInv(w, now);
    var p := Prune(w.access, now);
    ScheduleKeepsInv(With(w, p), order, admission);
    if Owns(p, conn, id) && p.queries[id].accepted && answer.Some? {
      AcceptedIsInEngine(With(w, p), id);
      hide Inv, Candidate;
      ApplyStatusKeepsInv(With(w, p), id, answer.value, now);
      ScheduleKeepsInv(With(w, ApplyStatus(p, id, answer.value, now)), order, admission);
    }
  }

  lemma BeginCancelKeepsInv(w: World, step: Step)
    requires Inv(w) && step.BeginsCancel? && Enabled(w, step)
    ensures Inv(Apply(w, step))
  {
    var BeginsCancel(conn, id, granted, now, order, admission) := step;
    PruneKeepsInv(w, now);
    var p := Prune(w.access, now);
    RequestCancelKeepsInv(With(w, p), id);
    if Owns(p, conn, id) && !p.queries[id].accepted {
      CancelUnacceptedKeepsInv(With(w, p), id);
      ScheduleKeepsInv(With(w, CancelUnaccepted(p, id)), order, admission);
    }
  }

  // ---------------------------------------------------------------------
  // Whole runs.
  // ---------------------------------------------------------------------

  ghost predicate Run(w: World, steps: seq<Step>, w': World)
    decreases |steps|
  {
    if steps == [] then w' == w
    else Enabled(w, steps[0]) && Run(Apply(w, steps[0]), steps[1..], w')
  }

  const INITIAL_LIMITS := Limits(5_000, 32 * MIB, 8, 4, 128 * MIB, 512 * MIB, 60, 60)
  const INITIAL_WORLD := World(INITIAL_LIMITS, EMPTY_ACCESS, map[])

  lemma {:induction false} RunsKeepInv(w: World, steps: seq<Step>, w': World)
    requires Inv(w) && Run(w, steps, w')
    ensures Inv(w')
    decreases |steps|
  {
    if steps != [] {
      StepKeepsInv(w, steps[0]);
      RunsKeepInv(Apply(w, steps[0]), steps[1..], w');
    }
  }

  lemma ReachableStatesAreSafe(steps: seq<Step>, w: World)
    requires Run(INITIAL_WORLD, steps, w)
    ensures Inv(w)
  {
    var qs := EMPTY_ACCESS.queries;
    assert forall m :: Total(m, qs) == 0;
    RunsKeepInv(INITIAL_WORLD, steps, w);
  }

  /** Byte conservation: whatever is started, reported, cancelled, released,
      expired, maintained, disconnected or reconfigured. */
  lemma ChargedBytesStayWithinCeilings(steps: seq<Step>, w: World, profile: Id)
    requires Run(INITIAL_WORLD, steps, w)
    ensures Total(BytesOf(profile), w.access.queries) <= 536_870_912
    ensures Total(Bytes, w.access.queries) <= 1_073_741_824
  {
    ReachableStatesAreSafe(steps, w);
  }

  lemma LiveEntriesAreBounded(steps: seq<Step>, w: World, profile: Id)
    requires Run(INITIAL_WORLD, steps, w)
    ensures Total(Live, w.access.queries) <= 31 + 15 + 16
    ensures Total(Outstanding, w.access.queries) <= 16
    ensures Total(OutstandingOf(profile), w.access.queries) <= 8
  {
    ReachableStatesAreSafe(steps, w);
  }

  /** With claim and finish in one step, no two accepted queries are unfinished. */
  lemma AtMostOneQueryInTheEngine(steps: seq<Step>, w: World, i: Id, j: Id)
    requires Run(INITIAL_WORLD, steps, w)
    requires i in w.access.queries && InFlight(w.access.queries[i])
    requires j in w.access.queries && InFlight(w.access.queries[j])
    ensures i == j
  {
    ReachableStatesAreSafe(steps, w);
    if i != j { TwoBusy(w.access.queries, i, j); }
  }

  /** A reserved snapshot has exactly one holder, an unaccepted queued query. */
  lemma ReservedSnapshotHasOneHolder(steps: seq<Step>, w: World, sid: Id) returns (holder: Id)
    requires Run(INITIAL_WORLD, steps, w)
    requires sid in w.access.snapshots && w.access.snapshots[sid].reserved
    ensures Holds(w.access, holder, sid)
    ensures w.access.queries[holder].state.Queued? && !w.access.queries[holder].accepted
    ensures forall id :: Holds(w.access, id, sid) ==> id == holder
  {
    ReachableStatesAreSafe(steps, w);
    holder :| Holds(w.access, holder, sid);
  }

  lemma ReleaseCarries(a: Access, conn: Id, id: Id, granted: bool, release: Release, now: Millis)
    ensures Carries(a, ReleaseResult(a, conn, id, granted, release, now))
  {
  }

  lemma DesktopReleaseCarries(a: Access, id: Id, release: Release, now: Millis)
    ensures Carries(a, DesktopRelease(a, id, release, now))
  {
    hide Carries;
    var a' := DesktopRelease(a, id, release, now);
    if id !in a.queries || a' == a {
      SameQueriesCarry(a, a');
    } else if id in a'.queries {
      TableStepCarries(a, a', id);
    } else {
      FewerQueriesCarry(a, a', id);
    }
  }

  lemma FewerQueriesCarry(a: Access, a': Access, id: Id)
    requires a'.queries == a.queries - {id}
    ensures Carries(a, a')
  {
  }

  lemma TableStepCarries(a: Access, a': Access, id: Id)
    requires id in a.queries && id in a'.queries && a'.queries == a.queries[id := a'.queries[id]]
    requires a.queries[id].cacheBytes.Some? ==> a'.queries[id].cacheBytes.Some?
    requires a'.queries[id].snapshotId.None? || a'.queries[id].snapshotId == a.queries[id].snapshotId
    ensures Carries(a, a')
  {
  }

  lemma SameQueriesCarry(a: Access, a': Access)
    requires a'.queries == a.queries
    ensures Carries(a, a')
  {
  }

  /** Steps on one entry of the table, or on none. */
  lemma EntryStepCarries(w: World, step: Step)
    requires step.DesktopCancels? || step.BeginsPage? || step.EndsPage?
    ensures Carries(w.access, Apply(w, step).access)
  {
    hide Carries;
    var a, a' := w.access, Apply(w, step).access;
    if step.id in a.queries { TableStepCarries(a, a', step.id); } else { SameQueriesCarry(a, a'); }
  }

  lemma QuietStepCarries(w: World, step: Step)
    requires !step.Starts? && !step.AsksStatus? && !step.BeginsCancel? && !step.Maintains?
    ensures Carries(w.access, Apply(w, step).access)
  {
    hide ReleaseResult, DesktopRelease, Disconnect, Carries;
    var a, a' := w.access, Apply(w, step).access;
    if step.DesktopCancels? || step.BeginsPage? || step.EndsPage? {
      EntryStepCarries(w, step);
    } else {
      hide DesktopCancel, BeginPage, EndPage;
      match step
      case Releases(conn, id, granted, release, now) => ReleaseCarries(a, conn, id, granted, release, now);
      case DesktopReleases(id, release, now) => DesktopReleaseCarries(a, id, release, now);
      case Disconnects(conn) => DisconnectCarries(a, conn);
      case _ => SameQueriesCarry(a, a');
    }
  }

  lemma CancelStepCarries(w: World, step: Step)
    requires step.BeginsCancel?
    ensures Carries(w.access, Apply(w, step).access)
  {
    hide Schedule, Candidate, Carries;
    var a, p := w.access, Prune(w.access, step.now);
    SameQueriesCarry(a, p);
    if step.id in a.queries {
      var c := CancelUnaccepted(p, step.id);
      TableStepCarries(a, c, step.id);
      ScheduleCarries(c, step.order, step.admission);
      CarriesOn(a, c, Schedule(c, step.order, step.admission));
      if Apply(w, step).access == RequestCancel(p, step.id) { TableStepCarries(a, RequestCancel(p, step.id), step.id); }
    }
  }

  lemma StatusStepCarries(w: World, step: Step)
    requires step.AsksStatus?
    ensures Carries(w.access, Apply(w, step).access)
  {
    hide Schedule, Candidate, Carries;
    var a, p := w.access, Prune(w.access, step.now);
    SameQueriesCarry(a, p);
    ScheduleCarries(p, step.order, step.admission);
    CarriesOn(a, p, Schedule(p, step.order, step.admission));
    if step.answer.Some? && step.id in a.queries {
      var s := ApplyStatus(p, step.id, step.answer.value, step.now);
      TableStepCarries(a, s, step.id);
      ScheduleCarries(s, step.order, step.admission);
      CarriesOn(a, s, Schedule(s, step.order, step.admission));
    }
  }

  /** Only an admission makes a query hold a snapshot, and only a free one. */
  lemma StepAddsNoHolder(w: World, step: Step, id: Id, sid: Id)
    requires Inv(w) && Enabled(w, step)
    requires Holds(Apply(w, step).access, id, sid) && !Holds(w.access, id, sid)
    ensures step.Starts? && step.eid == id && step.sid == sid
    ensures sid in w.access.snapshots && !w.access.snapshots[sid].reserved
  {
    hide Inv, Schedule, Candidate, Maintain;
    if step.Starts? {
      var p := Prune(w.access, step.now);
      if Authenticated(p, step.conn)
         && StartCheck(p, w.limits, p.connections[step.conn].profile, step.conn, step.sid) == Admitted {
        ScheduleCarries(Admit(p, w.limits, p.connections[step.conn].profile, step.conn, step.sid, step.eid, step.now),
                        step.order, step.admission);
      }
    } else if step.AsksStatus? {
      StatusStepCarries(w, step);
    } else if step.BeginsCancel? {
      CancelStepCarries(w, step);
    } else if step.Maintains? {
      MaintainKeepsInv(w, step.now, step.order, step.connOrder, step.answers);
    } else {
      QuietStepCarries(w, step);
    }
  }

  /** Whichever step makes a query let go of its snapshot leaves that snapshot
      deleted or free again. */
  lemma LeavingTheQueueFreesTheSnapshot(steps: seq<Step>, w: World, step: Step, id: Id, sid: Id)
    requires Run(INITIAL_WORLD, steps, w) && Enabled(w, step)
    requires Holds(w.access, id, sid) && !Holds(Apply(w, step).access, id, sid)
    ensures sid in Apply(w, step).access.snapshots ==> !Apply(w, step).access.snapshots[sid].reserved
  {
    ReachableStatesAreSafe(steps, w);
    StepKeepsInv(w, step);
    var w' := Apply(w, step);
    if sid in w'.access.snapshots && w'.access.snapshots[sid].reserved {
      var other :| Holds(w'.access, other, sid);
      if !Holds(w.access, other, sid) { StepAddsNoHolder(w, step, other, sid); }
    }
  }
}
