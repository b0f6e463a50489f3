/** The agent access manager's tables, updated in place. Every method is proved
    to do exactly what its counterpart in AgentSteps says. */
module AgentAccess {
  import opened Basics
  import opened AgentState
  import opened AgentSteps

  datatype StartResult = Unauthenticated | InvalidLimits | Refused(why: StartOutcome) | Started(view: ExecutionState)

  /** A scheduling pass leaves alone whatever does not wait to be scheduled. */
  lemma ScheduleSparesOthers(a: Access, order: seq<Id>, admission: Admission, id: Id)
    requires id in a.queries && !Schedulable(a.queries[id])
    ensures Schedule(a, order, admission).connections == a.connections
    ensures id in Schedule(a, order, admission).queries && Schedule(a, order, admission).queries[id] == a.queries[id]
  {
    hide Candidate;
  }

  class AccessTables {
    var lastMaintenance: Option<Millis>
    var lastScheduled: Option<Id>
    var connections: map<Id, Connection>
    var snapshots: map<Id, Snapshot>
    var queries: map<Id, Query>

    function State(): Access
      reads this
    {
      Access(lastMaintenance, lastScheduled, connections, snapshots, queries)
    }

    constructor ()
      ensures State() == EMPTY_ACCESS
    {
      lastMaintenance, lastScheduled := None, None;
      connections, snapshots, queries := map[], map[], map[];
    }

    method PruneTables(now: Millis)
      modifies this
      ensures State() == Prune(old(State()), now)
      ensures queries == old(queries)
    {
      connections := map c | c in connections
                       && (connections[c].authenticated
                           || Elapsed(now, connections[c].createdAt) < CHALLENGE_LIFETIME)
                       :: connections[c];
      snapshots := map s | s in snapshots
                     && Elapsed(now, snapshots[s].createdAt) < SQL_SNAPSHOT_LIFETIME
                     :: snapshots[s];
    }

    method UnreserveSnapshot(sid: Option<Id>)
      modifies this`snapshots
      ensures snapshots == Unreserve(old(snapshots), sid)
    {
      if sid.Some? && sid.value in snapshots {
        snapshots := snapshots[sid.value := snapshots[sid.value].(reserved := false)];
      }
    }

    method FailQueuedQuery(id: Id, code: string)
      modifies this
      ensures State() == FailQueued(old(State()), id, code)
      ensures queries.Keys == old(queries).Keys
    {
      if id in queries {
        var held := queries[id].snapshotId;
        queries := queries[id := queries[id].(state := Failed, claimed := false,
                                              error := Some(code), snapshotId := None)];
        UnreserveSnapshot(held);
      }
    }

    method CancelInTable(id: Id)
      modifies this
      ensures State() == CancelUnaccepted(old(State()), id)
      ensures queries.Keys == old(queries).Keys
    {
      if id in queries {
        var held := queries[id].snapshotId;
        queries := queries[id := queries[id].(cancelRequested := true, state := Cancelled, snapshotId := None)];
        UnreserveSnapshot(held);
      }
    }

    method MarkCancelRequested(id: Id)
      modifies this
      ensures State() == RequestCancel(old(State()), id)
      ensures queries.Keys == old(queries).Keys
    {
      if id in queries {
        queries := queries[id := queries[id].(cancelRequested := true)];
      }
    }

    method ApplyEngineStatus(id: Id, status: Status, now: Millis)
      modifies this
      ensures State() == ApplyStatus(old(State()), id, status, now)
      ensures queries.Keys == old(queries).Keys
    {
      if id !in queries { return; }
      var q := queries[id];
      q := q.(state := status.state);
      if status.state.Running? && q.runningAt.None? {
        q := q.(runningAt := Some(now));
      }
      if status.bytes.Some? {
        q := q.(resultId := Some(id), cacheBytes := status.bytes);
        if q.publishedAt.None? { q := q.(publishedAt := Some(now)); }
        if q.lastAccessedAt.None? { q := q.(lastAccessedAt := Some(now)); }
      }
      queries := queries[id := q];
    }

    // -------------------------------------------------------------------
    // Scheduling.
    // -------------------------------------------------------------------

    method Busy(order: seq<Id>) returns (busy: bool)
      requires Lists(order, queries)
      ensures busy == EngineBusy(queries)
    {
      busy := false;
      for i := 0 to |order|
        invariant !busy ==> forall j :: 0 <= j < i ==> !InFlight(queries[order[j]])
        invariant busy ==> EngineBusy(queries)
      {
        if InFlight(queries[order[i]]) { busy := true; }
      }
      assert forall id :: id in queries ==> id in order;
    }

    method WaitingProfiles(order: seq<Id>) returns (profiles: seq<Id>)
      ensures profiles == SortedDistinct(SchedulableProfiles(queries, order))
    {
      var all := [];
      for i := 0 to |order|
        invariant all == SchedulableProfiles(queries, order[..i])
      {
        assert order[..i + 1][..i] == order[..i];
        if order[i] in queries && Schedulable(queries[order[i]]) {
          all := all + [queries[order[i]].profile];
        }
      }
      assert order[..|order|] == order;
      profiles := [];
      for i := 0 to |all|
        invariant profiles == SortedDistinct(all[..i])
      {
        assert all[..i + 1][..i] == all[..i];
        profiles := InsertDistinct(profiles, all[i]);
      }
      assert all[..|all|] == all;
    }

    method PickProfile(sorted: seq<Id>) returns (pick: Option<Id>)
      ensures pick == if sorted == [] then None
                      else if lastScheduled.Some? && FirstAfter(sorted, lastScheduled.value).Some?
                      then FirstAfter(sorted, lastScheduled.value)
                      else Some(sorted[0])
    {
      if sorted == [] { return None; }
      if lastScheduled.Some? {
        for i := 0 to |sorted|
          invariant FirstAfter(sorted, lastScheduled.value) == FirstAfter(sorted[i..], lastScheduled.value)
        {
          assert sorted[i..][1..] == sorted[i + 1..];
          if Before(lastScheduled.value, sorted[i]) { return Some(sorted[i]); }
        }
      }
      return Some(sorted[0]);
    }

    method EarliestQuery(order: seq<Id>, profile: Id) returns (pick: Option<Id>)
      ensures pick == Earliest(queries, order, profile)
    {
      pick := None;
      for i := 0 to |order|
        invariant pick == Earliest(queries, order[..i], profile)
      {
        assert order[..i + 1][..i] == order[..i];
        var id := order[i];
        if id in queries && queries[id].profile == profile && Schedulable(queries[id])
           && (pick.None? || queries[id].admittedAt < queries[pick.value].admittedAt) {
          pick := Some(id);
        }
      }
      assert order[..|order|] == order;
    }

    method ClaimNext(order: seq<Id>) returns (pick: Option<Id>)
      requires Lists(order, queries)
      modifies this
      ensures pick == Candidate(old(State()), order)
      ensures State() == Claim(old(State()), order)
      ensures queries.Keys == old(queries).Keys
    {
      var busy := Busy(order);
      if busy { return None; }
      var profiles := WaitingProfiles(order);
      var profile := PickProfile(profiles);
      if profile.None? { return None; }
      pick := EarliestQuery(order, profile.value);
      assert pick == Candidate(old(State()), order);
      WaitingProfileHasQuery(State(), order);
      if pick.Some? {
        queries := queries[pick.value := queries[pick.value].(claimed := true)];
      }
      lastScheduled := Some(profile.value);
    }

    method FinishQuery(id: Id, admission: Admission)
      modifies this
      ensures State() == Finish(old(State()), id, admission)
      ensures queries.Keys == old(queries).Keys
    {
      match admission
      case EngineAccepts =>
        if id in queries {
          var held := queries[id].snapshotId;
          queries := queries[id := queries[id].(accepted := true, claimed := false, snapshotId := None)];
          if held.Some? { snapshots := snapshots - {held.value}; }
        }
      case SnapshotStale => FailQueuedQuery(id, "agent.snapshot_stale");
      case EngineRejects => FailQueuedQuery(id, "agent.engine_admission");
    }

    method ScheduleNextQuery(order: seq<Id>, admission: Admission)
      requires Lists(order, queries)
      modifies this
      ensures State() == Schedule(old(State()), order, admission)
      ensures queries.Keys == old(queries).Keys
    {
      var pick := ClaimNext(order);
      if pick.Some? { FinishQuery(pick.value, admission); }
    }

    // -------------------------------------------------------------------
    // Requests.
    // -------------------------------------------------------------------

    method CheckStart(limits: Limits, profile: Id, conn: Id, sid: Id) returns (outcome: StartOutcome)
      ensures outcome == StartCheck(State(), limits, profile, conn, sid)
    {
      var retained := Metered(RetainedOf(profile), queries);
      var profileBytes := Metered(BytesOf(profile), queries);
      var globalBytes := Metered(Bytes, queries);
      var cleanup := Metered(CleanupPending, queries);
      if cleanup >= MAX_CLEANUP_PENDING { return CleanupBacklog; }
      if SaturatingAdd(profileBytes, limits.maximumResultBytes, U64_MAX) > limits.profileCacheBytes
         || SaturatingAdd(globalBytes, limits.maximumResultBytes, U64_MAX) > limits.globalCacheBytes {
        return CacheLimit;
      }
      var globalRetained := Metered(Retained, queries);
      if retained >= limits.retainedResultLimit || globalRetained >= MAX_AGENT_RESULTS_GLOBAL {
        return ResultLimit;
      }
      var outstanding := Metered(OutstandingOf(profile), queries);
      var globalOutstanding := Metered(Outstanding, queries);
      if outstanding >= limits.outstandingQueryLimit || globalOutstanding >= MAX_AGENT_QUERIES_GLOBAL {
        return QueryLimit;
      }
      if sid !in snapshots { return SnapshotMissing; }
      if snapshots[sid].connection != conn || snapshots[sid].reserved { return SnapshotOwnerMismatch; }
      if !snapshots[sid].decision.SafeRead? { return SafeReadRequired; }
      return Admitted;
    }

    /** `order` is the iteration order of the table with the new query in it. */
    method StartQuery(limits: Limits, conn: Id, sid: Id, eid: Id, now: Millis,
                      order: seq<Id>, admission: Admission) returns (result: StartResult)
      requires eid !in queries && Lists(order, queries[eid := NewQuery("", conn, sid, limits, now)])
      modifies this
      ensures State() == Start(old(State()), limits, conn, sid, eid, now, order, admission)
      ensures var p := Prune(old(State()), now);
              && (result.Unauthenticated? <==> !Authenticated(p, conn))
              && (result.InvalidLimits? <==> Authenticated(p, conn) && !ValidLimits(limits))
              && (result.Refused? ==>
                    && Authenticated(p, conn) && ValidLimits(limits)
                    && result.why == StartCheck(p, limits, p.connections[conn].profile, conn, sid) != Admitted)
      ensures result.Started? <==> eid in queries
      ensures result.Started? ==> result.view == queries[eid].state
    {
      PruneTables(now);
      if conn !in connections || !connections[conn].authenticated { return Unauthenticated; }
      if !ValidLimits(limits) { return InvalidLimits; }
      var profile := connections[conn].profile;
      var outcome := CheckStart(limits, profile, conn, sid);
      if !outcome.Admitted? { return Refused(outcome); }
      snapshots := snapshots[sid := snapshots[sid].(reserved := true)];
      queries := queries[eid := NewQuery(profile, conn, sid, limits, now)];
      ScheduleNextQuery(order, admission);
      assert eid in queries.Keys;
      return Started(queries[eid].state);
    }

    method ReadStatus(conn: Id, id: Id, granted: bool, answer: Option<Status>, now: Millis,
                      order: seq<Id>, admission: Admission) returns (view: Option<Query>)
      requires Lists(order, queries)
      modifies this
      ensures State() == QueryStatus(old(State()), conn, id, granted, answer, now, order, admission)
      ensures queries.Keys == old(queries).Keys
      ensures view.Some? <==> var p := Prune(old(State()), now);
                              Owns(p, conn, id) && granted && (p.queries[id].accepted ==> answer.Some?)
      ensures view.Some? ==> id in queries && view.value == queries[id]
    {
      PruneTables(now);
      if !Owns(State(), conn, id) || !granted { return None; }
      if queries[id].accepted {
        if answer.None? { return None; }
        ApplyEngineStatus(id, answer.value, now);
      }
      ScheduleNextQuery(order, admission);
      assert id in queries.Keys;
      return Some(queries[id]);
    }

    /** The first part of a cancellation; whether the second, a status request, follows. */
    method CancelHere(conn: Id, id: Id, granted: bool, known: bool, now: Millis,
                      order: seq<Id>, admission: Admission) returns (goesOn: bool)
      requires Lists(order, queries)
      modifies this
      ensures State() == BeginCancel(old(State()), conn, id, granted, now, order, admission)
      ensures queries.Keys == old(queries).Keys
      ensures goesOn <==> var p := Prune(old(State()), now);
                          Owns(p, conn, id) && granted && (p.queries[id].accepted ==> known)
      ensures goesOn ==> Owns(State(), conn, id) && queries[id].accepted == old(queries)[id].accepted
    {
      hide Prune, Schedule;
      PruneTables(now);
      if !Owns(State(), conn, id) || !granted { return false; }
      if !queries[id].accepted {
        CancelInTable(id);
        ScheduleSparesOthers(State(), order, admission, id);
        ScheduleNextQuery(order, admission);
        return true;
      }
      MarkCancelRequested(id);
      return known;
    }

    method Cancel(conn: Id, id: Id, granted: bool, known: bool, answer: Option<Status>, now: Millis,
                  order: seq<Id>, first: Admission, second: Admission) returns (view: Option<Query>)
      requires Lists(order, queries)
      modifies this
      ensures State() == CancelQuery(old(State()), conn, id, granted, known, answer, now, order, first, second)
      ensures view.Some? <==> var p := Prune(old(State()), now);
                              Owns(p, conn, id) && granted && (p.queries[id].accepted ==> known && answer.Some?)
      ensures view.Some? ==> id in queries && view.value == queries[id]
    {
      hide BeginCancel, QueryStatus;
      var goesOn := CancelHere(conn, id, granted, known, now, order, first);
      if !goesOn { return None; }
      view := ReadStatus(conn, id, granted, answer, now, order, second);
    }

    method DesktopCancelQuery(id: Id) returns (found: bool)
      modifies this
      ensures found <==> id in old(queries)
      ensures State() == DesktopCancel(old(State()), id)
    {
      if id !in queries { return false; }
      if IsOutstanding(queries[id].state) {
        if !queries[id].accepted { CancelInTable(id); } else { MarkCancelRequested(id); }
      }
      return true;
    }

    method WithdrawResult(id: Id)
      requires id in queries
      modifies this
      ensures State() == Unpublish(old(State()), id)
    {
      queries := queries[id := queries[id].(resultId := None, cleanupPending := true, cleanupRetryAt := None)];
    }

    method Release(conn: Id, id: Id, granted: bool, release: Release, now: Millis) returns (released: bool)
      modifies this
      ensures State() == ReleaseResult(old(State()), conn, id, granted, release, now)
      ensures released <==> var p := Prune(old(State()), now);
                            Owns(p, conn, id) && granted && p.queries[id].resultId == Some(id)
    {
      PruneTables(now);
      if !Owns(State(), conn, id) || queries[id].resultId != Some(id) || !granted { return false; }
      WithdrawResult(id);
      if queries[id].readers > 0 { return true; }
      if release.ReleaseFails? {
        queries := queries[id := queries[id].(cleanupAttempts := 1, cleanupRetryAt := Some(now + CLEANUP_RETRY_BASE))];
      } else {
        queries := queries - {id};
      }
      return true;
    }

    method RemoveResultAuthority(id: Id, release: Release, now: Millis)
      modifies this
      ensures State() == RemoveAuthority(old(State()), id, release, now)
    {
      if id !in queries { return; }
      WithdrawResult(id);
      if queries[id].readers > 0 { return; }
      if release.ReleaseFails? {
        queries := queries[id := queries[id].(
          cleanupAttempts := SaturatingAdd(queries[id].cleanupAttempts, 1, U32_MAX),
          cleanupRetryAt := Some(now + CLEANUP_RETRY_BASE))];
      } else {
        queries := queries - {id};
      }
    }

    /** Unreserves what the queries about to be cancelled hold. */
    method FreeHeldSnapshots(conn: Id, order: seq<Id>)
      requires Lists(order, queries)
      modifies this`snapshots
      ensures snapshots.Keys == old(snapshots).Keys
      ensures forall s :: s in snapshots ==>
                snapshots[s] == if FreedByCut(queries, conn, s) then old(snapshots)[s].(reserved := false)
                                else old(snapshots)[s]
    {
      ghost var kept := snapshots;
      for i := 0 to |order|
        invariant snapshots.Keys == kept.Keys
        invariant forall s :: s in kept ==>
                    snapshots[s] == if FreedUpTo(queries, order, i, conn, s)
                                    then kept[s].(reserved := false) else kept[s]
      {
        var q := queries[order[i]];
        if CutOff(q, conn) && !q.accepted { UnreserveSnapshot(q.snapshotId); }
        assert forall s :: FreedUpTo(queries, order, i + 1, conn, s) <==>
                             FreedUpTo(queries, order, i, conn, s)
                             || (CutOff(q, conn) && !q.accepted && q.snapshotId == Some(s));
      }
      assert forall s :: FreedUpTo(queries, order, |order|, conn, s) <==> FreedByCut(queries, conn, s);
    }

    method CutQueries(conn: Id, order: seq<Id>)
      requires Lists(order, queries)
      modifies this`queries
      ensures queries == map id | id in old(queries) :: CutQuery(old(queries)[id], conn)
    {
      ghost var was := queries;
      for i := 0 to |order|
        invariant queries.Keys == was.Keys
        invariant forall j :: 0 <= j < |order| ==>
                    queries[order[j]] == if j < i then CutQuery(was[order[j]], conn) else was[order[j]]
      {
        if CutOff(queries[order[i]], conn) {
          queries := queries[order[i] := CutQuery(queries[order[i]], conn)];
        }
      }
      assert forall id :: id in was ==> id in order;
    }

    method DisconnectClient(conn: Id, order: seq<Id>) returns (removed: bool)
      requires Lists(order, queries)
      modifies this
      ensures removed <==> conn in old(connections)
      ensures State() == Disconnect(old(State()), conn)
      ensures queries.Keys == old(queries).Keys
    {
      removed := conn in connections;
      connections := connections - {conn};
      snapshots := map s | s in snapshots && snapshots[s].connection != conn :: snapshots[s];
      FreeHeldSnapshots(conn, order);
      CutQueries(conn, order);
      assert snapshots == Disconnect(old(State()), conn).snapshots;
    }

    // -------------------------------------------------------------------
    // Maintenance.
    // -------------------------------------------------------------------

    method SelectIds(sel: Selector, order: seq<Id>, now: Millis) returns (ids: seq<Id>)
      ensures ids == Select(sel, queries, order, now)
    {
      ids := [];
      for i := 0 to |order|
        invariant ids == Select(sel, queries, order[..i], now)
      {
        assert order[..i + 1][..i] == order[..i];
        if order[i] in queries && Selects(sel, queries[order[i]], now) { ids := ids + [order[i]]; }
      }
      assert order[..|order|] == order;
    }

    method SelectStale(order: seq<Id>, now: Millis) returns (ids: seq<Id>)
      ensures ids == StaleConnections(connections, order, now)
    {
      ids := [];
      for i := 0 to |order|
        invariant ids == StaleConnections(connections, order[..i], now)
      {
        assert order[..i + 1][..i] == order[..i];
        if order[i] in connections && Stale(connections[order[i]], now) { ids := ids + [order[i]]; }
      }
      assert order[..|order|] == order;
    }

    method SelectUnread(among: seq<Id>) returns (ids: seq<Id>)
      ensures ids == Unread(queries, among)
    {
      ids := [];
      for i := 0 to |among|
        invariant ids == Unread(queries, among[..i])
      {
        assert among[..i + 1][..i] == among[..i];
        if among[i] in queries && queries[among[i]].readers == 0 { ids := ids + [among[i]]; }
      }
      assert among[..|among|] == among;
    }

    method PollQueries(ids: seq<Id>, statuses: map<Id, Status>, now: Millis)
      modifies this
      ensures State() == PollAll(old(State()), ids, statuses, now)
      ensures queries.Keys == old(queries).Keys
    {
      for i := 0 to |ids|
        invariant State() == PollAll(old(State()), ids[..i], statuses, now)
        invariant queries.Keys == old(queries).Keys
      {
        assert ids[..i + 1][..i] == ids[..i];
        if ids[i] in statuses { ApplyEngineStatus(ids[i], statuses[ids[i]], now); }
      }
      assert ids[..|ids|] == ids;
    }

    method FailOverdue(ids: seq<Id>)
      modifies this
      ensures State() == FailAll(old(State()), ids)
      ensures queries.Keys == old(queries).Keys
    {
      for i := 0 to |ids|
        invariant State() == FailAll(old(State()), ids[..i])
        invariant queries.Keys == old(queries).Keys
      {
        assert ids[..i + 1][..i] == ids[..i];
        FailQueuedQuery(ids[i], "agent.queue_deadline");
      }
      assert ids[..|ids|] == ids;
    }

    method CancelLate(ids: seq<Id>)
      modifies this
      ensures State() == RequestCancelAll(old(State()), ids)
      ensures queries.Keys == old(queries).Keys
    {
      for i := 0 to |ids|
        invariant State() == RequestCancelAll(old(State()), ids[..i])
        invariant queries.Keys == old(queries).Keys
      {
        assert ids[..i + 1][..i] == ids[..i];
        MarkCancelRequested(ids[i]);
      }
      assert ids[..|ids|] == ids;
    }

    method DropStale(conns: seq<Id>, order: seq<Id>)
      requires Lists(order, queries)
      modifies this
      ensures State() == DisconnectAll(old(State()), conns)
      ensures queries.Keys == old(queries).Keys
    {
      for i := 0 to |conns|
        invariant State() == DisconnectAll(old(State()), conns[..i])
        invariant queries.Keys == old(queries).Keys
      {
        assert conns[..i + 1][..i] == conns[..i];
        var _ := DisconnectClient(conns[i], order);
      }
      assert conns[..|conns|] == conns;
    }

    method WithdrawExpired(ids: seq<Id>)
      modifies this
      ensures State() == UnpublishAll(old(State()), ids)
    {
      for i := 0 to |ids|
        invariant State() == UnpublishAll(old(State()), ids[..i])
      {
        assert ids[..i + 1][..i] == ids[..i];
        if ids[i] in queries { WithdrawResult(ids[i]); }
      }
      assert ids[..|ids|] == ids;
    }

    method CleanUp(ids: seq<Id>, releases: map<Id, Release>, now: Millis)
      modifies this
      ensures State() == CleanAll(old(State()), ids, releases, now)
    {
      for i := 0 to |ids|
        invariant State() == CleanAll(old(State()), ids[..i], releases, now)
      {
        assert ids[..i + 1][..i] == ids[..i];
        var id := ids[i];
        var release := if id in releases then releases[id] else ReleaseFails;
        if !release.ReleaseFails? {
          queries := queries - {id};
        } else if id in queries {
          var attempts := SaturatingAdd(queries[id].cleanupAttempts, 1, U32_MAX);
          queries := queries[id := queries[id].(cleanupAttempts := attempts,
                                                cleanupRetryAt := Some(now + CleanupRetryDelay(attempts)))];
        }
      }
      assert ids[..|ids|] == ids;
    }

    method BeginMaintenance(now: Millis)
      modifies this
      ensures State() == Begin(old(State()), now)
      ensures queries == old(queries)
    {
      var gap := lastMaintenance.Some?
                 && Elapsed(now, lastMaintenance.value) > MAINTENANCE_INTERVAL + RESUME_SAFE_GRACE;
      lastMaintenance := Some(now);
      connections := map c | c in connections :: Graced(connections[c], gap, now);
    }

    /** Withdraws expired results and deletes the files nobody reads. */
    method CleanExpired(expired: seq<Id>, toClean: seq<Id>, releases: map<Id, Release>, now: Millis)
      modifies this
      ensures var a6 := UnpublishAll(old(State()), expired);
              State() == CleanAll(a6, Unread(a6.queries, toClean + expired), releases, now)
    {
      WithdrawExpired(expired);
      var unread := SelectUnread(toClean + expired);
      CleanUp(unread, releases, now);
    }

    method MaintainAt(now: Millis, order: seq<Id>, connOrder: seq<Id>, answers: Answers)
      requires Lists(order, queries)
      modifies this
      ensures State() == Maintain(old(State()), now, order, connOrder, answers)
    {
      hide StaleConnections, Select, TakeFirst, PollAll, FailAll, RequestCancelAll, Schedule, DisconnectAll,
           UnpublishAll, Unread, CleanAll, Begin;
      BeginMaintenance(now);
      var stale := SelectStale(connOrder, now);
      var toPoll := SelectIds(ToPoll, order, now);
      var overdue := SelectIds(QueueOverdue, order, now);
      var late := SelectIds(RunOverdue, order, now);
      var expired := SelectIds(Expired, order, now);
      var cleanable := SelectIds(ToClean, order, now);
      var toClean := TakeFirst(cleanable, MAX_CLEANUP_PENDING);
      PollQueries(toPoll, answers.statuses, now);
      FailOverdue(overdue);
      CancelLate(late);
      ScheduleNextQuery(order, answers.admission);
      DropStale(stale, order);
      CleanExpired(expired, toClean, answers.releases, now);
    }
  }

  /** Among the first `n` listed queries, one that a disconnection cancels frees this snapshot. */
  ghost predicate FreedUpTo(qs: map<Id, Query>, order: seq<Id>, n: nat, conn: Id, sid: Id)
    requires n <= |order|
  {
    exists j :: 0 <= j < n && order[j] in qs && CutOff(qs[order[j]], conn)
                && !qs[order[j]].accepted && qs[order[j]].snapshotId == Some(sid)
  }

  // ---------------------------------------------------------------------
  // A profile picked for scheduling has a schedulable query.
  // ---------------------------------------------------------------------

  lemma {:induction false} InsertedElements(sorted: seq<Id>, x: Id)
    ensures forall y :: y in InsertDistinct(sorted, x) <==> y == x || y in sorted
  {
    if sorted != [] && sorted[0] != x && !Before(x, sorted[0]) {
      InsertedElements(sorted[1..], x);
      assert sorted == [sorted[0]] + sorted[1..];
    }
  }

  lemma {:induction false} SortedElements(xs: seq<Id>)
    ensures forall y :: y in SortedDistinct(xs) <==> y in xs
  {
    if xs != [] {
      SortedElements(xs[..|xs| - 1]);
      InsertedElements(SortedDistinct(xs[..|xs| - 1]), xs[|xs| - 1]);
      assert xs == xs[..|xs| - 1] + [xs[|xs| - 1]];
    }
  }

  lemma {:induction false} FirstAfterIsElement(sorted: seq<Id>, last: Id)
    ensures FirstAfter(sorted, last).Some? ==> FirstAfter(sorted, last).value in sorted
  {
    if sorted != [] && !Before(last, sorted[0]) {
      FirstAfterIsElement(sorted[1..], last);
    }
  }

  lemma {:induction false} WaitingMeansQuery(qs: map<Id, Query>, order: seq<Id>, profile: Id)
    ensures profile in SchedulableProfiles(qs, order) <==> Earliest(qs, order, profile).Some?
  {
    if order != [] {
      WaitingMeansQuery(qs, order[..|order| - 1], profile);
    }
  }

  lemma NextProfileIsWaiting(last: Option<Id>, profiles: seq<Id>)
    ensures NextProfile(last, profiles).Some? ==> NextProfile(last, profiles).value in profiles
  {
    var sorted := SortedDistinct(profiles);
    SortedElements(profiles);
    if last.Some? { FirstAfterIsElement(sorted, last.value); }
  }

  lemma WaitingProfileHasQuery(a: Access, order: seq<Id>)
    ensures var profile := NextProfile(a.lastScheduled, SchedulableProfiles(a.queries, order));
            profile.Some? ==> Earliest(a.queries, order, profile.value).Some?
  {
    var profiles := SchedulableProfiles(a.queries, order);
    NextProfileIsWaiting(a.lastScheduled, profiles);
    var profile := NextProfile(a.lastScheduled, profiles);
    if profile.Some? { WaitingMeansQuery(a.queries, order, profile.value); }
  }
}
