/** What one maintenance pass does, whatever the engine answers on the way: who is failed,
    stopped, withdrawn or dropped, and from which moment on. */
module AgentMaintenance {
  import opened Basics
  import opened AgentState
  import opened AgentSteps
  import opened AgentInvariant
  import opened AgentRuns

  predicate Has(a: Access, id: Id) {
    id in a.queries
  }

  // ---------------------------------------------------------------------
  // Pass by pass, seen from one entry.
  // ---------------------------------------------------------------------

  /** What a report makes of an entry. */
  function Observed(q: Query, id: Id, status: Status, now: Millis): Query {
    var seen := q.(state := status.state,
                   runningAt := if status.state.Running? && q.runningAt.None? then Some(now) else q.runningAt);
    if status.bytes.None? then seen
    else seen.(resultId := Some(id), cacheBytes := status.bytes,
               publishedAt := if q.publishedAt.None? then Some(now) else q.publishedAt,
               lastAccessedAt := if q.lastAccessedAt.None? then Some(now) else q.lastAccessedAt)
  }

  function FailedWith(q: Query, code: string): Query {
    q.(state := Failed, claimed := false, error := Some(code), snapshotId := None)
  }

  lemma StatusOnEntry(a: Access, i: Id, status: Status, now: Millis, id: Id)
    ensures var b := ApplyStatus(a, i, status, now);
            && b.connections == a.connections && b.lastMaintenance == a.lastMaintenance && (Has(b, id) <==> Has(a, id))
            && (Has(a, id) ==> b.queries[id] == if i == id then Observed(a.queries[id], id, status, now)
                                                else a.queries[id])
  {
  }

  lemma ObservedTwice(q: Query, id: Id, status: Status, now: Millis)
    ensures Observed(Observed(q, id, status, now), id, status, now) == Observed(q, id, status, now)
  {
  }

  lemma {:induction false} PollOnEntry(a: Access, ids: seq<Id>, statuses: map<Id, Status>, now: Millis, id: Id)
    ensures var b := PollAll(a, ids, statuses, now);
            && b.connections == a.connections && b.lastMaintenance == a.lastMaintenance && (Has(b, id) <==> Has(a, id))
            && (Has(a, id) ==> b.queries[id] == if id in ids && id in statuses
                                                then Observed(a.queries[id], id, statuses[id], now) else a.queries[id])
  {
    hide Observed, ApplyStatus;
    if ids != [] {
      var init, last := ids[..|ids| - 1], ids[|ids| - 1];
      PollOnEntry(a, init, statuses, now, id);
      assert ids == init + [last];
      if last in statuses {
        StatusOnEntry(PollAll(a, init, statuses, now), last, statuses[last], now, id);
        if last == id && Has(a, id) { ObservedTwice(a.queries[id], id, statuses[id], now); }
      }
    }
  }

  lemma {:induction false} FailOnEntry(a: Access, ids: seq<Id>, id: Id)
    ensures var b := FailAll(a, ids);
            && b.connections == a.connections && b.lastMaintenance == a.lastMaintenance && (Has(b, id) <==> Has(a, id))
            && (Has(a, id) ==> b.queries[id] == if id in ids then FailedWith(a.queries[id], "agent.queue_deadline")
                                                else a.queries[id])
  {
    if ids != [] {
      FailOnEntry(a, ids[..|ids| - 1], id);
      assert ids == ids[..|ids| - 1] + [ids[|ids| - 1]];
    }
  }

  lemma {:induction false} StopOnEntry(a: Access, ids: seq<Id>, id: Id)
    ensures var b := RequestCancelAll(a, ids);
            && b.connections == a.connections && b.lastMaintenance == a.lastMaintenance && (Has(b, id) <==> Has(a, id))
            && (Has(a, id) ==> b.queries[id] == if id in ids then a.queries[id].(cancelRequested := true)
                                                else a.queries[id])
  {
    if ids != [] {
      StopOnEntry(a, ids[..|ids| - 1], id);
      assert ids == ids[..|ids| - 1] + [ids[|ids| - 1]];
    }
  }

  /** A scheduling pass leaves an entry alone, or submits it and gets its answer. */
  predicate MaybeSubmitted(q: Query, q': Query) {
    || q' == q
    || (q.state.Queued? && !q.accepted && !q.claimed
        && q' in {q.(accepted := true, claimed := false, snapshotId := None), FailedWith(q, "agent.snapshot_stale"),
                  FailedWith(q, "agent.engine_admission")})
  }

  lemma ScheduleOnEntry(a: Access, order: seq<Id>, admission: Admission, id: Id)
    ensures var b := Schedule(a, order, admission);
            && b.connections == a.connections && b.lastMaintenance == a.lastMaintenance && (Has(b, id) <==> Has(a, id))
            && (Has(a, id) ==> MaybeSubmitted(a.queries[id], b.queries[id]))
  {
    hide Candidate;
  }

  /** What becomes of an entry whose connection leaves. */
  function LeftBehind(q: Query): Query {
    if q.state.Queued? || q.state.Running?
    then q.(cancelRequested := true, snapshotId := None, state := if q.accepted then q.state else Cancelled) else q
  }

  lemma {:induction false} DisconnectOnEntry(a: Access, conns: seq<Id>, conn: Id, id: Id)
    ensures var b := DisconnectAll(a, conns);
            && b.lastMaintenance == a.lastMaintenance
            && (conn in b.connections <==> conn in a.connections && conn !in conns)
            && (conn in b.connections ==> b.connections[conn] == a.connections[conn])
            && (conn in conns ==> forall s :: s in b.snapshots ==> b.snapshots[s].connection != conn)
            && (Has(b, id) <==> Has(a, id))
            && (Has(a, id) ==> b.queries[id] == if a.queries[id].connection in conns then LeftBehind(a.queries[id])
                                                else a.queries[id])
  {
    if conns != [] {
      DisconnectOnEntry(a, conns[..|conns| - 1], conn, id);
      assert conns == conns[..|conns| - 1] + [conns[|conns| - 1]];
    }
  }

  lemma {:induction false} UnpublishOnEntry(a: Access, ids: seq<Id>, id: Id)
    ensures var b := UnpublishAll(a, ids);
            && b.connections == a.connections && b.snapshots == a.snapshots && b.lastMaintenance == a.lastMaintenance
            && (Has(b, id) <==> Has(a, id))
            && (Has(a, id) ==> b.queries[id]
                               == if id in ids
                                  then a.queries[id].(resultId := None, cleanupPending := true, cleanupRetryAt := None)
                                  else a.queries[id])
  {
    if ids != [] {
      UnpublishOnEntry(a, ids[..|ids| - 1], id);
      assert ids == ids[..|ids| - 1] + [ids[|ids| - 1]];
    }
  }

  /** The entry was put off to another attempt, between two seconds and a minute away. */
  predicate PutOff(q: Query, q': Query, now: Millis) {
    && q' == q.(cleanupAttempts := q'.cleanupAttempts, cleanupRetryAt := q'.cleanupRetryAt)
    && q'.cleanupAttempts >= Min(q.cleanupAttempts + 1, U32_MAX)
    && q'.cleanupRetryAt == Some(now + CleanupRetryDelay(q'.cleanupAttempts))
    && q'.cleanupRetryAt.Some? && now + 2_000 <= q'.cleanupRetryAt.value <= now + 60_000
  }

  predicate Lets(releases: map<Id, Release>, id: Id) {
    id in releases && releases[id] in {Released, ResultMissing}
  }

  lemma CleanOneOnEntry(a: Access, last: Id, release: Release, now: Millis, id: Id)
    ensures var b := CleanOne(a, last, release, now);
            && b.connections == a.connections && b.snapshots == a.snapshots && b.lastMaintenance == a.lastMaintenance
            && (Has(b, id) <==> Has(a, id) && !(id == last && !release.ReleaseFails?))
            && (Has(b, id) ==> if id == last then PutOff(a.queries[id], b.queries[id], now)
                               else b.queries[id] == a.queries[id])
  {
    if id in a.queries { BackOffIsBounded(SaturatingAdd(a.queries[id].cleanupAttempts, 1, U32_MAX)); }
    hide CleanupRetryDelay;
  }

  lemma PutOffAgain(q: Query, r: Query, s: Query, now: Millis)
    requires PutOff(q, r, now) && PutOff(r, s, now)
    ensures PutOff(q, s, now)
  {
    hide CleanupRetryDelay;
  }

  /** An entry offered for release goes if the engine lets it go, or is put off; any other
      stays as it is. */
  lemma {:induction false} CleanOnEntry(a: Access, ids: seq<Id>, releases: map<Id, Release>, now: Millis, id: Id)
    ensures var b := CleanAll(a, ids, releases, now);
            && b.connections == a.connections && b.snapshots == a.snapshots && b.lastMaintenance == a.lastMaintenance
            && (Has(b, id) <==> Has(a, id) && !(id in ids && Lets(releases, id)))
            && (Has(b, id) ==> if id in ids then PutOff(a.queries[id], b.queries[id], now)
                               else b.queries[id] == a.queries[id])
  {
    hide PutOff, CleanOne;
    if ids != [] {
      var init, last := ids[..|ids| - 1], ids[|ids| - 1];
      CleanOnEntry(a, init, releases, now, id);
      assert ids == init + [last];
      var b := CleanAll(a, init, releases, now);
      CleanOneOnEntry(b, last, if last in releases then releases[last] else ReleaseFails, now, id);
      var c := CleanAll(a, ids, releases, now);
      if id == last && id in init && Has(c, id) { PutOffAgain(a.queries[id], b.queries[id], c.queries[id], now); }
    }
  }

  lemma BackOffIsBounded(attempts: nat)
    ensures 2_000 <= CleanupRetryDelay(attempts) <= 60_000
  {
    var shift := Min(if attempts == 0 then 0 else attempts - 1, 5);
    assert [1, 2, 4, 8, 16, 32][shift] >= 1;
  }

  // ---------------------------------------------------------------------
  // The whole pass, seen from one entry. The times are written out.
  // ---------------------------------------------------------------------

  /** The engine has it and has not reported its end. */
  predicate Polled(q: Query) {
    q.accepted && (q.state.Queued? || q.state.Running?)
  }

  predicate QueueOverdue(q: Query, now: Millis) {
    !q.accepted && q.state.Queued? && now >= q.admittedAt + 1000 * q.limits.queueDeadlineSeconds
  }

  predicate RunOverdue(q: Query, now: Millis) {
    Polled(q) && q.runningAt.Some? && now >= q.runningAt.value + 1000 * q.limits.executionDeadlineSeconds
  }

  /** Published half an hour ago, or not looked at for ten minutes. */
  predicate ResultOld(q: Query, now: Millis) {
    q.resultId.Some? && q.publishedAt.Some?
    && (now >= q.publishedAt.value + 1_800_000
        || now >= (if q.lastAccessedAt.Some? then q.lastAccessedAt else q.publishedAt).value + 600_000)
  }

  /** Withdrawn before, unread, and not waiting for another attempt. */
  predicate CleanupDue(q: Query, now: Millis) {
    q.cleanupPending && q.readers == 0 && (q.cleanupRetryAt.None? || now >= q.cleanupRetryAt.value)
  }

  /** Authenticated, silent for two minutes, and outside its grace. */
  predicate LeaseOver(c: Connection, now: Millis) {
    c.authenticated && now >= c.lastHeartbeat + 120_000 && (c.graceUntil.None? || now >= c.graceUntil.value)
  }

  /** More than 35 seconds since the pass before. */
  predicate Woken(a: Access, now: Millis) {
    a.lastMaintenance.Some? && now > a.lastMaintenance.value + 35_000
  }

  /** The selections are made by these times. */
  lemma SelectionsAreTimes(q: Query, now: Millis)
    requires q.limits.queueDeadlineSeconds >= 1 && q.limits.executionDeadlineSeconds >= 1
    ensures Selects(Selector.ToPoll, q, now) <==> Polled(q)
    ensures Selects(Selector.QueueOverdue, q, now) <==> QueueOverdue(q, now)
    ensures Selects(Selector.RunOverdue, q, now) <==> RunOverdue(q, now)
    ensures Selects(Selector.Expired, q, now) <==> ResultOld(q, now)
    ensures Selects(Selector.ToClean, q, now) <==> CleanupDue(q, now)
  {
  }

  /** An entry when the pass comes to the scheduler. */
  function AfterDeadlines(q: Query, id: Id, statuses: map<Id, Status>, now: Millis): Query {
    var polled := if Polled(q) && id in statuses then Observed(q, id, statuses[id], now) else q;
    var failed := if QueueOverdue(q, now) then FailedWith(polled, "agent.queue_deadline") else polled;
    if RunOverdue(q, now) then failed.(cancelRequested := true) else failed
  }

  lemma FirstPassesOnEntry(a: Access, now: Millis, order: seq<Id>, statuses: map<Id, Status>, id: Id)
    requires Lists(order, a.queries)
    requires Has(a, id) ==> ValidLimits(a.queries[id].limits)
    ensures var a0 := Begin(a, now);
            var a1 := PollAll(a0, Select(Selector.ToPoll, a0.queries, order, now), statuses, now);
            var a2 := FailAll(a1, Select(Selector.QueueOverdue, a0.queries, order, now));
            var a3 := RequestCancelAll(a2, Select(Selector.RunOverdue, a0.queries, order, now));
            && a3.connections == a0.connections && (Has(a3, id) <==> Has(a, id))
            && (Has(a, id) ==> a3.queries[id] == AfterDeadlines(a.queries[id], id, statuses, now))
  {
    var a0 := Begin(a, now);
    assert a0.queries == a.queries;
    var polled := Select(Selector.ToPoll, a0.queries, order, now);
    var overdue := Select(Selector.QueueOverdue, a0.queries, order, now);
    var late := Select(Selector.RunOverdue, a0.queries, order, now);
    SelectedAre(Selector.ToPoll, a0.queries, order, now);
    SelectedAre(Selector.QueueOverdue, a0.queries, order, now);
    SelectedAre(Selector.RunOverdue, a0.queries, order, now);
    if Has(a, id) { SelectionsAreTimes(a.queries[id], now); }
    hide Select, Selects, Begin, PollAll, FailAll, RequestCancelAll, Observed, FailedWith, Polled, QueueOverdue,
         RunOverdue;
    var a1 := PollAll(a0, polled, statuses, now);
    PollOnEntry(a0, polled, statuses, now, id);
    var a2 := FailAll(a1, overdue);
    FailOnEntry(a1, overdue, id);
    StopOnEntry(a2, late, id);
  }

  /** The connections that leave in a pass. */
  predicate Leaves(a: Access, conn: Id, now: Millis) {
    conn in a.connections && !Woken(a, now) && LeaseOver(a.connections[conn], now)
  }

  lemma {:induction false} StaleAre(cs: map<Id, Connection>, order: seq<Id>, now: Millis, conn: Id)
    ensures conn in StaleConnections(cs, order, now) <==> conn in order && conn in cs && Stale(cs[conn], now)
  {
    if order != [] {
      StaleAre(cs, order[..|order| - 1], now, conn);
      assert order == order[..|order| - 1] + [order[|order| - 1]];
    }
  }

  lemma StaleOnesLeave(a: Access, now: Millis, connOrder: seq<Id>, conn: Id)
    requires Lists(connOrder, a.connections)
    ensures conn in StaleConnections(Begin(a, now).connections, connOrder, now) <==> Leaves(a, conn, now)
  {
    StaleAre(Begin(a, now).connections, connOrder, now, conn);
  }

  /** The withdrawn results that a pass tries to release, sixteen at most. */
  function Tried(a: Access, order: seq<Id>, now: Millis): seq<Id> {
    TakeFirst(Select(Selector.ToClean, a.queries, order, now), 16)
  }

  /** The last passes, on an entry that the scheduler has left as `q4`. */
  predicate LastPasses(q: Query, q4: Query, leaves: bool, tried: bool, lets: bool, now: Millis, q': Option<Query>) {
    var q5 := if leaves then LeftBehind(q4) else q4;
    var q6 := if ResultOld(q, now) then q5.(resultId := None, cleanupPending := true, cleanupRetryAt := None) else q5;
    if (ResultOld(q, now) || tried) && q6.readers == 0
    then if lets then q'.None? else q'.Some? && PutOff(q6, q'.value, now)
    else q' == Some(q6)
  }

  function Entry(a: Access, id: Id): Option<Query> {
    if id in a.queries then Some(a.queries[id]) else None
  }

  lemma LastPassesOnEntry(a: Access, a4: Access, now: Millis, order: seq<Id>, connOrder: seq<Id>, e: Answers, id: Id)
    requires Lists(order, a.queries) && Lists(connOrder, a.connections)
    requires Has(a, id) && Has(a4, id) && ValidLimits(a.queries[id].limits)
    ensures var a0 := Begin(a, now);
            var expired := Select(Selector.Expired, a0.queries, order, now);
            var a5 := DisconnectAll(a4, StaleConnections(a0.connections, connOrder, now));
            var a6 := UnpublishAll(a5, expired);
            var b := CleanAll(a6, Unread(a6.queries, Tried(a, order, now) + expired), e.releases, now);
            LastPasses(a.queries[id], a4.queries[id], Leaves(a, a4.queries[id].connection, now),
                       id in Tried(a, order, now), Lets(e.releases, id), now, Entry(b, id))
  {
    var a0 := Begin(a, now);
    assert a0.queries == a.queries;
    var expired, tried := Select(Selector.Expired, a0.queries, order, now), Tried(a, order, now);
    var stale := StaleConnections(a0.connections, connOrder, now);
    SelectedAre(Selector.Expired, a0.queries, order, now);
    SelectionsAreTimes(a.queries[id], now);
    StaleOnesLeave(a, now, connOrder, a4.queries[id].connection);
    hide Select, Selects, Begin, StaleConnections, Tried, DisconnectAll, UnpublishAll, CleanAll, PutOff, ResultOld,
         Leaves,
         LeftBehind;
    var a5 := DisconnectAll(a4, stale);
    DisconnectOnEntry(a4, stale, "", id);
    var a6 := UnpublishAll(a5, expired);
    UnpublishOnEntry(a5, expired, id);
    UnreadAre(a6.queries, tried + expired);
    CleanOnEntry(a6, Unread(a6.queries, tried + expired), e.releases, now, id);
  }

  /** The pass, seen from one entry; `q4` is what the scheduler leaves of it. */
  lemma PassOnEntry(a: Access, now: Millis, order: seq<Id>, connOrder: seq<Id>, e: Answers, id: Id) returns (q4: Query)
    requires Lists(order, a.queries) && Lists(connOrder, a.connections)
    requires Has(a, id) && ValidLimits(a.queries[id].limits)
    ensures MaybeSubmitted(AfterDeadlines(a.queries[id], id, e.statuses, now), q4)
    ensures LastPasses(a.queries[id], q4, Leaves(a, q4.connection, now), id in Tried(a, order, now),
                       Lets(e.releases, id), now, Entry(Maintain(a, now, order, connOrder, e), id))
  {
    var a0 := Begin(a, now);
    assert a0.queries == a.queries;
    FirstPassesOnEntry(a, now, order, e.statuses, id);
    var a1 := PollAll(a0, Select(Selector.ToPoll, a0.queries, order, now), e.statuses, now);
    var a2 := FailAll(a1, Select(Selector.QueueOverdue, a0.queries, order, now));
    var a3 := RequestCancelAll(a2, Select(Selector.RunOverdue, a0.queries, order, now));
    ScheduleOnEntry(a3, order, e.admission, id);
    var a4 := Schedule(a3, order, e.admission);
    q4 := a4.queries[id];
    LastPassesOnEntry(a, a4, now, order, connOrder, e, id);
    hide MaybeSubmitted, LastPasses, AfterDeadlines, Schedule, Begin, Select, PollAll, FailAll, RequestCancelAll,
         StaleConnections,
         DisconnectAll, UnpublishAll, CleanAll;
  }

  lemma EntriesAreOk(steps: seq<Step>, w: World, id: Id)
    requires Run(INITIAL_WORLD, steps, w) && Has(w.access, id)
    ensures EntryOk(id, w.access.queries[id], w.engine)
  {
    ReachableStatesAreSafe(steps, w);
  }

  // ---------------------------------------------------------------------
  // Main results.
  // ---------------------------------------------------------------------

  /** A queued query that the engine does not have fails by its queue deadline in a pass exactly
      if that many seconds have passed since its admission. Otherwise it goes on waiting, is
      submitted, is refused by the engine, or is cancelled because its connection leaves. */
  lemma OverdueQueriesFail(steps: seq<Step>, w: World, now: Millis, order: seq<Id>, connOrder: seq<Id>, e: Answers,
                           id: Id)
    requires Run(INITIAL_WORLD, steps, w) && Lists(order, w.access.queries) && Lists(connOrder, w.access.connections)
    requires Has(w.access, id) && !w.access.queries[id].accepted && w.access.queries[id].state.Queued?
    ensures var b, q := Maintain(w.access, now, order, connOrder, e), w.access.queries[id];
            && Has(b, id)
            && (b.queries[id].state.Failed? && b.queries[id].error == Some("agent.queue_deadline")
                <==> now >= q.admittedAt + 1000 * q.limits.queueDeadlineSeconds)
            && (b.queries[id].state.Failed? ==> !b.queries[id].accepted && b.queries[id].snapshotId.None?)
  {
    EntriesAreOk(steps, w, id);
    var q4 := PassOnEntry(w.access, now, order, connOrder, e, id);
    assert !(id in Tried(w.access, order, now)) by { NotTried(w.access, order, now, id); }
    hide Maintain, Run, Tried, Leaves;
  }

  lemma NotTried(a: Access, order: seq<Id>, now: Millis, id: Id)
    requires Has(a, id) && !a.queries[id].cleanupPending
    ensures id !in Tried(a, order, now)
  {
    SelectedAre(Selector.ToClean, a.queries, order, now);
    var all := Select(Selector.ToClean, a.queries, order, now);
    assert forall i :: i in TakeFirst(all, 16) ==> i in all;
  }

  lemma OnLate(id: Id, q: Query, statuses: map<Id, Status>, now: Millis, q4: Query, tried: bool, lets: bool,
               q': Option<Query>)
    requires Polled(q) && !q.cancelRequested
    requires MaybeSubmitted(AfterDeadlines(q, id, statuses, now), q4) && LastPasses(q, q4, false, tried, lets, now, q')
    ensures q4.connection == q.connection
    ensures q'.Some? ==>
              (q'.value.cancelRequested
               <==> q.runningAt.Some? && now >= q.runningAt.value + 1000 * q.limits.executionDeadlineSeconds)
  {
    hide CleanupRetryDelay, ResultOld;
  }

  /** A query in the engine is asked to stop by the pass exactly if it has been seen running for
      as many seconds as its execution deadline has, unless it was asked before or its
      connection leaves. */
  lemma LateQueriesAreStopped(steps: seq<Step>, w: World, now: Millis, order: seq<Id>, connOrder: seq<Id>, e: Answers,
                              id: Id)
    requires Run(INITIAL_WORLD, steps, w) && Lists(order, w.access.queries) && Lists(connOrder, w.access.connections)
    requires Has(w.access, id) && Polled(w.access.queries[id])
    requires !w.access.queries[id].cancelRequested && !Leaves(w.access, w.access.queries[id].connection, now)
    ensures var b, q := Maintain(w.access, now, order, connOrder, e), w.access.queries[id];
            Has(b, id) ==>
              (b.queries[id].cancelRequested
               <==> q.runningAt.Some? && now >= q.runningAt.value + 1000 * q.limits.executionDeadlineSeconds)
  {
    EntriesAreOk(steps, w, id);
    var q, b := w.access.queries[id], Maintain(w.access, now, order, connOrder, e);
    hide *;
    var q4 := PassOnEntry(w.access, now, order, connOrder, e, id);
    ConnectionStays(q, id, e.statuses, now, q4);
    OnLate(id, q, e.statuses, now, q4, id in Tried(w.access, order, now), Lets(e.releases, id), Entry(b, id));
    EntryIs(b, id);
  }

  /** The reader's view of a result: whether it can still be opened. */
  predicate Readable(a: Access, id: Id) {
    Has(a, id) && a.queries[id].resultId.Some?
  }

  lemma OnExpired(id: Id, q: Query, statuses: map<Id, Status>, now: Millis, q4: Query, leaves: bool, lets: bool,
                  q': Option<Query>)
    requires q.resultId.Some? && q.accepted
    requires MaybeSubmitted(AfterDeadlines(q, id, statuses, now), q4) && LastPasses(q, q4, leaves, false, lets, now, q')
    ensures q'.None? || q'.value.resultId.None?
            <==> q.publishedAt.Some?
                 && (now >= q.publishedAt.value + 1_800_000
                     || now >= (if q.lastAccessedAt.Some? then q.lastAccessedAt else q.publishedAt).value + 600_000)
    ensures q'.None? || q'.value.resultId.None? ==>
              && (q'.Some? <==> q.readers > 0 || !lets)
              && (q'.Some? ==> q'.value.cleanupPending && q'.value.readers == q.readers)
              && (q'.Some? && q.readers == 0 ==>
                    q'.value.cleanupRetryAt.Some? && now + 2_000 <= q'.value.cleanupRetryAt.value <= now + 60_000)
  {
    hide CleanupRetryDelay;
  }

  /** A result is withdrawn in a pass exactly if it was published half an hour ago or has not
      been looked at for ten minutes. If nobody reads it, it is then gone if the engine lets
      it go, and otherwise tried again between two seconds and a minute later. */
  lemma ExpiredResultsAreWithdrawn(steps: seq<Step>, w: World, now: Millis, order: seq<Id>, connOrder: seq<Id>,
                                   e: Answers, id: Id)
    requires Run(INITIAL_WORLD, steps, w) && Lists(order, w.access.queries) && Lists(connOrder, w.access.connections)
    requires Readable(w.access, id) && !w.access.queries[id].cleanupPending
    ensures var b, q := Maintain(w.access, now, order, connOrder, e), w.access.queries[id];
            && (!Readable(b, id)
                <==> q.publishedAt.Some?
                     && (now >= q.publishedAt.value + 1_800_000
                         || now >= (if q.lastAccessedAt.Some? then q.lastAccessedAt else q.publishedAt).value
                                   + 600_000))
            && (!Readable(b, id) ==>
                  && (Has(b, id) <==> q.readers > 0 || !Lets(e.releases, id))
                  && (Has(b, id) ==> b.queries[id].cleanupPending && b.queries[id].readers == q.readers)
                  && (Has(b, id) && q.readers == 0 ==>
                        b.queries[id].cleanupRetryAt.Some?
                        && now + 2_000 <= b.queries[id].cleanupRetryAt.value <= now + 60_000))
  {
    EntriesAreOk(steps, w, id);
    var q := w.access.queries[id];
    assert ValidLimits(q.limits) && q.accepted && id !in Tried(w.access, order, now) by {
      NotTried(w.access, order, now, id);
    }
    hide *;
    var q4 := PassOnEntry(w.access, now, order, connOrder, e, id);
    OnExpired(id, q, e.statuses, now, q4, Leaves(w.access, q4.connection, now), Lets(e.releases, id),
              Entry(Maintain(w.access, now, order, connOrder, e), id));
    EntryIs(Maintain(w.access, now, order, connOrder, e), id);
    ReadableIs(Maintain(w.access, now, order, connOrder, e), id);
  }

  lemma EntryIs(a: Access, id: Id)
    ensures Has(a, id) <==> id in a.queries
    ensures Entry(a, id) == if id in a.queries then Some(a.queries[id]) else None
  {
  }

  lemma ReadableIs(a: Access, id: Id)
    ensures Readable(a, id) <==> id in a.queries && a.queries[id].resultId.Some?
  {
  }

  ghost predicate NoRepeats(s: seq<Id>) {
    forall i, j :: 0 <= i < j < |s| ==> s[i] != s[j]
  }

  lemma OneMoreWithoutRepeats(s: seq<Id>, x: Id)
    requires NoRepeats(s) && x !in s
    ensures NoRepeats(s + [x])
  {
  }

  lemma {:induction false} SelectHasNoRepeats(sel: Selector, qs: map<Id, Query>, order: seq<Id>, now: Millis)
    requires NoRepeats(order)
    ensures NoRepeats(Select(sel, qs, order, now))
  {
    if order != [] {
      var init, last := order[..|order| - 1], order[|order| - 1];
      SelectHasNoRepeats(sel, qs, init, now);
      SelectedAre(sel, qs, init, now);
      assert last !in init;
      OneMoreWithoutRepeats(Select(sel, qs, init, now), last);
    }
  }

  lemma {:induction false} AsManyAsElements(s: seq<Id>, elements: set<Id>)
    requires NoRepeats(s) && forall x :: x in s <==> x in elements
    ensures |s| == |elements|
  {
    if s == [] {
      assert elements == {};
    } else {
      var init, last := s[..|s| - 1], s[|s| - 1];
      assert last !in init && s == init + [last];
      AsManyAsElements(init, elements - {last});
    }
  }

  /** The withdrawn results that are due. */
  function DueIds(qs: map<Id, Query>, now: Millis): set<Id> {
    set id | id in qs && CleanupDue(qs[id], now)
  }

  lemma DueAreSelected(a: Access, order: seq<Id>, now: Millis, id: Id)
    requires Lists(order, a.queries) && (Has(a, id) ==> ValidLimits(a.queries[id].limits))
    ensures id in Select(Selector.ToClean, a.queries, order, now) <==> id in DueIds(a.queries, now)
  {
    SelectedAre(Selector.ToClean, a.queries, order, now);
    if Has(a, id) { SelectionsAreTimes(a.queries[id], now); }
  }

  lemma FewAreAllTried(a: Access, order: seq<Id>, now: Millis, id: Id)
    requires Lists(order, a.queries) && Has(a, id)
    requires forall i :: i in a.queries ==> ValidLimits(a.queries[i].limits)
    requires |DueIds(a.queries, now)| <= 16
    ensures id in Tried(a, order, now) <==> CleanupDue(a.queries[id], now)
  {
    var all := Select(Selector.ToClean, a.queries, order, now);
    assert NoRepeats(order);
    SelectHasNoRepeats(Selector.ToClean, a.queries, order, now);
    assert id in DueIds(a.queries, now) <==> CleanupDue(a.queries[id], now);
    hide Select, CleanupDue, ValidLimits, DueIds, Lists, NoRepeats;
    forall i ensures i in all <==> i in DueIds(a.queries, now) {
      DueAreSelected(a, order, now, i);
    }
    AsManyAsElements(all, DueIds(a.queries, now));
    assert TakeFirst(all, 16) == all;
  }

  lemma OnDue(id: Id, q: Query, statuses: map<Id, Status>, now: Millis, q4: Query, leaves: bool, lets: bool,
              q': Option<Query>)
    requires q.cleanupPending && q.resultId.None? && q.accepted
    requires MaybeSubmitted(AfterDeadlines(q, id, statuses, now), q4)
    requires LastPasses(q, q4, leaves, CleanupDue(q, now), lets, now, q')
    ensures var due := q.readers == 0 && (q.cleanupRetryAt.None? || now >= q.cleanupRetryAt.value);
            && (q'.Some? <==> !(due && lets))
            && (q'.Some? ==>
                  && q'.value.cleanupPending && q'.value.readers == q.readers
                  && (!due ==> q'.value.cleanupRetryAt == q.cleanupRetryAt
                               && q'.value.cleanupAttempts == q.cleanupAttempts)
                  && (due ==> q'.value.cleanupAttempts >= Min(q.cleanupAttempts + 1, U32_MAX)
                              && q'.value.cleanupRetryAt == Some(now + CleanupRetryDelay(q'.value.cleanupAttempts))))
  {
    hide CleanupRetryDelay;
  }

  /** A withdrawn result that nobody reads is offered for release again exactly when its wait
      is over, as long as no more than sixteen are due; others are left as they are. */
  lemma WithdrawnResultsAreTriedAgain(steps: seq<Step>, w: World, now: Millis, order: seq<Id>, connOrder: seq<Id>,
                                      e: Answers, id: Id)
    requires Run(INITIAL_WORLD, steps, w) && Lists(order, w.access.queries) && Lists(connOrder, w.access.connections)
    requires Has(w.access, id) && w.access.queries[id].cleanupPending && w.access.queries[id].resultId.None?
    requires |DueIds(w.access.queries, now)| <= 16
    ensures var b, q := Maintain(w.access, now, order, connOrder, e), w.access.queries[id];
            var due := q.readers == 0 && (q.cleanupRetryAt.None? || now >= q.cleanupRetryAt.value);
            && (Has(b, id) <==> !(due && Lets(e.releases, id)))
            && (Has(b, id) ==> b.queries[id].cleanupPending && b.queries[id].readers == q.readers
                               && (!due ==> b.queries[id].cleanupRetryAt == q.cleanupRetryAt
                                            && b.queries[id].cleanupAttempts == q.cleanupAttempts)
                               && (due ==> b.queries[id].cleanupAttempts >= Min(q.cleanupAttempts + 1, U32_MAX)
                                           && b.queries[id].cleanupRetryAt
                                              == Some(now + CleanupRetryDelay(b.queries[id].cleanupAttempts))))
  {
    var q, b := w.access.queries[id], Maintain(w.access, now, order, connOrder, e);
    assert q.accepted && ValidLimits(q.limits) by { EntriesAreOk(steps, w, id); }
    AllLimitsAreValid(steps, w);
    hide *;
    var q4 := PassOnEntry(w.access, now, order, connOrder, e, id);
    FewAreAllTried(w.access, order, now, id);
    OnDue(id, q, e.statuses, now, q4, Leaves(w.access, q4.connection, now), Lets(e.releases, id), Entry(b, id));
    EntryIs(b, id);
  }

  lemma AllLimitsAreValid(steps: seq<Step>, w: World)
    requires Run(INITIAL_WORLD, steps, w)
    ensures forall i :: i in w.access.queries ==> ValidLimits(w.access.queries[i].limits)
  {
    forall i | i in w.access.queries ensures ValidLimits(w.access.queries[i].limits) { EntriesAreOk(steps, w, i); }
  }

  lemma OnCut(id: Id, q: Query, statuses: map<Id, Status>, now: Millis, q4: Query, tried: bool, lets: bool,
              q': Option<Query>)
    requires MaybeSubmitted(AfterDeadlines(q, id, statuses, now), q4) && LastPasses(q, q4, true, tried, lets, now, q')
    ensures q'.Some? && q'.value.state in {Queued, Running} ==> q'.value.accepted && q'.value.cancelRequested
  {
    var q5 := LeftBehind(q4);
    assert q5.state in {Queued, Running} ==> q5.accepted && q5.cancelRequested;
    hide CleanupRetryDelay, LeftBehind, AfterDeadlines, ResultOld, MaybeSubmitted;
  }

  lemma ConnectionStays(q: Query, id: Id, statuses: map<Id, Status>, now: Millis, q4: Query)
    requires MaybeSubmitted(AfterDeadlines(q, id, statuses, now), q4)
    ensures q4.connection == q.connection
  {
  }

  /** A connection leaves in a pass exactly if it has been silent for two minutes and has no
      grace, neither from before nor because this is the first pass after more than 35
      seconds; such a pass gives every connection thirty seconds of grace. */
  lemma StaleConnectionsLeave(a: Access, now: Millis, order: seq<Id>, connOrder: seq<Id>, e: Answers, conn: Id)
    requires Lists(order, a.queries) && Lists(connOrder, a.connections) && conn in a.connections
    ensures var b := Maintain(a, now, order, connOrder, e);
            var c := a.connections[conn];
            var woken := a.lastMaintenance.Some? && now > a.lastMaintenance.value + 35_000;
            && (conn in b.connections
                <==> !(c.authenticated && !woken && now >= c.lastHeartbeat + 120_000
                       && (c.graceUntil.None? || now >= c.graceUntil.value)))
            && (conn in b.connections ==>
                  b.connections[conn]
                  == if woken && c.authenticated then c.(graceUntil := Some(now + 30_000)) else c)
            && b.lastMaintenance == Some(now)
  {
    PassOnConnections(a, now, order, connOrder, e, conn);
    hide Maintain;
  }

  /** After the machine has slept, the first pass drops no connection. */
  lemma WakingUpDropsNobody(a: Access, now: Millis, order: seq<Id>, connOrder: seq<Id>, e: Answers, conn: Id)
    requires Lists(order, a.queries) && Lists(connOrder, a.connections) && conn in a.connections
    requires a.lastMaintenance.Some? && now > a.lastMaintenance.value + 35_000
    ensures conn in Maintain(a, now, order, connOrder, e).connections
  {
    StaleConnectionsLeave(a, now, order, connOrder, e, conn);
    hide Maintain;
  }

  /** With a connection that leaves go its snapshots, and its unfinished queries are cancelled,
      in the engine where it has them. */
  lemma StaleConnectionsLeaveNothing(steps: seq<Step>, w: World, now: Millis, order: seq<Id>, connOrder: seq<Id>,
                                     e: Answers, conn: Id, id: Id)
    requires Run(INITIAL_WORLD, steps, w) && Lists(order, w.access.queries) && Lists(connOrder, w.access.connections)
    requires conn in w.access.connections && conn !in Maintain(w.access, now, order, connOrder, e).connections
    ensures var a, b := w.access, Maintain(w.access, now, order, connOrder, e);
            && (forall s :: s in b.snapshots ==> b.snapshots[s].connection != conn)
            && (Has(a, id) && Has(b, id) && a.queries[id].connection == conn
                && b.queries[id].state in {Queued, Running} ==>
                  b.queries[id].accepted && b.queries[id].cancelRequested)
  {
    PassOnConnections(w.access, now, order, connOrder, e, conn);
    if Has(w.access, id) {
      EntriesAreOk(steps, w, id);
      hide *;
      var q, b := w.access.queries[id], Maintain(w.access, now, order, connOrder, e);
      var q4 := PassOnEntry(w.access, now, order, connOrder, e, id);
      ConnectionStays(q, id, e.statuses, now, q4);
      if q.connection == conn {
        OnCut(id, q, e.statuses, now, q4, id in Tried(w.access, order, now), Lets(e.releases, id), Entry(b, id));
      }
      EntryIs(b, id);
    }
  }

  lemma PassOnConnections(a: Access, now: Millis, order: seq<Id>, connOrder: seq<Id>, e: Answers, conn: Id)
    requires Lists(order, a.queries) && Lists(connOrder, a.connections) && conn in a.connections
    ensures var b := Maintain(a, now, order, connOrder, e);
            && b.lastMaintenance == Some(now)
            && (conn in b.connections <==> !Leaves(a, conn, now))
            && (conn in b.connections ==> b.connections[conn] == Begin(a, now).connections[conn])
            && (conn !in b.connections ==> forall s :: s in b.snapshots ==> b.snapshots[s].connection != conn)
  {
    var a0 := Begin(a, now);
    var polled := Select(Selector.ToPoll, a0.queries, order, now);
    var overdue := Select(Selector.QueueOverdue, a0.queries, order, now);
    var late := Select(Selector.RunOverdue, a0.queries, order, now);
    var expired := Select(Selector.Expired, a0.queries, order, now);
    var stale := StaleConnections(a0.connections, connOrder, now);
    var toClean := TakeFirst(Select(Selector.ToClean, a0.queries, order, now), MAX_CLEANUP_PENDING);
    StaleOnesLeave(a, now, connOrder, conn);
    assert a0.lastMaintenance == Some(now);
    hide Select, Begin, StaleConnections, PollAll, FailAll, RequestCancelAll, Schedule, DisconnectAll, UnpublishAll,
         CleanAll,
         PutOff, Leaves;
    var a1 := PollAll(a0, polled, e.statuses, now);
    PollOnEntry(a0, polled, e.statuses, now, "");
    var a2 := FailAll(a1, overdue);
    FailOnEntry(a1, overdue, "");
    var a3 := RequestCancelAll(a2, late);
    StopOnEntry(a2, late, "");
    var a4 := Schedule(a3, order, e.admission);
    ScheduleOnEntry(a3, order, e.admission, "");
    var a5 := DisconnectAll(a4, stale);
    DisconnectOnEntry(a4, stale, conn, "");
    var a6 := UnpublishAll(a5, expired);
    UnpublishOnEntry(a5, expired, "");
    CleanOnEntry(a6, Unread(a6.queries, toClean + expired), e.releases, now, "");
  }

  /** Each failed attempt doubles the wait, from two seconds up to a minute. */
  lemma BackOffDoubles(attempts: nat)
    requires attempts >= 1
    ensures CleanupRetryDelay(0) == CleanupRetryDelay(1) == 2_000
    ensures CleanupRetryDelay(attempts + 1) == Min(2 * CleanupRetryDelay(attempts), 60_000)
  {
    if attempts < 6 {
      var factors := [1, 2, 4, 8, 16, 32];
      assert attempts == 1 || attempts == 2 || attempts == 3 || attempts == 4 || attempts == 5;
    }
  }
}
