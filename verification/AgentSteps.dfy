/** What each operation of the agent access manager does to the query tables,
    as functions of the tables, the clock, the hash map's iteration order and
    the answers of the engine. */
module AgentSteps {
  import opened Basics
  import opened AgentState

  // ---------------------------------------------------------------------
  // Oracle answers.
  // ---------------------------------------------------------------------

  /** One status report of the engine; `bytes` is the published result, if any. */
  datatype Status = Status(state: ExecutionState, bytes: Option<nat>)

  /** Outcome of the grant check, reclassification and engine submission. */
  datatype Admission = EngineAccepts | SnapshotStale | EngineRejects

  datatype Release = Released | ResultMissing | ReleaseFails

  // ---------------------------------------------------------------------
  // Small steps on one entry.
  // ---------------------------------------------------------------------

  function Prune(a: Access, now: Millis): Access {
    a.(connections := map c | c in a.connections
                        && (a.connections[c].authenticated
                            || Elapsed(now, a.connections[c].createdAt) < CHALLENGE_LIFETIME)
                        :: a.connections[c],
       snapshots := map s | s in a.snapshots
                      && Elapsed(now, a.snapshots[s].createdAt) < SQL_SNAPSHOT_LIFETIME
                      :: a.snapshots[s])
  }

  function Unreserve(snapshots: map<Id, Snapshot>, sid: Option<Id>): map<Id, Snapshot> {
    if sid.Some? && sid.value in snapshots
    then snapshots[sid.value := snapshots[sid.value].(reserved := false)]
    else snapshots
  }

  function DropSnapshot(snapshots: map<Id, Snapshot>, sid: Option<Id>): map<Id, Snapshot> {
    if sid.Some? then snapshots - {sid.value} else snapshots
  }

  function SetQuery(a: Access, id: Id, q: Query): Access {
    a.(queries := a.queries[id := q])
  }

  function FailQueued(a: Access, id: Id, code: string): Access {
    if id !in a.queries then a
    else
      var q := a.queries[id];
      SetQuery(a, id, q.(state := Failed, claimed := false, error := Some(code), snapshotId := None))
      .(snapshots := Unreserve(a.snapshots, q.snapshotId))
  }

  function CancelUnaccepted(a: Access, id: Id): Access {
    if id !in a.queries then a
    else
      var q := a.queries[id];
      SetQuery(a, id, q.(cancelRequested := true, state := Cancelled, snapshotId := None))
      .(snapshots := Unreserve(a.snapshots, q.snapshotId))
  }

  function RequestCancel(a: Access, id: Id): Access {
    if id !in a.queries then a
    else SetQuery(a, id, a.queries[id].(cancelRequested := true))
  }

  function FinishAccepted(a: Access, id: Id): Access {
    if id !in a.queries then a
    else
      var q := a.queries[id];
      SetQuery(a, id, q.(accepted := true, claimed := false, snapshotId := None))
      .(snapshots := DropSnapshot(a.snapshots, q.snapshotId))
  }

  function ApplyStatus(a: Access, id: Id, status: Status, now: Millis): Access {
    if id !in a.queries then a
    else
      var q := a.queries[id];
      var observed := q.(
        state := status.state,
        runningAt := if status.state.Running? && q.runningAt.None? then Some(now) else q.runningAt);
      SetQuery(a, id,
        if status.bytes.None? then observed
        else observed.(
          resultId := Some(id),
          cacheBytes := status.bytes,
          publishedAt := if q.publishedAt.None? then Some(now) else q.publishedAt,
          lastAccessedAt := if q.lastAccessedAt.None? then Some(now) else q.lastAccessedAt))
  }

  function Unpublish(a: Access, id: Id): Access {
    if id !in a.queries then a
    else SetQuery(a, id, a.queries[id].(resultId := None, cleanupPending := true, cleanupRetryAt := None))
  }

  function RemoveQuery(a: Access, id: Id): Access {
    a.(queries := a.queries - {id})
  }

  function CleanupRetryDelay(attempts: nat): Millis {
    var shift := Min(if attempts == 0 then 0 else attempts - 1, 5);
    Min(CLEANUP_RETRY_BASE * [1, 2, 4, 8, 16, 32][shift], CLEANUP_RETRY_MAX)
  }

  function Postpone(a: Access, id: Id, attempts: nat, retryAt: Millis): Access {
    if id !in a.queries then a
    else SetQuery(a, id, a.queries[id].(cleanupAttempts := attempts, cleanupRetryAt := Some(retryAt)))
  }

  // ---------------------------------------------------------------------
  // Admission.
  // ---------------------------------------------------------------------

  datatype StartOutcome =
    | Admitted | CleanupBacklog | CacheLimit | ResultLimit | QueryLimit
    | SnapshotMissing | SnapshotOwnerMismatch | SafeReadRequired

  ghost function StartCheck(a: Access, limits: Limits, profile: Id, conn: Id, sid: Id): StartOutcome {
    var qs := a.queries;
    if Total(CleanupPending, qs) >= MAX_CLEANUP_PENDING then CleanupBacklog
    else if SaturatingAdd(Total(BytesOf(profile), qs), limits.maximumResultBytes, U64_MAX) > limits.profileCacheBytes
         || SaturatingAdd(Total(Bytes, qs), limits.maximumResultBytes, U64_MAX) > limits.globalCacheBytes
    then CacheLimit
    else if Total(RetainedOf(profile), qs) >= limits.retainedResultLimit
         || Total(Retained, qs) >= MAX_AGENT_RESULTS_GLOBAL
    then ResultLimit
    else if Total(OutstandingOf(profile), qs) >= limits.outstandingQueryLimit
         || Total(Outstanding, qs) >= MAX_AGENT_QUERIES_GLOBAL
    then QueryLimit
    else if sid !in a.snapshots then SnapshotMissing
    else if a.snapshots[sid].connection != conn || a.snapshots[sid].reserved then SnapshotOwnerMismatch
    else if !a.snapshots[sid].decision.SafeRead? then SafeReadRequired
    else Admitted
  }

  function NewQuery(profile: Id, conn: Id, sid: Id, limits: Limits, now: Millis): Query {
    Query(profile, conn, Some(sid), false, false, now, None, Queued, None, None, false, false, 0,
          None, None, 0, None, None, limits)
  }

  function Admit(a: Access, limits: Limits, profile: Id, conn: Id, sid: Id, eid: Id, now: Millis): Access
    requires sid in a.snapshots
  {
    SetQuery(a, eid, NewQuery(profile, conn, sid, limits, now))
    .(snapshots := a.snapshots[sid := a.snapshots[sid].(reserved := true)])
  }

  // ---------------------------------------------------------------------
  // Round-robin scheduling.
  // ---------------------------------------------------------------------

  predicate Schedulable(q: Query) {
    !q.accepted && !q.claimed && q.state.Queued?
  }

  function SchedulableProfiles(qs: map<Id, Query>, order: seq<Id>): seq<Id> {
    if order == [] then []
    else
      var init := SchedulableProfiles(qs, order[..|order| - 1]);
      var id := order[|order| - 1];
      if id in qs && Schedulable(qs[id]) then init + [qs[id].profile] else init
  }

  function InsertDistinct(sorted: seq<Id>, x: Id): seq<Id> {
    if sorted == [] then [x]
    else if sorted[0] == x then sorted
    else if Before(x, sorted[0]) then [x] + sorted
    else [sorted[0]] + InsertDistinct(sorted[1..], x)
  }

  function SortedDistinct(xs: seq<Id>): seq<Id> {
    if xs == [] then [] else InsertDistinct(SortedDistinct(xs[..|xs| - 1]), xs[|xs| - 1])
  }

  function FirstAfter(sorted: seq<Id>, last: Id): Option<Id> {
    if sorted == [] then None
    else if Before(last, sorted[0]) then Some(sorted[0])
    else FirstAfter(sorted[1..], last)
  }

  function NextProfile(last: Option<Id>, profiles: seq<Id>): Option<Id> {
    var sorted := SortedDistinct(profiles);
    if sorted == [] then None
    else if last.Some? && FirstAfter(sorted, last.value).Some? then FirstAfter(sorted, last.value)
    else Some(sorted[0])
  }

  /** The first earliest-admitted schedulable query of a profile, in iteration order. */
  function Earliest(qs: map<Id, Query>, order: seq<Id>, profile: Id): (best: Option<Id>)
    ensures best.Some? ==> best.value in qs && qs[best.value].profile == profile && Schedulable(qs[best.value])
  {
    if order == [] then None
    else
      var best := Earliest(qs, order[..|order| - 1], profile);
      var id := order[|order| - 1];
      if id in qs && qs[id].profile == profile && Schedulable(qs[id])
         && (best.None? || qs[id].admittedAt < qs[best.value].admittedAt)
      then Some(id) else best
  }

  predicate EngineBusy(qs: map<Id, Query>) {
    exists id :: id in qs && InFlight(qs[id])
  }

  /** The profile and query that a scheduling pass would pick. */
  function Candidate(a: Access, order: seq<Id>): (pick: Option<Id>)
    ensures pick.Some? ==> !EngineBusy(a.queries) && pick.value in a.queries && Schedulable(a.queries[pick.value])
  {
    if EngineBusy(a.queries) then None
    else
      var profile := NextProfile(a.lastScheduled, SchedulableProfiles(a.queries, order));
      if profile.None? then None else Earliest(a.queries, order, profile.value)
  }

  /** First locked section of a scheduling pass. */
  function Claim(a: Access, order: seq<Id>): Access {
    var pick := Candidate(a, order);
    if pick.None? then a
    else
      var q := a.queries[pick.value];
      SetQuery(a, pick.value, q.(claimed := true)).(lastScheduled := Some(q.profile))
  }

  /** Second locked section of a scheduling pass. */
  function Finish(a: Access, id: Id, admission: Admission): Access {
    match admission
    case EngineAccepts => FinishAccepted(a, id)
    case SnapshotStale => FailQueued(a, id, "agent.snapshot_stale")
    case EngineRejects => FailQueued(a, id, "agent.engine_admission")
  }

  function Schedule(a: Access, order: seq<Id>, admission: Admission): Access {
    var pick := Candidate(a, order);
    if pick.None? then a else Finish(Claim(a, order), pick.value, admission)
  }

  // ---------------------------------------------------------------------
  // Disconnection.
  // ---------------------------------------------------------------------

  predicate CutOff(q: Query, conn: Id) {
    q.connection == conn && IsOutstanding(q.state)
  }

  function CutQuery(q: Query, conn: Id): Query {
    if !CutOff(q, conn) then q
    else q.(cancelRequested := true, snapshotId := None, state := if q.accepted then q.state else Cancelled)
  }

  ghost predicate FreedByCut(qs: map<Id, Query>, conn: Id, sid: Id) {
    exists id :: id in qs && CutOff(qs[id], conn) && !qs[id].accepted && qs[id].snapshotId == Some(sid)
  }

  ghost function Disconnect(a: Access, conn: Id): Access {
    a.(connections := a.connections - {conn},
       snapshots := map s | s in a.snapshots && a.snapshots[s].connection != conn
                      :: if FreedByCut(a.queries, conn, s)
                         then a.snapshots[s].(reserved := false) else a.snapshots[s],
       queries := map id | id in a.queries :: CutQuery(a.queries[id], conn))
  }

  // ---------------------------------------------------------------------
  // Maintenance: selections over the table, then one pass per selection.
  // ---------------------------------------------------------------------

  datatype Selector = ToPoll | QueueOverdue | RunOverdue | Expired | ToClean

  predicate ResultExpired(now: Millis, publishedAt: Option<Millis>, lastAccessedAt: Option<Millis>) {
    publishedAt.Some?
    && (Elapsed(now, publishedAt.value) >= RESULT_ABSOLUTE_LIFETIME
        || Elapsed(now, if lastAccessedAt.Some? then lastAccessedAt.value else publishedAt.value)
           >= RESULT_IDLE_LIFETIME)
  }

  predicate Selects(sel: Selector, q: Query, now: Millis) {
    match sel
    case ToPoll => InFlight(q)
    case QueueOverdue =>
      !q.accepted && q.state.Queued? && Elapsed(now, q.admittedAt) >= q.limits.queueDeadlineSeconds * 1000
    case RunOverdue =>
      InFlight(q) && q.runningAt.Some?
      && Elapsed(now, q.runningAt.value) >= q.limits.executionDeadlineSeconds * 1000
    case Expired => q.resultId.Some? && ResultExpired(now, q.publishedAt, q.lastAccessedAt)
    case ToClean =>
      q.cleanupPending && q.readers == 0 && (q.cleanupRetryAt.None? || q.cleanupRetryAt.value <= now)
  }

  function Select(sel: Selector, qs: map<Id, Query>, order: seq<Id>, now: Millis): seq<Id> {
    if order == [] then []
    else
      var init := Select(sel, qs, order[..|order| - 1], now);
      var id := order[|order| - 1];
      if id in qs && Selects(sel, qs[id], now) then init + [id] else init
  }

  lemma {:induction false} SelectedAre(sel: Selector, qs: map<Id, Query>, order: seq<Id>, now: Millis)
    ensures forall id :: id in Select(sel, qs, order, now) <==> id in order && id in qs && Selects(sel, qs[id], now)
  {
    if order != [] {
      SelectedAre(sel, qs, order[..|order| - 1], now);
      assert order == order[..|order| - 1] + [order[|order| - 1]];
    }
  }

  function TakeFirst(xs: seq<Id>, n: nat): seq<Id> {
    xs[..Min(n, |xs|)]
  }

  predicate Stale(c: Connection, now: Millis) {
    c.authenticated && (c.graceUntil.None? || c.graceUntil.value <= now)
    && Elapsed(now, c.lastHeartbeat) >= CONNECTION_LEASE
  }

  function StaleConnections(cs: map<Id, Connection>, order: seq<Id>, now: Millis): seq<Id> {
    if order == [] then []
    else
      var init := StaleConnections(cs, order[..|order| - 1], now);
      var id := order[|order| - 1];
      if id in cs && Stale(cs[id], now) then init + [id] else init
  }

  function Unread(qs: map<Id, Query>, ids: seq<Id>): seq<Id> {
    if ids == [] then []
    else
      var init := Unread(qs, ids[..|ids| - 1]);
      var id := ids[|ids| - 1];
      if id in qs && qs[id].readers == 0 then init + [id] else init
  }

  lemma {:induction false} UnreadAre(qs: map<Id, Query>, ids: seq<Id>)
    ensures forall id :: id in Unread(qs, ids) <==> id in ids && id in qs && qs[id].readers == 0
  {
    if ids != [] {
      UnreadAre(qs, ids[..|ids| - 1]);
      assert ids == ids[..|ids| - 1] + [ids[|ids| - 1]];
    }
  }

  /** Answers the engine gives during one maintenance pass; an identifier that a
      map lacks stands for a failed or empty answer. */
  datatype Answers = Answers(statuses: map<Id, Status>, releases: map<Id, Release>, admission: Admission)

  function Graced(c: Connection, gap: bool, now: Millis): Connection {
    if gap && c.authenticated then c.(graceUntil := Some(now + RESUME_SAFE_GRACE)) else c
  }

  function Begin(a: Access, now: Millis): Access {
    var gap := a.lastMaintenance.Some?
               && Elapsed(now, a.lastMaintenance.value) > MAINTENANCE_INTERVAL + RESUME_SAFE_GRACE;
    a.(lastMaintenance := Some(now),
       connections := map c | c in a.connections :: Graced(a.connections[c], gap, now))
  }

  function PollAll(a: Access, ids: seq<Id>, statuses: map<Id, Status>, now: Millis): Access {
    if ids == [] then a
    else
      var init := PollAll(a, ids[..|ids| - 1], statuses, now);
      var id := ids[|ids| - 1];
      if id in statuses then ApplyStatus(init, id, statuses[id], now) else init
  }

  function FailAll(a: Access, ids: seq<Id>): Access {
    if ids == [] then a
    else FailQueued(FailAll(a, ids[..|ids| - 1]), ids[|ids| - 1], "agent.queue_deadline")
  }

  function RequestCancelAll(a: Access, ids: seq<Id>): Access {
    if ids == [] then a
    else RequestCancel(RequestCancelAll(a, ids[..|ids| - 1]), ids[|ids| - 1])
  }

  ghost function DisconnectAll(a: Access, conns: seq<Id>): Access {
    if conns == [] then a
    else Disconnect(DisconnectAll(a, conns[..|conns| - 1]), conns[|conns| - 1])
  }

  function UnpublishAll(a: Access, ids: seq<Id>): Access {
    if ids == [] then a
    else Unpublish(UnpublishAll(a, ids[..|ids| - 1]), ids[|ids| - 1])
  }

  function CleanOne(a: Access, id: Id, release: Release, now: Millis): Access {
    match release
    case Released => RemoveQuery(a, id)
    case ResultMissing => RemoveQuery(a, id)
    case ReleaseFails =>
      if id !in a.queries then a
      else
        var attempts := SaturatingAdd(a.queries[id].cleanupAttempts, 1, U32_MAX);
        Postpone(a, id, attempts, now + CleanupRetryDelay(attempts))
  }

  function CleanAll(a: Access, ids: seq<Id>, releases: map<Id, Release>, now: Millis): Access {
    if ids == [] then a
    else
      var init := CleanAll(a, ids[..|ids| - 1], releases, now);
      var id := ids[|ids| - 1];
      CleanOne(init, id, if id in releases then releases[id] else ReleaseFails, now)
  }

  ghost function Maintain(a: Access, now: Millis, order: seq<Id>, connOrder: seq<Id>, e: Answers): Access {
    var a0 := Begin(a, now);
    var stale := StaleConnections(a0.connections, connOrder, now);
    var toPoll := Select(ToPoll, a0.queries, order, now);
    var overdue := Select(QueueOverdue, a0.queries, order, now);
    var late := Select(RunOverdue, a0.queries, order, now);
    var expired := Select(Expired, a0.queries, order, now);
    var toClean := TakeFirst(Select(ToClean, a0.queries, order, now), MAX_CLEANUP_PENDING);
    var a1 := PollAll(a0, toPoll, e.statuses, now);
    var a2 := FailAll(a1, overdue);
    var a3 := RequestCancelAll(a2, late);
    var a4 := Schedule(a3, order, e.admission);
    var a5 := DisconnectAll(a4, stale);
    var a6 := UnpublishAll(a5, expired);
    CleanAll(a6, Unread(a6.queries, toClean + expired), e.releases, now)
  }

  // ---------------------------------------------------------------------
  // Requests of agents and of the desktop.
  // ---------------------------------------------------------------------

  predicate Authenticated(a: Access, conn: Id) {
    conn in a.connections && a.connections[conn].authenticated
  }

  predicate Owns(a: Access, conn: Id, id: Id) {
    Authenticated(a, conn) && id in a.queries && a.queries[id].profile == a.connections[conn].profile
  }

  ghost function Start(a: Access, limits: Limits, conn: Id, sid: Id, eid: Id, now: Millis,
                       order: seq<Id>, admission: Admission): Access {
    var p := Prune(a, now);
    if !Authenticated(p, conn) || !ValidLimits(limits) then p
    else
      var profile := p.connections[conn].profile;
      if StartCheck(p, limits, profile, conn, sid) != Admitted then p
      else Schedule(Admit(p, limits, profile, conn, sid, eid, now), order, admission)
  }

  /** A status request; `answer` is the engine's report on an accepted query. */
  function QueryStatus(a: Access, conn: Id, id: Id, granted: bool, answer: Option<Status>, now: Millis,
                       order: seq<Id>, admission: Admission): Access {
    var p := Prune(a, now);
    if !Owns(p, conn, id) || !granted then p
    else if !p.queries[id].accepted then Schedule(p, order, admission)
    else if answer.None? then p
    else Schedule(ApplyStatus(p, id, answer.value, now), order, admission)
  }

  /** The first part of a cancellation request: an unaccepted query is cancelled in
      the table and a scheduling pass follows; an accepted one is only marked. */
  function BeginCancel(a: Access, conn: Id, id: Id, granted: bool, now: Millis,
                       order: seq<Id>, admission: Admission): Access {
    var p := Prune(a, now);
    if !Owns(p, conn, id) || !granted then p
    else if !p.queries[id].accepted then Schedule(CancelUnaccepted(p, id), order, admission)
    else RequestCancel(p, id)
  }

  /** A cancellation request ends like a status request, unless the engine no
      longer knows the query. */
  function CancelQuery(a: Access, conn: Id, id: Id, granted: bool, known: bool, answer: Option<Status>,
                       now: Millis, order: seq<Id>, first: Admission, second: Admission): Access {
    var p := Prune(a, now);
    var b := BeginCancel(a, conn, id, granted, now, order, first);
    if !Owns(p, conn, id) || !granted || (p.queries[id].accepted && !known) then b
    else QueryStatus(b, conn, id, granted, answer, now, order, second)
  }

  function DesktopCancel(a: Access, id: Id): Access {
    if id !in a.queries || !IsOutstanding(a.queries[id].state) then a
    else if !a.queries[id].accepted then CancelUnaccepted(a, id)
    else RequestCancel(a, id)
  }

  function ReleaseResult(a: Access, conn: Id, id: Id, granted: bool, release: Release, now: Millis): Access {
    var p := Prune(a, now);
    if !Owns(p, conn, id) || p.queries[id].resultId != Some(id) || !granted then p
    else
      var u := Unpublish(p, id);
      if u.queries[id].readers > 0 then u
      else if release.ReleaseFails? then Postpone(u, id, 1, now + CLEANUP_RETRY_BASE)
      else RemoveQuery(u, id)
  }

  /** Withdraws a result on behalf of the desktop. */
  function RemoveAuthority(a: Access, id: Id, release: Release, now: Millis): Access {
    if id !in a.queries then a
    else
      var u := Unpublish(a, id);
      if u.queries[id].readers > 0 then u
      else if release.ReleaseFails? then
        Postpone(u, id, SaturatingAdd(u.queries[id].cleanupAttempts, 1, U32_MAX), now + CLEANUP_RETRY_BASE)
      else RemoveQuery(u, id)
  }

  function DesktopRelease(a: Access, id: Id, release: Release, now: Millis): Access {
    if id !in a.queries || a.queries[id].resultId != Some(id) then a
    else RemoveAuthority(a, id, release, now)
  }

  function BeginPage(a: Access, conn: Id, id: Id, granted: bool, now: Millis): Access {
    var p := Prune(a, now);
    if !Owns(p, conn, id) || p.queries[id].resultId != Some(id) || !granted then p
    else SetQuery(p, id, p.queries[id].(readers := SaturatingAdd(p.queries[id].readers, 1, U32_MAX)))
  }

  function EndPage(a: Access, id: Id, ok: bool, now: Millis): Access {
    if id !in a.queries then a
    else
      var q := a.queries[id];
      SetQuery(a, id, q.(readers := if q.readers == 0 then 0 else q.readers - 1,
                         lastAccessedAt := if ok then Some(now) else q.lastAccessedAt))
  }

  /** Records a freshly classified statement, unless the snapshot table is full. */
  function Classify(a: Access, conn: Id, sid: Id, decision: Decision, now: Millis): Access {
    var p := Prune(a, now);
    if !Authenticated(p, conn) || |p.snapshots| >= MAX_SQL_SNAPSHOTS then p
    else p.(snapshots := p.snapshots[sid := Snapshot(conn, decision, now, false)])
  }

  /** Proposing, explaining and exporting all take the snapshot out of the table,
      whoever holds it and even when the request is then refused. */
  function TakeSnapshot(a: Access, sid: Id, now: Millis): Access {
    var p := Prune(a, now);
    p.(snapshots := p.snapshots - {sid})
  }

  function Heartbeat(a: Access, conn: Id, now: Millis): Access {
    var p := Prune(a, now);
    if !Authenticated(p, conn) then p
    else p.(connections := p.connections[conn := p.connections[conn].(lastHeartbeat := now, graceUntil := None)])
  }

  /** A completed handshake: a new authenticated connection of a profile. */
  function Connect(a: Access, conn: Id, profile: Id, now: Millis): Access {
    var p := Prune(a, now);
    p.(connections := p.connections[conn := Connection(profile, true, now, now, None)])
  }
}
