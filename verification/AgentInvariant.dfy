/** Safety of the agent query tables over every run: byte and entry budgets,
    one query in the engine at a time, and one holder per reserved snapshot. */
module AgentInvariant {
  import opened Basics
  import opened AgentState
  import opened AgentSteps

  // ---------------------------------------------------------------------
  // The engine, seen from the manager.
  // ---------------------------------------------------------------------

  /** One submitted execution: the result cap it was given, its state and its
      published result. */
  datatype Execution = Execution(cap: nat, state: ExecutionState, bytes: Option<nat>)

  /** Only a succeeded execution has a result, and no result exceeds its cap. */
  predicate Honest(e: Execution) {
    e.bytes.Some? ==> e.state.Succeeded? && e.bytes.value <= e.cap
  }

  /** The engine moves an execution on; a terminal execution stays as it is. */
  predicate Advances(e: Execution, e': Execution) {
    e'.cap == e.cap && Honest(e') && (!IsOutstanding(e.state) ==> e' == e)
  }

  /** A report repeats the execution's state and its result; a result that the
      manager has already recorded may be missing from a later report. */
  predicate Reports(e: Execution, q: Query, status: Status) {
    && status.state == e.state
    && (status.bytes == e.bytes || (status.bytes.None? && q.cacheBytes.Some?))
  }

  datatype World = World(limits: Limits, access: Access, engine: map<Id, Execution>)

  // ---------------------------------------------------------------------
  // The invariant.
  // ---------------------------------------------------------------------

  predicate EntryOk(id: Id, q: Query, engine: map<Id, Execution>) {
    && ValidLimits(q.limits)
    && !q.claimed
    && (q.accepted <==> id in engine)
    && (!q.accepted ==> !q.state.Running? && !q.state.Succeeded? && q.cacheBytes.None?)
    && (q.accepted ==>
          && engine[id].cap == q.limits.maximumResultBytes
          && (q.cacheBytes.Some? ==> engine[id].bytes == q.cacheBytes)
          && (!IsOutstanding(q.state) ==> engine[id].state == q.state && engine[id].bytes == q.cacheBytes))
    && (q.cacheBytes.Some? <==> q.resultId.Some? || q.cleanupPending)
    && (q.resultId.Some? ==> q.resultId == Some(id))
    && (q.snapshotId.Some? ==> !q.accepted && q.state.Queued?)
  }

  predicate Holds(a: Access, id: Id, sid: Id) {
    id in a.queries && a.queries[id].snapshotId == Some(sid)
  }

  /** A reserved snapshot is held by a query, a held snapshot that still exists
      is reserved, and no two queries hold the same one. */
  ghost predicate Reservations(a: Access) {
    && (forall sid :: sid in a.snapshots && a.snapshots[sid].reserved ==> exists id :: Holds(a, id, sid))
    && (forall id, sid :: Holds(a, id, sid) && sid in a.snapshots ==> a.snapshots[sid].reserved)
    && (forall i, j, sid :: Holds(a, i, sid) && Holds(a, j, sid) ==> i == j)
  }

  const PROFILE_BYTE_CEILING: nat := 512 * MIB
  const GLOBAL_BYTE_CEILING: nat := 1024 * MIB
  const LIVE_CEILING: nat := 31 + 15 + 16

  ghost predicate Budgets(qs: map<Id, Query>) {
    && Total(Bytes, qs) <= GLOBAL_BYTE_CEILING
    && (forall p :: Total(BytesOf(p), qs) <= PROFILE_BYTE_CEILING)
    && Total(Outstanding, qs) <= MAX_AGENT_QUERIES_GLOBAL
    && (forall p :: Total(OutstandingOf(p), qs) <= 8)
    && Total(Live, qs) <= LIVE_CEILING
    && Total(Busy, qs) <= 1
  }

  ghost predicate Inv(w: World) {
    && ValidLimits(w.limits)
    && (forall id :: id in w.engine ==> Honest(w.engine[id]))
    && (forall id :: id in w.access.queries ==> EntryOk(id, w.access.queries[id], w.engine))
    && Reservations(w.access)
    && Budgets(w.access.queries)
  }

  // ---------------------------------------------------------------------
  // Steps that only shrink the table.
  // ---------------------------------------------------------------------

  lemma ShrinkingKeepsBudgets(qs: map<Id, Query>, qs': map<Id, Query>)
    requires Budgets(qs) && Shrinks(qs, qs')
    ensures Budgets(qs')
  {
    ShrinkingLowersTotals(Bytes, qs, qs');
    ShrinkingLowersTotals(Outstanding, qs, qs');
    ShrinkingLowersTotals(Live, qs, qs');
    ShrinkingLowersTotals(Busy, qs, qs');
    forall p ensures Total(BytesOf(p), qs') <= PROFILE_BYTE_CEILING {
      ShrinkingLowersTotals(BytesOf(p), qs, qs');
    }
    forall p ensures Total(OutstandingOf(p), qs') <= 8 {
      ShrinkingLowersTotals(OutstandingOf(p), qs, qs');
    }
  }

  /** Every kind of step that admits nothing and submits nothing. */
  ghost predicate Settles(w: World, w': World) {
    && w'.limits == w.limits && w'.engine == w.engine
    && Shrinks(w.access.queries, w'.access.queries)
    && (forall id :: id in w'.access.queries ==> EntryOk(id, w'.access.queries[id], w.engine))
    && Reservations(w'.access)
  }

  lemma SettlingKeepsInv(w: World, w': World)
    requires Inv(w) && Settles(w, w')
    ensures Inv(w')
  {
    ShrinkingKeepsBudgets(w.access.queries, w'.access.queries);
  }

  function With(w: World, a: Access): World {
    w.(access := a)
  }

  lemma PruneKeepsInv(w: World, now: Millis)
    requires Inv(w)
    ensures Inv(With(w, Prune(w.access, now)))
  {
    var a, a' := w.access, Prune(w.access, now);
    assert forall id, sid :: Holds(a', id, sid) <==> Holds(a, id, sid);
    SettlingKeepsInv(w, With(w, a'));
  }

  /** Replacing one entry by a lighter one that keeps its snapshot. */
  lemma RewriteKeepsInv(w: World, id: Id, q: Query)
    requires Inv(w) && id in w.access.queries
    requires Lighter(w.access.queries[id], q) && EntryOk(id, q, w.engine)
    requires q.snapshotId == w.access.queries[id].snapshotId
    ensures Inv(With(w, SetQuery(w.access, id, q)))
  {
    var a, a' := w.access, SetQuery(w.access, id, q);
    assert forall i, sid :: Holds(a', i, sid) <==> Holds(a, i, sid);
    SettlingKeepsInv(w, With(w, a'));
  }

  /** Table `a'` differs from `a` in that entry `id` no longer holds a snapshot,
      and the snapshot it held is unreserved or gone. */
  ghost predicate LetsGo(a: Access, a': Access, id: Id) {
    && (forall i, sid :: Holds(a', i, sid) <==> i != id && Holds(a, i, sid))
    && (forall sid :: sid in a'.snapshots ==>
          sid in a.snapshots && (a'.snapshots[sid].reserved <==> a.snapshots[sid].reserved && !Holds(a, id, sid)))
  }

  lemma LettingGoKeepsReservations(a: Access, a': Access, id: Id)
    requires Reservations(a) && LetsGo(a, a', id)
    ensures Reservations(a')
  {
    forall sid | sid in a'.snapshots && a'.snapshots[sid].reserved
      ensures exists i :: Holds(a', i, sid)
    {
      var i :| Holds(a, i, sid);
      assert Holds(a', i, sid);
    }
  }

  /** Giving up a held snapshot: the entry lets go of it and it is unreserved. */
  function GiveUp(a: Access, id: Id, q: Query): Access
    requires id in a.queries
  {
    SetQuery(a, id, q).(snapshots := Unreserve(a.snapshots, a.queries[id].snapshotId))
  }

  lemma GiveUpLetsGo(a: Access, id: Id, q: Query)
    requires id in a.queries && q.snapshotId == None && Reservations(a)
    ensures LetsGo(a, GiveUp(a, id, q), id)
  {
    var a' := GiveUp(a, id, q);
    assert forall i, sid :: Holds(a', i, sid) <==> i != id && Holds(a, i, sid);
    if a.queries[id].snapshotId.Some? {
      assert Holds(a, id, a.queries[id].snapshotId.value);
    }
  }

  lemma LettingGoKeepsInv(w: World, id: Id, q: Query)
    requires Inv(w) && id in w.access.queries
    requires Lighter(w.access.queries[id], q) && EntryOk(id, q, w.engine) && q.snapshotId == None
    ensures Inv(With(w, GiveUp(w.access, id, q)))
  {
    GiveUpLetsGo(w.access, id, q);
    LettingGoKeepsReservations(w.access, GiveUp(w.access, id, q), id);
    SettlingKeepsInv(w, With(w, GiveUp(w.access, id, q)));
  }

  lemma FailQueuedKeepsInv(w: World, id: Id, code: string)
    requires Inv(w) && (id in w.access.queries ==> !w.access.queries[id].accepted)
    ensures Inv(With(w, FailQueued(w.access, id, code)))
  {
    if id in w.access.queries {
      var q := w.access.queries[id];
      LettingGoKeepsInv(w, id, q.(state := Failed, claimed := false, error := Some(code), snapshotId := None));
    }
  }

  lemma CancelUnacceptedKeepsInv(w: World, id: Id)
    requires Inv(w) && (id in w.access.queries ==> !w.access.queries[id].accepted)
    ensures Inv(With(w, CancelUnaccepted(w.access, id)))
  {
    if id in w.access.queries {
      var q := w.access.queries[id];
      LettingGoKeepsInv(w, id, q.(cancelRequested := true, state := Cancelled, snapshotId := None));
    }
  }

  lemma RequestCancelKeepsInv(w: World, id: Id)
    requires Inv(w)
    ensures Inv(With(w, RequestCancel(w.access, id)))
  {
    if id in w.access.queries {
      RewriteKeepsInv(w, id, w.access.queries[id].(cancelRequested := true));
    }
  }

  lemma ApplyStatusKeepsInv(w: World, id: Id, status: Status, now: Millis)
    requires Inv(w)
    requires id in w.access.queries ==>
      w.access.queries[id].accepted && Reports(w.engine[id], w.access.queries[id], status)
    ensures Inv(With(w, ApplyStatus(w.access, id, status, now)))
  {
    if id in w.access.queries {
      RewriteKeepsInv(w, id, ApplyStatus(w.access, id, status, now).queries[id]);
    }
  }

  lemma UnpublishKeepsInv(w: World, id: Id)
    requires Inv(w) && (id in w.access.queries ==> w.access.queries[id].cacheBytes.Some?)
    ensures Inv(With(w, Unpublish(w.access, id)))
  {
    if id in w.access.queries {
      RewriteKeepsInv(w, id, Unpublish(w.access, id).queries[id]);
    }
  }

  lemma PostponeKeepsInv(w: World, id: Id, attempts: nat, retryAt: Millis)
    requires Inv(w)
    ensures Inv(With(w, Postpone(w.access, id, attempts, retryAt)))
  {
    if id in w.access.queries {
      RewriteKeepsInv(w, id, Postpone(w.access, id, attempts, retryAt).queries[id]);
    }
  }

  lemma RemoveKeepsInv(w: World, id: Id)
    requires Inv(w) && (id in w.access.queries ==> w.access.queries[id].cacheBytes.Some?)
    ensures Inv(With(w, RemoveQuery(w.access, id)))
  {
    var a, a' := w.access, RemoveQuery(w.access, id);
    assert forall i, sid :: Holds(a', i, sid) <==> Holds(a, i, sid);
    SettlingKeepsInv(w, With(w, a'));
  }

  /** Who holds a snapshot after a disconnection. */
  lemma HoldsAfterCut(a: Access, conn: Id, i: Id, sid: Id)
    ensures Holds(Disconnect(a, conn), i, sid) <==> Holds(a, i, sid) && !CutOff(a.queries[i], conn)
  {
  }

  /** A snapshot whose holder keeps it is not freed. */
  lemma KeptIsNotFreed(a: Access, conn: Id, i: Id, sid: Id)
    requires Reservations(a) && Holds(a, i, sid) && !CutOff(a.queries[i], conn)
    ensures !FreedByCut(a.queries, conn, sid)
  {
    hide CutOff;
    forall j | j in a.queries && a.queries[j].snapshotId == Some(sid)
      ensures j == i
    {
      assert Holds(a, j, sid);
    }
  }

  /** A snapshot whose unsubmitted holder is cut off is freed. */
  lemma CutIsFreed(a: Access, conn: Id, i: Id, sid: Id)
    requires Holds(a, i, sid) && !a.queries[i].accepted && CutOff(a.queries[i], conn)
    ensures FreedByCut(a.queries, conn, sid)
  {
  }

  lemma DisconnectKeepsReservations(a: Access, conn: Id)
    requires Reservations(a)
    requires forall id :: id in a.queries && a.queries[id].snapshotId.Some? ==>
               !a.queries[id].accepted && a.queries[id].state.Queued?
    ensures Reservations(Disconnect(a, conn))
  {
    var a' := Disconnect(a, conn);
    forall i, sid
      ensures Holds(a', i, sid) <==> Holds(a, i, sid) && !CutOff(a.queries[i], conn)
    {
      HoldsAfterCut(a, conn, i, sid);
    }
    forall i, sid | Holds(a, i, sid)
      ensures FreedByCut(a.queries, conn, sid) <==> CutOff(a.queries[i], conn)
    {
      if CutOff(a.queries[i], conn) {
        CutIsFreed(a, conn, i, sid);
      } else {
        KeptIsNotFreed(a, conn, i, sid);
      }
    }
    hide CutOff, FreedByCut;
    forall sid | sid in a'.snapshots && a'.snapshots[sid].reserved
      ensures exists i :: Holds(a', i, sid)
    {
      var i :| Holds(a, i, sid);
      assert Holds(a', i, sid);
    }
  }

  lemma DisconnectKeepsInv(w: World, conn: Id)
    requires Inv(w)
    ensures Inv(With(w, Disconnect(w.access, conn)))
  {
    var a, a' := w.access, Disconnect(w.access, conn);
    DisconnectKeepsReservations(a, conn);
    forall id | id in a'.queries
      ensures Lighter(a.queries[id], a'.queries[id]) && EntryOk(id, a'.queries[id], w.engine)
    {
      assert EntryOk(id, a.queries[id], w.engine);
    }
    assert a'.queries.Keys <= a.queries.Keys;
    hide Reservations, EntryOk, Budgets, Lighter, Disconnect;
    SettlingKeepsInv(w, With(w, a'));
  }

  // ---------------------------------------------------------------------
  // Admission and submission.
  // ---------------------------------------------------------------------

  lemma AdmissionKeepsBudgets(w: World, profile: Id, conn: Id, sid: Id, eid: Id, now: Millis)
    requires Inv(w) && eid !in w.access.queries
    requires StartCheck(w.access, w.limits, profile, conn, sid) == Admitted
    ensures Budgets(Admit(w.access, w.limits, profile, conn, sid, eid, now).queries)
  {
    var qs, q := w.access.queries, NewQuery(profile, conn, sid, w.limits, now);
    LiveIsCovered(qs);
    assert ValidLimits(w.limits) && Budgets(qs);
    assert Admit(w.access, w.limits, profile, conn, sid, eid, now).queries == qs[eid := q];
    hide Inv, Total, NewQuery, Admit;
    assert Weight(Bytes, q) == w.limits.maximumResultBytes && Weight(Outstanding, q) == Weight(Live, q) == 1
           && Weight(Busy, q) == 0 by { NewQueryWeighs(profile, conn, sid, w.limits, now, profile); }
    TotalOfInsert(Bytes, qs, eid, q);
    TotalOfInsert(Outstanding, qs, eid, q);
    TotalOfInsert(Live, qs, eid, q);
    TotalOfInsert(Busy, qs, eid, q);
    forall p ensures Total(BytesOf(p), qs[eid := q]) <= PROFILE_BYTE_CEILING {
      NewQueryWeighs(profile, conn, sid, w.limits, now, p);
      TotalOfInsert(BytesOf(p), qs, eid, q);
    }
    forall p ensures Total(OutstandingOf(p), qs[eid := q]) <= 8 {
      NewQueryWeighs(profile, conn, sid, w.limits, now, p);
      TotalOfInsert(OutstandingOf(p), qs, eid, q);
    }
    hide Weight;
  }

  lemma NewQueryWeighs(profile: Id, conn: Id, sid: Id, limits: Limits, now: Millis, p: Id)
    ensures var q := NewQuery(profile, conn, sid, limits, now);
            && Weight(Bytes, q) == limits.maximumResultBytes && Weight(Outstanding, q) == Weight(Live, q) == 1
            && Weight(Busy, q) == 0
            && Weight(BytesOf(p), q) == (if p == profile then limits.maximumResultBytes else 0)
            && Weight(OutstandingOf(p), q) == (if p == profile then 1 else 0)
  {
  }

  lemma AdmitKeepsReservations(a: Access, sid: Id, eid: Id, q: Query)
    requires Reservations(a) && eid !in a.queries && q.snapshotId == Some(sid)
    requires sid in a.snapshots && !a.snapshots[sid].reserved
    ensures Reservations(SetQuery(a, eid, q).(snapshots := a.snapshots[sid := a.snapshots[sid].(reserved := true)]))
  {
    var a' := SetQuery(a, eid, q).(snapshots := a.snapshots[sid := a.snapshots[sid].(reserved := true)]);
    assert forall i, s :: Holds(a', i, s) <==> (i == eid && s == sid) || Holds(a, i, s);
    assert Holds(a', eid, sid);
    forall s | s in a'.snapshots && a'.snapshots[s].reserved
      ensures exists i :: Holds(a', i, s)
    {
      if s != sid {
        var i :| Holds(a, i, s);
        assert Holds(a', i, s);
      }
    }
  }

  lemma AdmitKeepsInv(w: World, profile: Id, conn: Id, sid: Id, eid: Id, now: Millis)
    requires Inv(w) && eid !in w.access.queries && eid !in w.engine
    requires StartCheck(w.access, w.limits, profile, conn, sid) == Admitted
    ensures Inv(With(w, Admit(w.access, w.limits, profile, conn, sid, eid, now)))
  {
    AdmissionKeepsBudgets(w, profile, conn, sid, eid, now);
    AdmitKeepsReservations(w.access, sid, eid, NewQuery(profile, conn, sid, w.limits, now));
  }

  /** The engine after a scheduling pass: an accepted submission starts queued
      under the result cap of its query. */
  function Submit(w: World, pick: Option<Id>, admission: Admission): map<Id, Execution> {
    if pick.Some? && pick.value in w.access.queries && admission.EngineAccepts?
    then w.engine[pick.value := Execution(w.access.queries[pick.value].limits.maximumResultBytes, Queued, None)]
    else w.engine
  }

  function ScheduleWorld(w: World, order: seq<Id>, admission: Admission): World {
    World(w.limits, Schedule(w.access, order, admission),
          Submit(w, Candidate(w.access, order), admission))
  }

  lemma AcceptKeepsBudgets(qs: map<Id, Query>, id: Id, q: Query)
    requires Budgets(qs) && id in qs && !EngineBusy(qs)
    requires q == qs[id].(accepted := true, snapshotId := None)
    ensures Budgets(qs[id := q])
  {
    NoneBusy(qs);
    TotalOfReplace(Bytes, qs, id, q);
    TotalOfReplace(Outstanding, qs, id, q);
    TotalOfReplace(Live, qs, id, q);
    TotalOfReplace(Busy, qs, id, q);
    forall p ensures Total(BytesOf(p), qs[id := q]) <= PROFILE_BYTE_CEILING {
      TotalOfReplace(BytesOf(p), qs, id, q);
    }
    forall p ensures Total(OutstandingOf(p), qs[id := q]) <= 8 {
      TotalOfReplace(OutstandingOf(p), qs, id, q);
    }
  }

  lemma FinishAcceptedLetsGo(a: Access, id: Id)
    requires id in a.queries && Reservations(a)
    ensures LetsGo(a, FinishAccepted(a, id), id)
  {
    var a' := FinishAccepted(a, id);
    assert forall i, sid :: Holds(a', i, sid) <==> i != id && Holds(a, i, sid);
  }

  lemma AcceptKeepsInv(w: World, id: Id)
    requires Inv(w) && id in w.access.queries && Schedulable(w.access.queries[id]) && !EngineBusy(w.access.queries)
    ensures Inv(World(w.limits, FinishAccepted(w.access, id),
                      w.engine[id := Execution(w.access.queries[id].limits.maximumResultBytes, Queued, None)]))
  {
    var a := w.access;
    AcceptKeepsBudgets(a.queries, id, a.queries[id].(accepted := true, snapshotId := None));
    FinishAcceptedLetsGo(a, id);
    LettingGoKeepsReservations(a, FinishAccepted(a, id), id);
    hide Budgets, Reservations, LetsGo;
  }

  lemma MarkKeepsInv(w: World, profile: Id)
    requires Inv(w)
    ensures Inv(With(w, w.access.(lastScheduled := Some(profile))))
  {
    var a' := w.access.(lastScheduled := Some(profile));
    assert forall i, s :: Holds(a', i, s) <==> Holds(w.access, i, s);
    SettlingKeepsInv(w, With(w, a'));
  }

  /** Claiming and finishing in one step skips the claim mark. */
  lemma ScheduleIsFinish(a: Access, order: seq<Id>, admission: Admission)
    requires Candidate(a, order).Some?
    ensures var id := Candidate(a, order).value;
            Schedule(a, order, admission) == Finish(a.(lastScheduled := Some(a.queries[id].profile)), id, admission)
  {
    var id := Candidate(a, order).value;
    var q, claimed := a.queries[id], Claim(a, order);
    assert claimed.queries[id] == q.(claimed := true);
    match admission
    case EngineAccepts =>
      assert Schedule(a, order, admission).queries == FinishAccepted(a, id).queries;
    case SnapshotStale =>
      assert Schedule(a, order, admission).queries == FailQueued(a, id, "agent.snapshot_stale").queries;
    case EngineRejects =>
      assert Schedule(a, order, admission).queries == FailQueued(a, id, "agent.engine_admission").queries;
  }

  lemma ScheduleKeepsInv(w: World, order: seq<Id>, admission: Admission)
    requires Inv(w)
    ensures Inv(ScheduleWorld(w, order, admission))
  {
    var pick := Candidate(w.access, order);
    if pick.Some? {
      var id := pick.value;
      var marked := With(w, w.access.(lastScheduled := Some(w.access.queries[id].profile)));
      MarkKeepsInv(w, w.access.queries[id].profile);
      ScheduleIsFinish(w.access, order, admission);
      match admission
      case EngineAccepts => AcceptKeepsInv(marked, id);
      case SnapshotStale => FailQueuedKeepsInv(marked, id, "agent.snapshot_stale");
      case EngineRejects => FailQueuedKeepsInv(marked, id, "agent.engine_admission");
    }
  }
}
