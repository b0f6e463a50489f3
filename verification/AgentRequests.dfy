/** What single requests achieve: starts, cancellations, connections that come, stay and go,
    statements that are classified, and pages that are read. */
module AgentRequests {
  import opened Basics
  import opened AgentState
  import opened AgentSteps
  import opened AgentInvariant
  import opened AgentRuns
  import opened AgentMaintenance
  import opened AgentResults

  // ---------------------------------------------------------------------
  // Starts.
  // ---------------------------------------------------------------------

  /** The tables with the new query in it keep what the user's settings allow. */
  ghost predicate Fits(qs: map<Id, Query>, limits: Limits, profile: Id) {
    && Total(BytesOf(profile), qs) <= limits.profileCacheBytes && Total(Bytes, qs) <= limits.globalCacheBytes
    && Total(OutstandingOf(profile), qs) <= limits.outstandingQueryLimit && Total(Outstanding, qs) <= 16
    && Total(RetainedOf(profile), qs) < limits.retainedResultLimit && Total(Retained, qs) < 32
    && Total(CleanupPending, qs) < 16
  }

  /** The statement may be run by the connection now. */
  predicate Usable(a: Access, conn: Id, sid: Id, now: Millis) {
    && sid in a.snapshots && a.snapshots[sid].connection == conn && a.snapshots[sid].decision == SafeRead
    && !a.snapshots[sid].reserved && now < a.snapshots[sid].createdAt + 120_000
  }

  lemma CheckIsFit(a: Access, limits: Limits, profile: Id, conn: Id, sid: Id, eid: Id, now: Millis)
    requires ValidLimits(limits) && eid !in a.queries
    ensures StartCheck(a, limits, profile, conn, sid) == Admitted
            <==> Fits(a.queries[eid := NewQuery(profile, conn, sid, limits, now)], limits, profile)
                 && sid in a.snapshots && a.snapshots[sid].connection == conn && !a.snapshots[sid].reserved
                 && a.snapshots[sid].decision == SafeRead
  {
    var q := NewQuery(profile, conn, sid, limits, now);
    forall m: Measure ensures Total(m, a.queries[eid := q]) == Total(m, a.queries) + Weight(m, q) {
      TotalOfInsert(m, a.queries, eid, q);
    }
    hide Total;
  }

  /** A refusal names the first limit that the table with the query in it would break, and
      only then looks at the statement. */
  lemma RefusalsSayWhy(a: Access, limits: Limits, profile: Id, conn: Id, sid: Id, eid: Id, now: Millis)
    requires ValidLimits(limits) && eid !in a.queries
    ensures var qs, outcome := a.queries[eid := NewQuery(profile, conn, sid, limits, now)],
                               StartCheck(a, limits, profile, conn, sid);
            var backlog := Total(CleanupPending, qs) >= 16;
            var bytes := Total(BytesOf(profile), qs) > limits.profileCacheBytes
                         || Total(Bytes, qs) > limits.globalCacheBytes;
            var results := Total(RetainedOf(profile), qs) >= limits.retainedResultLimit || Total(Retained, qs) >= 32;
            var queries := Total(OutstandingOf(profile), qs) > limits.outstandingQueryLimit
                           || Total(Outstanding, qs) > 16;
            && (outcome == CleanupBacklog <==> backlog)
            && (outcome == CacheLimit <==> !backlog && bytes)
            && (outcome == ResultLimit <==> !backlog && !bytes && results)
            && (outcome == QueryLimit <==> !backlog && !bytes && !results && queries)
            && (outcome == SnapshotMissing <==> Fits(qs, limits, profile) && sid !in a.snapshots)
            && (outcome == SnapshotOwnerMismatch <==>
                  Fits(qs, limits, profile) && sid in a.snapshots
                  && (a.snapshots[sid].connection != conn || a.snapshots[sid].reserved))
            && (outcome == SafeReadRequired <==> Fits(qs, limits, profile) && sid in a.snapshots
                                                 && a.snapshots[sid].connection == conn && !a.snapshots[sid].reserved
                                                 && a.snapshots[sid].decision != SafeRead)
  {
    var q := NewQuery(profile, conn, sid, limits, now);
    forall m: Measure ensures Total(m, a.queries[eid := q]) == Total(m, a.queries) + Weight(m, q) {
      TotalOfInsert(m, a.queries, eid, q);
    }
    hide Total;
  }

  /** A query is started exactly if its connection is authenticated, its statement usable, and
      the table with the query in it within the user's settings; for that connection's
      profile, under these settings, admitted now. */
  lemma StartsIff(steps: seq<Step>, w: World, step: Step)
    requires Run(INITIAL_WORLD, steps, w) && Enabled(w, step) && step.Starts?
    ensures var a, a' := w.access, Apply(w, step).access;
            var known := step.conn in a.connections && a.connections[step.conn].authenticated;
            && (step.eid in a'.queries
                <==> known && Usable(a, step.conn, step.sid, step.now)
                     && Fits(a.queries[step.eid := NewQuery(a.connections[step.conn].profile, step.conn, step.sid,
                                                            w.limits, step.now)],
                             w.limits, a.connections[step.conn].profile))
            && (step.eid in a'.queries ==>
                  IsStarted(a'.queries[step.eid], w.limits, a.connections[step.conn].profile, step.conn, step.now))
  {
    LimitsStayValid(steps, w);
    var a, p := w.access, Prune(w.access, step.now);
    assert p.queries == a.queries;
    UsableIs(a, step.conn, step.sid, step.now);
    StartApplied(w, step);
    hide Run, Fits, StartCheck, Schedule, ValidLimits, Total, Apply, Usable, Enabled, Prune, IsStarted;
    if step.conn in a.connections && a.connections[step.conn].authenticated {
      var profile := a.connections[step.conn].profile;
      CheckIsFit(p, w.limits, profile, step.conn, step.sid, step.eid, step.now);
      if StartCheck(p, w.limits, profile, step.conn, step.sid) == Admitted {
        StartedEntry(p, w.limits, profile, step);
      }
    }
  }

  /** The entry of a query that has just been started. */
  predicate IsStarted(q: Query, limits: Limits, profile: Id, conn: Id, now: Millis) {
    && q.profile == profile && q.connection == conn && q.admittedAt == now && q.limits == limits && q.resultId.None?
    && (q.accepted ==> q.state.Queued?) && q.state in {Queued, Failed}
  }

  lemma StartedEntry(p: Access, limits: Limits, profile: Id, step: Step)
    requires step.Starts? && step.sid in p.snapshots
    ensures var b := Schedule(Admit(p, limits, profile, step.conn, step.sid, step.eid, step.now), step.order,
                              step.admission);
            step.eid in b.queries && IsStarted(b.queries[step.eid], limits, profile, step.conn, step.now)
  {
    ScheduleOnEntry(Admit(p, limits, profile, step.conn, step.sid, step.eid, step.now), step.order, step.admission,
                    step.eid);
    hide Schedule;
  }

  lemma LimitsStayValid(steps: seq<Step>, w: World)
    requires Run(INITIAL_WORLD, steps, w)
    ensures ValidLimits(w.limits)
  {
    ReachableStatesAreSafe(steps, w);
  }

  lemma UsableIs(a: Access, conn: Id, sid: Id, now: Millis)
    ensures Usable(a, conn, sid, now)
            <==> sid in Prune(a, now).snapshots && Prune(a, now).snapshots[sid].connection == conn
                 && !Prune(a, now).snapshots[sid].reserved && Prune(a, now).snapshots[sid].decision == SafeRead
  {
  }

  lemma StartApplied(w: World, step: Step)
    requires step.Starts? && Enabled(w, step) && ValidLimits(w.limits)
    ensures var p := Prune(w.access, step.now);
            var known := step.conn in w.access.connections && w.access.connections[step.conn].authenticated;
            && (known ==> step.conn in p.connections && p.connections[step.conn] == w.access.connections[step.conn])
            && step.eid !in w.access.queries
            && Apply(w, step).access
               == (if !known then p
                   else
                     var profile := w.access.connections[step.conn].profile;
                     if StartCheck(p, w.limits, profile, step.conn, step.sid) != Admitted then p
                     else Schedule(Admit(p, w.limits, profile, step.conn, step.sid, step.eid, step.now), step.order,
                                   step.admission))
  {
    hide StartCheck, Schedule, ValidLimits, Candidate;
  }

  // ---------------------------------------------------------------------
  // Cancellations.
  // ---------------------------------------------------------------------

  /** What a cancellation leaves of a query: one that the engine does not have is cancelled and
      lets go of its snapshot, one that it has is marked, to be stopped there. */
  function Stopped(q: Query): Query {
    if q.accepted then q.(cancelRequested := true)
    else q.(cancelRequested := true, state := Cancelled, snapshotId := None)
  }

  /** A cancellation by an agent that is entitled to it stops the query; the others go on, or
      get their turn. */
  lemma CancellationStops(w: World, step: Step, id: Id)
    requires step.BeginsCancel? && id in w.access.queries
    ensures var q, qs := w.access.queries[id], Apply(w, step).access.queries;
            && id in qs
            && (!Entitled(w.access, step.conn, step.id, step.granted) ==> qs[id] == q)
            && (Entitled(w.access, step.conn, step.id, step.granted) ==>
                  if id == step.id then qs[id] == Stopped(q) else MaybeSubmitted(q, qs[id]))
  {
    var BeginsCancel(conn, i, granted, now, order, admission) := step;
    var p := Prune(w.access, now);
    assert Owns(p, conn, i) && granted <==> Entitled(w.access, conn, i, granted);
    if Owns(p, conn, i) && granted && !p.queries[i].accepted {
      ScheduleOnEntry(CancelUnaccepted(p, i), order, admission, id);
    }
    hide Schedule, Entitled, Owns;
  }

  /** The whole request, with the report that the engine gives on an accepted query: what is
      asked to be cancelled is stopped, and shows what the engine says of it. */
  lemma CancellationIsAnswered(a: Access, conn: Id, id: Id, granted: bool, known: bool, answer: Option<Status>,
                               now: Millis, order: seq<Id>, first: Admission, second: Admission)
    requires id in a.queries
    ensures var b, q := CancelQuery(a, conn, id, granted, known, answer, now, order, first, second), a.queries[id];
            && (!Entitled(a, conn, id, granted) ==> b.queries == a.queries)
            && (Entitled(a, conn, id, granted) ==>
                  && id in b.queries
                  && (!q.accepted ==> b.queries[id] == Stopped(q))
                  && (q.accepted ==>
                        b.queries[id] == if known && answer.Some? then Observed(Stopped(q), id, answer.value, now)
                                         else Stopped(q)))
  {
    var p := Prune(a, now);
    assert Owns(p, conn, id) && granted <==> Entitled(a, conn, id, granted);
    hide Entitled, QueryStatus, BeginCancel, Prune;
    if !Owns(p, conn, id) || !granted {
      BeginIs(a, conn, id, granted, now, order, first);
    } else if a.queries[id].accepted {
      AcceptedIsAnswered(a, conn, id, granted, known, answer, now, order, first, second);
    } else {
      WaitingIsAnswered(a, conn, id, granted, known, answer, now, order, first, second);
    }
  }

  lemma BeginIs(a: Access, conn: Id, id: Id, granted: bool, now: Millis, order: seq<Id>, first: Admission)
    requires !(Owns(Prune(a, now), conn, id) && granted)
    ensures BeginCancel(a, conn, id, granted, now, order, first) == Prune(a, now)
    ensures Prune(a, now).queries == a.queries
  {
  }

  lemma AcceptedIsAnswered(a: Access, conn: Id, id: Id, granted: bool, known: bool, answer: Option<Status>,
                           now: Millis, order: seq<Id>, first: Admission, second: Admission)
    requires Owns(Prune(a, now), conn, id) && granted && id in a.queries && a.queries[id].accepted
    ensures var b := CancelQuery(a, conn, id, granted, known, answer, now, order, first, second);
            && id in b.queries
            && b.queries[id] == if known && answer.Some? then Observed(Stopped(a.queries[id]), id, answer.value, now)
                                else Stopped(a.queries[id])
  {
    var b := RequestCancel(Prune(a, now), id);
    assert Owns(Prune(b, now), conn, id) && b.queries[id] == Stopped(a.queries[id]);
    if answer.Some? {
      var s := ApplyStatus(Prune(b, now), id, answer.value, now);
      assert s.queries[id] == Observed(Stopped(a.queries[id]), id, answer.value, now);
      ScheduleOnEntry(s, order, second, id);
      hide ApplyStatus, Observed, Stopped;
    }
    hide Schedule;
  }

  lemma WaitingIsAnswered(a: Access, conn: Id, id: Id, granted: bool, known: bool, answer: Option<Status>,
                          now: Millis, order: seq<Id>, first: Admission, second: Admission)
    requires Owns(Prune(a, now), conn, id) && granted && id in a.queries && !a.queries[id].accepted
    ensures var b := CancelQuery(a, conn, id, granted, known, answer, now, order, first, second);
            id in b.queries && b.queries[id] == Stopped(a.queries[id])
  {
    var c := CancelUnaccepted(Prune(a, now), id);
    assert c.queries[id] == Stopped(a.queries[id]) && c.connections == Prune(a, now).connections;
    ScheduleOnEntry(c, order, first, id);
    var b := Schedule(c, order, first);
    hide Schedule, CancelUnaccepted, Stopped;
    assert Owns(Prune(b, now), conn, id) && Prune(b, now).queries == b.queries;
    ScheduleOnEntry(Prune(b, now), order, second, id);
  }

  /** So does the desktop's, of a query that has not ended. */
  lemma DesktopCancellationStops(w: World, step: Step)
    requires step.DesktopCancels?
    ensures var qs := w.access.queries;
            Apply(w, step).access.queries
            == if step.id in qs && qs[step.id].state in {Queued, Running}
               then qs[step.id := Stopped(qs[step.id])] else qs
  {
  }

  // ---------------------------------------------------------------------
  // Connections.
  // ---------------------------------------------------------------------

  /** A disconnection takes the connection and its snapshots away, cancels its unfinished
      queries, in the engine where it has them, and touches nobody else's. */
  lemma DisconnectionCutsItsOwn(w: World, step: Step, id: Id, sid: Id)
    requires step.Disconnects?
    ensures var a, b := w.access, Apply(w, step).access;
            && b.connections == a.connections - {step.conn}
            && (sid in b.snapshots <==> sid in a.snapshots && a.snapshots[sid].connection != step.conn)
            && (id in b.queries <==> id in a.queries)
            && (id in a.queries ==>
                  b.queries[id]
                  == if a.queries[id].connection == step.conn then LeftBehind(a.queries[id]) else a.queries[id])
  {
    hide FreedByCut;
  }

  /** A heartbeat, or a new connection, holds for two minutes of maintenance. */
  lemma BeatsHold(w: World, step: Step, now: Millis, order: seq<Id>, connOrder: seq<Id>, e: Answers)
    requires step.Connects? || (step.Beats? && step.conn in w.access.connections
                                && w.access.connections[step.conn].authenticated)
    requires now < step.now + 120_000
    requires var a := Apply(w, step).access; Lists(order, a.queries) && Lists(connOrder, a.connections)
    ensures var a := Apply(w, step).access;
            && step.conn in a.connections && a.connections[step.conn].authenticated
            && a.connections[step.conn].lastHeartbeat == step.now && a.connections[step.conn].graceUntil.None?
            && a.connections[step.conn].profile
               == (if step.Connects? then step.profile else w.access.connections[step.conn].profile)
            && step.conn in Maintain(a, now, order, connOrder, e).connections
  {
    StaleConnectionsLeave(Apply(w, step).access, now, order, connOrder, e, step.conn);
    hide Maintain;
  }

  // ---------------------------------------------------------------------
  // Statements and pages.
  // ---------------------------------------------------------------------

  /** Pruning keeps exactly authenticated connections and those that came within the last
      minute, and statements classified within the last two. */
  lemma PruningIsExact(a: Access, now: Millis, conn: Id, sid: Id)
    ensures var p := Prune(a, now);
            && p.queries == a.queries
            && (conn in p.connections
                <==> conn in a.connections
                     && (a.connections[conn].authenticated || now < a.connections[conn].createdAt + 60_000))
            && (conn in p.connections ==> p.connections[conn] == a.connections[conn])
            && (sid in p.snapshots <==> sid in a.snapshots && now < a.snapshots[sid].createdAt + 120_000)
            && (sid in p.snapshots ==> p.snapshots[sid] == a.snapshots[sid])
  {
  }

  /** The snapshots that are younger than two minutes. */
  function Young(a: Access, now: Millis): set<Id> {
    set s | s in a.snapshots && now < a.snapshots[s].createdAt + 120_000
  }

  /** A classified statement is kept, with its decision, in the name of its authenticated
      connection, while there are fewer than 32 young ones. */
  lemma ClassificationIsKept(w: World, step: Step)
    requires step.Classifies? && step.sid !in w.access.snapshots
    ensures var b := Apply(w, step).access;
            var known := step.conn in w.access.connections && w.access.connections[step.conn].authenticated;
            && (step.sid in b.snapshots <==> known && |Young(w.access, step.now)| < 32)
            && (step.sid in b.snapshots ==>
                  b.snapshots[step.sid] == Snapshot(step.conn, step.decision, step.now, false))
            && b.queries == w.access.queries
  {
    var p := Prune(w.access, step.now);
    assert p.snapshots.Keys == Young(w.access, step.now);
    assert |p.snapshots| == |p.snapshots.Keys|;
  }

  /** Proposing, explaining and exporting use a statement up. */
  lemma TakingUsesUp(w: World, step: Step, sid: Id)
    requires step.TakesSnapshot?
    ensures var b := Apply(w, step).access;
            && (sid in b.snapshots <==> sid in Young(w.access, step.now) && sid != step.sid)
            && (sid in b.snapshots ==> b.snapshots[sid] == w.access.snapshots[sid])
            && b.queries == w.access.queries
  {
  }

  /** Only who is entitled to a published result opens it, and then he is counted as a reader. */
  lemma PagesAreCounted(w: World, step: Step)
    requires step.BeginsPage?
    ensures var qs := w.access.queries;
            Apply(w, step).access.queries
            == if Entitled(w.access, step.conn, step.id, step.granted) && qs[step.id].resultId == Some(step.id)
               then qs[step.id := qs[step.id].(readers := Min(qs[step.id].readers + 1, U32_MAX))] else qs
  {
    assert Owns(Prune(w.access, step.now), step.conn, step.id) && step.granted
      <==> Entitled(w.access, step.conn, step.id, step.granted);
  }

  /** Closing the page undoes the count, and renews the result's ten minutes. */
  lemma ClosingUndoesOpening(w: World, open: Step, close: Step)
    requires open.BeginsPage? && close.EndsPage? && close.id == open.id && close.ok
    requires Entitled(w.access, open.conn, open.id, open.granted)
    requires w.access.queries[open.id].resultId == Some(open.id) && w.access.queries[open.id].readers < U32_MAX
    ensures Apply(Apply(w, open), close).access.queries
            == w.access.queries[open.id := w.access.queries[open.id].(lastAccessedAt := Some(close.now))]
  {
    PagesAreCounted(w, open);
    hide Entitled;
  }
}
