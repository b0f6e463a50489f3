/** Executions and their results over whole runs: reports are taken over as they come, times
    are set once, and a result stays tracked for as long as the engine holds it. */
module AgentResults {
  import opened Basics
  import opened AgentState
  import opened AgentSteps
  import opened AgentInvariant
  import opened AgentRuns
  import opened AgentMaintenance

  // ---------------------------------------------------------------------
  // What a step is told about an execution.
  // ---------------------------------------------------------------------

  predicate Entitled(a: Access, conn: Id, id: Id, granted: bool) {
    && granted && conn in a.connections && a.connections[conn].authenticated
    && id in a.queries && a.queries[id].profile == a.connections[conn].profile
  }

  /** The report on an accepted query that the step brings. */
  function Told(w: World, step: Step, id: Id): Option<Status> {
    if id !in w.access.queries || !w.access.queries[id].accepted then None
    else match step
      case AsksStatus(conn, i, granted, answer, _, _, _) =>
        if i == id && Entitled(w.access, conn, id, granted) then answer else None
      case Maintains(_, _, _, answers) =>
        if w.access.queries[id].state in {Queued, Running} && id in answers.statuses
        then Some(answers.statuses[id]) else None
      case _ => None
  }

  function TimeOf(step: Step): Millis {
    match step
    case AsksStatus(_, _, _, _, now, _, _) => now
    case Maintains(now, _, _, _) => now
    case _ => 0
  }

  /** The course of an entry through a step: its state follows the report if it is accepted,
      and the first report of running, and of a result, sets the time. */
  predicate Follows(q: Query, told: Option<Status>, now: Millis, q': Query) {
    && (q.accepted ==> q'.accepted && q'.state == if told.Some? then told.value.state else q.state)
    && q'.runningAt == (if told.Some? && told.value.state.Running? && q.runningAt.None? then Some(now) else q.runningAt)
    && q'.publishedAt == (if told.Some? && told.value.bytes.Some? && q.publishedAt.None? then Some(now)
                          else q.publishedAt)
    && q'.cacheBytes == (if told.Some? && told.value.bytes.Some? then told.value.bytes else q.cacheBytes)
    && q'.admittedAt == q.admittedAt && q'.limits == q.limits && q'.profile == q.profile
  }

  lemma ScheduledFollows(q: Query, q': Query, told: Option<Status>, now: Millis, seen: Query)
    requires Follows(q, told, now, seen) && MaybeSubmitted(seen, q')
    ensures Follows(q, told, now, q')
  {
  }

  lemma PassFollows(w: World, step: Step, id: Id)
    requires Inv(w) && step.Maintains? && Enabled(w, step) && id in w.access.queries
             && id in Apply(w, step).access.queries
    ensures Follows(w.access.queries[id], Told(w, step, id), TimeOf(step), Apply(w, step).access.queries[id])
  {
    var Maintains(now, order, connOrder, e) := step;
    var a, q := w.access, w.access.queries[id];
    assert EntryOk(id, q, w.engine);
    assert Apply(w, step).access == Maintain(a, now, order, connOrder, e);
    var q4 := PassOnEntry(a, now, order, connOrder, e, id);
    PassCourse(id, q, e.statuses, now, q4, Leaves(a, q4.connection, now), id in Tried(a, order, now),
               Lets(e.releases, id), Entry(Maintain(a, now, order, connOrder, e), id));
    hide Follows, Maintain, Inv, Apply;
  }

  /** Nothing that reports tell has changed. */
  predicate SameReports(q: Query, q': Query) {
    && (q.accepted ==> q'.accepted && q'.state == q.state)
    && q'.runningAt == q.runningAt && q'.publishedAt == q.publishedAt && q'.cacheBytes == q.cacheBytes
    && q'.admittedAt == q.admittedAt && q'.limits == q.limits && q'.profile == q.profile
  }

  lemma SameReportsFollow(q: Query, told: Option<Status>, now: Millis, seen: Query, q': Query)
    requires Follows(q, told, now, seen) && SameReports(seen, q')
    ensures Follows(q, told, now, q')
  {
  }

  lemma LastPassesTellNothing(q: Query, q4: Query, leaves: bool, tried: bool, lets: bool, now: Millis, q': Query)
    requires LastPasses(q, q4, leaves, tried, lets, now, Some(q'))
    ensures SameReports(q4, q')
  {
    var q5 := if leaves then LeftBehind(q4) else q4;
    assert SameReports(q4, q5);
    hide LeftBehind, ResultOld, CleanupRetryDelay;
  }

  lemma DeadlinesFollow(q: Query, id: Id, statuses: map<Id, Status>, now: Millis)
    ensures Follows(q, if q.accepted && q.state in {Queued, Running} && id in statuses then Some(statuses[id])
                    else None,
                    now, AfterDeadlines(q, id, statuses, now))
  {
  }

  lemma PassCourse(id: Id, q: Query, statuses: map<Id, Status>, now: Millis, q4: Query, leaves: bool, tried: bool,
                   lets: bool, q': Option<Query>)
    requires MaybeSubmitted(AfterDeadlines(q, id, statuses, now), q4)
    requires LastPasses(q, q4, leaves, tried, lets, now, q') && q'.Some?
    ensures Follows(q, if q.accepted && q.state in {Queued, Running} && id in statuses then Some(statuses[id])
                    else None,
                    now, q'.value)
  {
    hide *;
    var told := if q.accepted && q.state in {Queued, Running} && id in statuses then Some(statuses[id]) else None;
    DeadlinesFollow(q, id, statuses, now);
    ScheduledFollows(q, q4, told, now, AfterDeadlines(q, id, statuses, now));
    LastPassesTellNothing(q, q4, leaves, tried, lets, now, q'.value);
    SameReportsFollow(q, told, now, q4, q'.value);
  }

  lemma SubmissionTellsNothing(a: Access, order: seq<Id>, admission: Admission, id: Id)
    requires Has(a, id)
    ensures Has(Schedule(a, order, admission), id)
    ensures SameReports(a.queries[id], Schedule(a, order, admission).queries[id])
  {
    ScheduleOnEntry(a, order, admission, id);
    hide Schedule;
  }

  lemma StatusFollows(w: World, step: Step, id: Id)
    requires step.AsksStatus? && id in w.access.queries
    ensures id in Apply(w, step).access.queries
    ensures Follows(w.access.queries[id], Told(w, step, id), step.now, Apply(w, step).access.queries[id])
  {
    var AsksStatus(conn, i, granted, answer, now, order, admission) := step;
    var p, q := Prune(w.access, now), w.access.queries[id];
    SubmissionTellsNothing(p, order, admission, id);
    assert Owns(p, conn, i) && granted <==> Entitled(w.access, conn, i, granted);
    if Owns(p, conn, i) && granted && p.queries[i].accepted && answer.Some? {
      var s := ApplyStatus(p, i, answer.value, now);
      assert Follows(q, Told(w, step, id), now, s.queries[id]);
      SubmissionTellsNothing(s, order, admission, id);
      hide Schedule, ApplyStatus, Prune, Follows, SameReports, Told;
      SameReportsFollow(q, Told(w, step, id), now, s.queries[id], Schedule(s, order, admission).queries[id]);
    } else {
      assert Told(w, step, id).None?;
      hide Schedule, ApplyStatus;
    }
  }

  lemma CancelFollows(w: World, step: Step, id: Id)
    requires step.BeginsCancel? && id in w.access.queries
    ensures id in Apply(w, step).access.queries
    ensures SameReports(w.access.queries[id], Apply(w, step).access.queries[id])
  {
    var BeginsCancel(conn, i, granted, now, order, admission) := step;
    var p := Prune(w.access, now);
    if Owns(p, conn, i) && granted && !p.queries[i].accepted {
      var c := CancelUnaccepted(p, i);
      assert SameReports(p.queries[id], c.queries[id]);
      SubmissionTellsNothing(c, order, admission, id);
      hide CancelUnaccepted;
    }
    hide Schedule;
  }

  lemma StartFollows(w: World, step: Step, id: Id)
    requires step.Starts? && Enabled(w, step) && id in w.access.queries
    ensures id in Apply(w, step).access.queries
    ensures SameReports(w.access.queries[id], Apply(w, step).access.queries[id])
  {
    var p := Prune(w.access, step.now);
    hide Schedule, StartCheck, ValidLimits, NewQuery;
    if Authenticated(p, step.conn)
       && StartCheck(p, w.limits, p.connections[step.conn].profile, step.conn, step.sid) == Admitted {
      var admitted := Admit(p, w.limits, p.connections[step.conn].profile, step.conn, step.sid, step.eid, step.now);
      SubmissionTellsNothing(admitted, step.order, step.admission, id);
    }
  }

  /** Steps that neither report nor submit nor go through the table. */
  predicate Plain(step: Step) {
    !step.AsksStatus? && !step.Maintains? && !step.Starts? && !step.BeginsCancel?
  }

  lemma PlainStepsTellNothing(w: World, step: Step, id: Id)
    requires Plain(step) && id in w.access.queries && id in Apply(w, step).access.queries
    ensures SameReports(w.access.queries[id], Apply(w, step).access.queries[id])
  {
    if step.Releases? {
      ReleaseTellsNothing(w.access, step.conn, step.id, step.granted, step.release, step.now, id);
    } else if step.DesktopReleases? {
      RemovalTellsNothing(w.access, step.id, step.release, step.now, id);
    } else if step.Disconnects? {
      CutTellsNothing(w.access, step.conn, id);
    } else {
      SmallStepsTellNothing(w, step, id);
    }
    hide Disconnect, ReleaseResult, DesktopRelease, SameReports, Maintain;
  }

  lemma SmallStepsTellNothing(w: World, step: Step, id: Id)
    requires Plain(step) && !step.Releases? && !step.DesktopReleases? && !step.Disconnects?
    requires id in w.access.queries && id in Apply(w, step).access.queries
    ensures SameReports(w.access.queries[id], Apply(w, step).access.queries[id])
  {
    hide ValidLimits;
  }

  lemma ReleaseTellsNothing(a: Access, conn: Id, i: Id, granted: bool, release: Release, now: Millis, id: Id)
    requires id in a.queries && id in ReleaseResult(a, conn, i, granted, release, now).queries
    ensures SameReports(a.queries[id], ReleaseResult(a, conn, i, granted, release, now).queries[id])
  {
  }

  lemma RemovalTellsNothing(a: Access, i: Id, release: Release, now: Millis, id: Id)
    requires id in a.queries && id in DesktopRelease(a, i, release, now).queries
    ensures SameReports(a.queries[id], DesktopRelease(a, i, release, now).queries[id])
  {
  }

  lemma CutTellsNothing(a: Access, conn: Id, id: Id)
    requires id in a.queries
    ensures id in Disconnect(a, conn).queries && SameReports(a.queries[id], Disconnect(a, conn).queries[id])
  {
    hide FreedByCut;
  }

  /** Through every step, an accepted query's state is what it is told, an untold one's stays;
      when it first ran and when its result was published are set once, at the first report
      that says so; and the size of its result is the one last reported. */
  lemma ReportsAreTakenOver(steps: seq<Step>, w: World, step: Step, id: Id)
    requires Run(INITIAL_WORLD, steps, w) && Enabled(w, step)
    requires id in w.access.queries && id in Apply(w, step).access.queries
    ensures Follows(w.access.queries[id], Told(w, step, id), TimeOf(step), Apply(w, step).access.queries[id])
  {
    ReachableStatesAreSafe(steps, w);
    hide Run, Enabled, Inv, Apply;
    if step.Maintains? {
      PassFollows(w, step, id);
    } else if step.AsksStatus? {
      StatusFollows(w, step, id);
    } else if step.BeginsCancel? {
      CancelFollows(w, step, id);
    } else if step.Starts? {
      StartFollows(w, step, id);
    } else {
      PlainStepsTellNothing(w, step, id);
    }
  }
}
