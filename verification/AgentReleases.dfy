/** Results and their release: an entry leaves the table exactly when the engine has let go of
    its result, so no result is left behind in the engine, and nobody loses what he reads. */
module AgentReleases {
  import opened Basics
  import opened AgentState
  import opened AgentSteps
  import opened AgentInvariant
  import opened AgentRuns
  import opened AgentMaintenance
  import opened AgentResults

  /** The results that a step asks the engine to release: one that an agent entitled to it, or
      the desktop, gives back, or those that are old or due in a pass; and none that is read. */
  ghost predicate Asks(a: Access, step: Step, id: Id) {
    && id in a.queries && a.queries[id].readers == 0
    && match step
       case Releases(conn, i, granted, _, _) =>
         i == id && Entitled(a, conn, id, granted) && a.queries[id].resultId == Some(id)
       case DesktopReleases(i, _, _) => i == id && a.queries[id].resultId == Some(id)
       case Maintains(now, order, _, _) => ResultOld(a.queries[id], now) || id in Tried(a, order, now)
       case _ => false
  }

  /** The engine's answer. */
  function AnswerOf(step: Step, id: Id): Release {
    match step
    case Releases(_, _, _, release, _) => release
    case DesktopReleases(_, release, _) => release
    case Maintains(_, _, _, answers) => if id in answers.releases then answers.releases[id] else ReleaseFails
    case _ => ReleaseFails
  }

  lemma PassRemoves(w: World, step: Step, id: Id)
    requires Inv(w) && step.Maintains? && Enabled(w, step) && id in w.access.queries
    ensures id !in Apply(w, step).access.queries <==> Asks(w.access, step, id) && !AnswerOf(step, id).ReleaseFails?
  {
    var Maintains(now, order, connOrder, e) := step;
    var a, q := w.access, w.access.queries[id];
    assert EntryOk(id, q, w.engine);
    assert Apply(w, step).access == Maintain(a, now, order, connOrder, e);
    var q4 := PassOnEntry(a, now, order, connOrder, e, id);
    ReadersStay(q, id, e.statuses, now, q4);
    hide Maintain, Inv, Apply, AfterDeadlines, MaybeSubmitted, Tried, CleanupRetryDelay, ResultOld, Leaves, Enabled;
  }

  lemma ReadersStay(q: Query, id: Id, statuses: map<Id, Status>, now: Millis, q4: Query)
    requires MaybeSubmitted(AfterDeadlines(q, id, statuses, now), q4)
    ensures q4.readers == q.readers
  {
  }

  lemma ReleaseRemoves(w: World, step: Step, id: Id)
    requires (step.Releases? || step.DesktopReleases?) && id in w.access.queries
    ensures id !in Apply(w, step).access.queries <==> Asks(w.access, step, id) && !AnswerOf(step, id).ReleaseFails?
  {
    if step.Releases? {
      assert Owns(Prune(w.access, step.now), step.conn, step.id) && step.granted
        <==> Entitled(w.access, step.conn, step.id, step.granted);
      hide Entitled, Owns;
    }
  }

  lemma OthersRemoveNothing(w: World, step: Step, id: Id)
    requires !step.Releases? && !step.DesktopReleases? && !step.Maintains? && Enabled(w, step) && id in w.access.queries
    ensures id in Apply(w, step).access.queries
  {
    if step.AsksStatus? {
      StatusFollows(w, step, id);
    } else if step.BeginsCancel? {
      CancelFollows(w, step, id);
    } else if step.Starts? {
      StartFollows(w, step, id);
    } else {
      hide FreedByCut, ValidLimits;
    }
  }

  lemma EntryLeaves(w: World, step: Step, id: Id)
    requires Inv(w) && Enabled(w, step) && id in w.access.queries
    ensures id !in Apply(w, step).access.queries <==> Asks(w.access, step, id) && !AnswerOf(step, id).ReleaseFails?
  {
    hide Inv, Enabled, Apply, Asks;
    if step.Maintains? {
      PassRemoves(w, step, id);
    } else if step.Releases? || step.DesktopReleases? {
      ReleaseRemoves(w, step, id);
    } else {
      OthersRemoveNothing(w, step, id);
      OthersAskNothing(w.access, step, id);
    }
  }

  /** An entry leaves the table exactly if the step asks the engine for its release, and the
      engine has released the result or does not have it. */
  lemma EntryLeavesIff(steps: seq<Step>, w: World, step: Step, id: Id)
    requires Run(INITIAL_WORLD, steps, w) && Enabled(w, step) && id in w.access.queries
    ensures id !in Apply(w, step).access.queries
            <==> Asks(w.access, step, id) && AnswerOf(step, id) in {Released, ResultMissing}
  {
    ReachableStatesAreSafe(steps, w);
    hide Run, Inv, Enabled, Apply, Asks;
    EntryLeaves(w, step, id);
  }

  lemma OthersAskNothing(a: Access, step: Step, id: Id)
    requires !step.Releases? && !step.DesktopReleases? && !step.Maintains?
    ensures !Asks(a, step, id)
  {
  }

  /** Nobody loses a result that is being read. */
  lemma ReadResultsStay(steps: seq<Step>, w: World, step: Step, id: Id)
    requires Run(INITIAL_WORLD, steps, w) && Enabled(w, step)
    requires id in w.access.queries && w.access.queries[id].readers > 0
    ensures id in Apply(w, step).access.queries
  {
    EntryLeavesIff(steps, w, step, id);
    hide Apply, Run, Enabled;
  }

  /** What giving a result back does to its entry: withdrawn in any case, and then gone, kept
      for its readers, or put off by two seconds. Nothing else in the table changes. */
  lemma GivingBackWithdraws(w: World, step: Step)
    requires step.Releases? || step.DesktopReleases?
    requires step.id in w.access.queries && w.access.queries[step.id].resultId == Some(step.id)
    requires step.Releases? ==> Entitled(w.access, step.conn, step.id, step.granted)
    ensures var q, qs := w.access.queries[step.id], Apply(w, step).access.queries;
            && qs - {step.id} == w.access.queries - {step.id}
            && (step.id in qs <==> q.readers > 0 || step.release.ReleaseFails?)
            && (step.id in qs ==>
                  && qs[step.id].resultId.None? && qs[step.id].cleanupPending && qs[step.id].readers == q.readers
                  && qs[step.id].cleanupRetryAt == (if q.readers > 0 then None else Some(step.now + 2_000))
                  && qs[step.id].cleanupAttempts == (if q.readers > 0 then q.cleanupAttempts
                                                     else if step.Releases? then 1
                                                     else Min(q.cleanupAttempts + 1, U32_MAX)))
  {
    if step.Releases? { assert Owns(Prune(w.access, step.now), step.conn, step.id); }
    var qs, qs' := w.access.queries, Apply(w, step).access.queries;
    if step.id in qs' {
      assert qs' == qs[step.id := qs'[step.id]];
    } else {
      assert qs' == qs - {step.id};
    }
  }

  /** Whoever is not entitled to a result, or gives back what is not there, changes no entry. */
  lemma OthersGiveNothingBack(w: World, step: Step)
    requires step.Releases? || step.DesktopReleases?
    requires step.id in w.access.queries && w.access.queries[step.id].resultId == Some(step.id) ==>
               step.Releases? && !Entitled(w.access, step.conn, step.id, step.granted)
    ensures Apply(w, step).access.queries == w.access.queries
  {
    if step.Releases? {
      assert Owns(Prune(w.access, step.now), step.conn, step.id) && step.granted ==>
               Entitled(w.access, step.conn, step.id, step.granted);
    }
  }

  // ---------------------------------------------------------------------
  // What the engine holds.
  // ---------------------------------------------------------------------

  /** The engine says that it does not have a result only if it does not. */
  ghost predicate Truthful(w: World, held: set<Id>, step: Step) {
    forall id :: Asks(w.access, step, id) && AnswerOf(step, id).ResultMissing? ==> id !in held
  }

  /** The results that the engine holds: it publishes one with an execution's success, and
      drops those that it releases when it is asked. */
  ghost function Held(w: World, held: set<Id>, step: Step): set<Id> {
    var kept := set id | id in held && !(Asks(w.access, step, id) && AnswerOf(step, id).Released?);
    if step.EngineMoves? && step.id in w.engine && w.engine[step.id].bytes.None? && step.execution.bytes.Some?
    then kept + {step.id} else kept
  }

  /** A run beside the results that the engine holds. */
  ghost predicate RunBeside(w: World, held: set<Id>, steps: seq<Step>, w': World, held': set<Id>)
    decreases |steps|
  {
    if steps == [] then w' == w && held' == held
    else
      && Enabled(w, steps[0]) && Truthful(w, held, steps[0])
      && RunBeside(Apply(w, steps[0]), Held(w, held, steps[0]), steps[1..], w', held')
  }

  /** Every result held, and every execution that goes on, has its entry. */
  ghost predicate NothingLost(w: World, held: set<Id>) {
    && (forall id :: id in held ==> id in w.access.queries)
    && (forall id :: id in w.engine && IsOutstanding(w.engine[id].state) ==> id in w.access.queries)
  }

  lemma AskedIsRecorded(w: World, step: Step, id: Id)
    requires Inv(w) && Asks(w.access, step, id)
    ensures w.access.queries[id].cacheBytes.Some? && id in w.engine && w.engine[id].state.Succeeded?
  {
    var q := w.access.queries[id];
    assert EntryOk(id, q, w.engine);
    if step.Maintains? && !ResultOld(q, step.now) && !q.cleanupPending { NotTried(w.access, step.order, step.now, id); }
    hide Tried;
  }

  lemma PassSubmits(w: World, step: Step, id: Id)
    requires Inv(w) && step.Maintains? && Enabled(w, step) && id in Apply(w, step).engine
    ensures (id in w.engine && Apply(w, step).engine[id] == w.engine[id]) || id in Apply(w, step).access.queries
  {
    var before := BeforePass(w.access, step.now, step.order, step.answers);
    if Candidate(before, step.order) == Some(id) { SubmittedStays(w, step, id); }
    hide Inv, Maintain, Candidate, BeforePass, Enabled;
  }

  /** Every execution that the engine has after the step it had before, or it has its entry. */
  ghost predicate EngineTracked(w: World, v: World, id: Id) {
    id in v.engine ==> (id in w.engine && v.engine[id] == w.engine[id]) || id in v.access.queries
  }

  lemma SubmissionIsTracked(w: World, before: Access, order: seq<Id>, admission: Admission, id: Id)
    ensures EngineTracked(w, AgentRuns.Scheduled(w, before, order, admission), id)
  {
    hide Candidate;
  }

  lemma StartIsTracked(w: World, step: Step, id: Id)
    requires step.Starts?
    ensures EngineTracked(w, Apply(w, step), id)
  {
    var p := Prune(w.access, step.now);
    if Authenticated(p, step.conn)
       && StartCheck(p, w.limits, p.connections[step.conn].profile, step.conn, step.sid) == Admitted {
      var admitted := Admit(p, w.limits, p.connections[step.conn].profile, step.conn, step.sid, step.eid, step.now);
      SubmissionIsTracked(w, admitted, step.order, step.admission, id);
    }
    hide AgentRuns.Scheduled, StartCheck, ValidLimits;
  }

  lemma RequestIsTracked(w: World, step: Step, id: Id)
    requires step.AsksStatus? || step.BeginsCancel?
    ensures EngineTracked(w, Apply(w, step), id)
  {
    var p := Prune(w.access, step.now);
    SubmissionIsTracked(w, p, step.order, step.admission, id);
    SubmissionIsTracked(w, CancelUnaccepted(p, step.id), step.order, step.admission, id);
    if step.AsksStatus? && step.answer.Some? {
      SubmissionIsTracked(w, ApplyStatus(p, step.id, step.answer.value, step.now), step.order, step.admission, id);
    }
    hide AgentRuns.Scheduled;
  }

  /** The engine only gets to know executions that have their entry. */
  lemma EngineAfter(w: World, step: Step, id: Id)
    requires Inv(w) && Enabled(w, step) && !step.EngineMoves?
    ensures EngineTracked(w, Apply(w, step), id)
  {
    if step.Maintains? {
      if id in Apply(w, step).engine { PassSubmits(w, step, id); }
    } else if step.Starts? {
      StartIsTracked(w, step, id);
    } else if step.AsksStatus? || step.BeginsCancel? {
      RequestIsTracked(w, step, id);
    } else {
      assert Apply(w, step).engine == w.engine;
    }
    hide Inv, Enabled, Apply;
  }

  lemma DeadlinesKeepAcceptance(q: Query, id: Id, statuses: map<Id, Status>, now: Millis)
    ensures AfterDeadlines(q, id, statuses, now).accepted == q.accepted
  {
  }

  lemma BeforePassKeeps(w: World, step: Step, id: Id)
    requires Inv(w) && step.Maintains? && Enabled(w, step)
    requires id in BeforePass(w.access, step.now, step.order, step.answers).queries
    ensures id in w.access.queries
    ensures w.access.queries[id].accepted
            == BeforePass(w.access, step.now, step.order, step.answers).queries[id].accepted
  {
    var a := w.access;
    if Has(a, id) {
      assert EntryOk(id, a.queries[id], w.engine);
      DeadlinesKeepAcceptance(a.queries[id], id, step.answers.statuses, step.now);
    }
    hide Inv, EntryOk, AfterDeadlines, Begin, PollAll, FailAll, RequestCancelAll, Select, ValidLimits;
    FirstPassesOnEntry(a, step.now, step.order, step.answers.statuses, id) by {
      if Has(a, id) { LimitsAreValid(w, id); }
    }
    assert Begin(a, step.now).queries == a.queries by { BeginKeepsQueries(a, step.now); }
  }

  lemma LimitsAreValid(w: World, id: Id)
    requires Inv(w) && id in w.access.queries
    ensures ValidLimits(w.access.queries[id].limits)
  {
    assert EntryOk(id, w.access.queries[id], w.engine);
  }

  lemma BeginKeepsQueries(a: Access, now: Millis)
    ensures Begin(a, now).queries == a.queries
  {
  }

  lemma SubmittedStays(w: World, step: Step, id: Id)
    requires Inv(w) && step.Maintains? && Enabled(w, step)
    requires Candidate(BeforePass(w.access, step.now, step.order, step.answers), step.order) == Some(id)
    ensures id in Apply(w, step).access.queries
  {
    var before := BeforePass(w.access, step.now, step.order, step.answers);
    assert id in before.queries && Schedulable(before.queries[id]);
    assert !before.queries[id].accepted;
    hide Inv, Apply, Enabled, Candidate, BeforePass, Asks;
    BeforePassKeeps(w, step, id);
    UnacceptedIsUnrecorded(w, id);
    EntryLeaves(w, step, id);
    if Asks(w.access, step, id) { AskedIsRecorded(w, step, id); }
  }

  lemma UnacceptedIsUnrecorded(w: World, id: Id)
    requires Inv(w) && id in w.access.queries && !w.access.queries[id].accepted
    ensures w.access.queries[id].cacheBytes.None?
  {
    assert EntryOk(id, w.access.queries[id], w.engine);
  }

  lemma StepLosesNothing(w: World, held: set<Id>, step: Step)
    requires Inv(w) && Enabled(w, step) && Truthful(w, held, step) && NothingLost(w, held)
    ensures NothingLost(Apply(w, step), Held(w, held, step))
  {
    var w', held' := Apply(w, step), Held(w, held, step);
    forall id | id in held' ensures id in w'.access.queries {
      assert id in w.access.queries by {
        if id !in held { assert IsOutstanding(w.engine[id].state); }
      }
      LeavesOnlyIfLetGo(w, held, step, id);
    }
    forall id | id in w'.engine && IsOutstanding(w'.engine[id].state) ensures id in w'.access.queries {
      UnfinishedStays(w, held, step, id);
    }
    hide Inv, Enabled, Apply, Truthful, Held;
  }

  lemma LeavesOnlyIfLetGo(w: World, held: set<Id>, step: Step, id: Id)
    requires Inv(w) && Enabled(w, step) && Truthful(w, held, step)
    requires id in w.access.queries && id in Held(w, held, step)
    ensures id in Apply(w, step).access.queries
  {
    hide Inv, Enabled, Apply, Asks;
    EntryLeaves(w, step, id);
    if Asks(w.access, step, id) { assert !step.EngineMoves? by { MovesAskNothing(w.access, step, id); } }
  }

  lemma MovesAskNothing(a: Access, step: Step, id: Id)
    ensures step.EngineMoves? ==> !Asks(a, step, id)
  {
  }

  lemma UnfinishedStays(w: World, held: set<Id>, step: Step, id: Id)
    requires Inv(w) && Enabled(w, step) && NothingLost(w, held)
    requires id in Apply(w, step).engine && IsOutstanding(Apply(w, step).engine[id].state)
    ensures id in Apply(w, step).access.queries
  {
    if !step.EngineMoves? {
      hide Inv, Enabled, Apply, Asks;
      EngineAfter(w, step, id);
      if id in w.access.queries {
        EntryLeaves(w, step, id);
        if Asks(w.access, step, id) { AskedIsRecorded(w, step, id); }
      }
    }
  }

  lemma {:induction false} RunsLoseNothing(w: World, held: set<Id>, steps: seq<Step>, w': World, held': set<Id>)
    requires Inv(w) && NothingLost(w, held) && RunBeside(w, held, steps, w', held')
    ensures NothingLost(w', held')
    decreases |steps|
  {
    hide Inv, NothingLost, Enabled, Apply, Held, Truthful;
    if steps != [] {
      StepKeepsInv(w, steps[0]);
      StepLosesNothing(w, held, steps[0]);
      RunsLoseNothing(Apply(w, steps[0]), Held(w, held, steps[0]), steps[1..], w', held');
    }
  }

  /** Over every run, a result that the engine holds has its entry in the table, which meters
      it and will ask for its release: none is left behind. */
  lemma NoResultIsLeftBehind(steps: seq<Step>, w: World, held: set<Id>, id: Id)
    requires RunBeside(INITIAL_WORLD, {}, steps, w, held)
    ensures id in held ==> id in w.access.queries
    ensures id in w.engine && IsOutstanding(w.engine[id].state) ==> id in w.access.queries
  {
    ReachableStatesAreSafe([], INITIAL_WORLD);
    RunsLoseNothing(INITIAL_WORLD, {}, steps, w, held);
    hide Inv;
  }

  // ---------------------------------------------------------------------
  // The cache itself.
  // ---------------------------------------------------------------------

  /** What a result that the engine holds takes of the cache; of one profile, or of all. */
  ghost function SizeOf(w: World, held: set<Id>, profile: Option<Id>, id: Id): nat
    requires id in w.access.queries
  {
    if id in held && id in w.engine && w.engine[id].bytes.Some?
       && (profile.None? || w.access.queries[id].profile == profile.value)
    then w.engine[id].bytes.value else 0
  }

  ghost function HeldBytes(w: World, held: set<Id>, profile: Option<Id>, qs: map<Id, Query>): nat
    requires qs.Keys <= w.access.queries.Keys
  {
    if qs == map[] then 0
    else var id :| id in qs; SizeOf(w, held, profile, id) + HeldBytes(w, held, profile, qs - {id})
  }

  function MeasureOf(profile: Option<Id>): Measure {
    if profile.None? then Bytes else BytesOf(profile.value)
  }

  /** No result is larger than what its entry is charged for. */
  lemma SizeIsCharged(w: World, held: set<Id>, profile: Option<Id>, id: Id)
    requires Inv(w) && id in w.access.queries
    ensures SizeOf(w, held, profile, id) <= Weight(MeasureOf(profile), w.access.queries[id])
  {
    assert EntryOk(id, w.access.queries[id], w.engine);
    hide Reservations, Budgets, ValidLimits;
  }

  lemma {:induction false} HeldBytesAreCharged(w: World, held: set<Id>, profile: Option<Id>, qs: map<Id, Query>)
    requires Inv(w) && qs.Keys <= w.access.queries.Keys && forall id :: id in qs ==> qs[id] == w.access.queries[id]
    ensures HeldBytes(w, held, profile, qs) <= Total(MeasureOf(profile), qs)
    decreases |qs|
  {
    hide Inv, SizeOf, Weight;
    if qs != map[] {
      var id :| id in qs && HeldBytes(w, held, profile, qs)
                            == SizeOf(w, held, profile, id) + HeldBytes(w, held, profile, qs - {id});
      SizeIsCharged(w, held, profile, id);
      TotalTakesOut(MeasureOf(profile), qs, id);
      HeldBytesAreCharged(w, held, profile, qs - {id});
    }
  }

  lemma {:induction false} RunsBesideAreRuns(w: World, held: set<Id>, steps: seq<Step>, w': World, held': set<Id>)
    requires RunBeside(w, held, steps, w', held')
    ensures Run(w, steps, w')
    decreases |steps|
  {
    hide Enabled, Apply, Truthful, Held;
    if steps != [] { RunsBesideAreRuns(Apply(w, steps[0]), Held(w, held, steps[0]), steps[1..], w', held'); }
  }

  /** Over every run, the results that the engine holds take at most 512 MiB of the cache for
      one profile, and at most 1024 MiB in all. */
  lemma CacheStaysWithinCeilings(steps: seq<Step>, w: World, held: set<Id>, profile: Id)
    requires RunBeside(INITIAL_WORLD, {}, steps, w, held)
    ensures held <= w.access.queries.Keys
    ensures HeldBytes(w, held, Some(profile), w.access.queries) <= 536_870_912
    ensures HeldBytes(w, held, None, w.access.queries) <= 1_073_741_824
  {
    forall id | id in held ensures id in w.access.queries { NoResultIsLeftBehind(steps, w, held, id); }
    RunsBesideAreRuns(INITIAL_WORLD, {}, steps, w, held);
    ReachableStatesAreSafe(steps, w);
    HeldBytesAreCharged(w, held, Some(profile), w.access.queries);
    HeldBytesAreCharged(w, held, None, w.access.queries);
    ChargedBytesStayWithinCeilings(steps, w, profile);
    hide RunBeside, Run, Inv, HeldBytes;
  }
}
