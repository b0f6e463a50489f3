/** The scheduler under every interleaving of its locked sections with those of
    cancellation, deadlines, disconnection and status reports: what is sent to
    the engine, and in which order profiles take their turns. */
module Scheduler {
  import opened Basics
  import opened AgentState
  import opened AgentSteps
  import opened AgentAccess

  // ---------------------------------------------------------------------
  // The order of picks.
  // ---------------------------------------------------------------------

  ghost predicate StrictlySorted(xs: seq<Id>) {
    forall i, j :: 0 <= i < j < |xs| ==> Before(xs[i], xs[j])
  }

  lemma {:induction false} InsertKeepsSorted(xs: seq<Id>, x: Id)
    requires StrictlySorted(xs)
    ensures StrictlySorted(InsertDistinct(xs, x))
  {
    if xs != [] {
      BeforeTotal(x, xs[0]);
      if Before(x, xs[0]) {
        BeforeAsymmetric(x, xs[0]);
        forall j | 0 < j < |xs| ensures Before(x, xs[j]) { BeforeTransitive(x, xs[0], xs[j]); }
      } else if x != xs[0] {
        InsertKeepsSorted(xs[1..], x);
        InsertedElements(xs[1..], x);
        var rest := InsertDistinct(xs[1..], x);
        forall j | 0 <= j < |rest| ensures Before(xs[0], rest[j]) {
          assert rest[j] in rest;
          if rest[j] != x { assert rest[j] in xs[1..]; }
        }
      }
    }
  }

  lemma {:induction false} SortedDistinctIsSorted(xs: seq<Id>)
    ensures StrictlySorted(SortedDistinct(xs))
  {
    if xs != [] {
      SortedDistinctIsSorted(xs[..|xs| - 1]);
      InsertKeepsSorted(SortedDistinct(xs[..|xs| - 1]), xs[|xs| - 1]);
    }
  }

  lemma {:induction false} FirstAfterIsLeast(sorted: seq<Id>, last: Id, p: Id)
    requires StrictlySorted(sorted) && p in sorted && Before(last, p)
    ensures var x := FirstAfter(sorted, last);
            x.Some? && Before(last, x.value) && (x.value == p || Before(x.value, p))
  {
    if !Before(last, sorted[0]) {
      FirstAfterIsLeast(sorted[1..], last, p);
    }
  }

  lemma {:induction false} FirstAfterIsAfter(sorted: seq<Id>, last: Id)
    ensures FirstAfter(sorted, last).Some? ==> Before(last, FirstAfter(sorted, last).value)
  {
    if sorted != [] && !Before(last, sorted[0]) { FirstAfterIsAfter(sorted[1..], last); }
  }

  /** Going up from `a` and wrapping around, `x` comes no later than `p`. */
  predicate OnTheWay(a: Id, x: Id, p: Id) {
    if Before(a, p) then Before(a, x) && (x == p || Before(x, p))
    else Before(a, x) || x == p || Before(x, p)
  }

  lemma NextIsOnTheWay(last: Id, waiting: seq<Id>, p: Id)
    requires p in waiting
    ensures NextProfile(Some(last), waiting).Some?
    ensures OnTheWay(last, NextProfile(Some(last), waiting).value, p)
  {
    var sorted := SortedDistinct(waiting);
    SortedElements(waiting);
    SortedDistinctIsSorted(waiting);
    if Before(last, p) {
      FirstAfterIsLeast(sorted, last, p);
    } else {
      FirstAfterIsAfter(sorted, last);
      var i :| 0 <= i < |sorted| && sorted[i] == p;
    }
  }

  lemma WaysJoin(a: Id, x: Id, y: Id, p: Id)
    requires a != p && x != p && OnTheWay(a, x, p) && OnTheWay(x, y, p)
    ensures OnTheWay(a, y, p)
  {
    BeforeTotal(a, p);
    BeforeTotal(x, p);
    if Before(a, p) {
      if Before(x, y) { BeforeTransitive(a, x, y); }
    } else if Before(x, p) {
    } else {
      if Before(a, x) && Before(x, y) { BeforeTransitive(a, x, y); }
      if Before(x, p) { BeforeAsymmetric(x, p); }
    }
  }

  lemma NotOnItsOwnWay(a: Id, p: Id)
    requires a != p
    ensures !OnTheWay(a, a, p)
  {
    BeforeIrreflexive(a);
    BeforeTotal(a, p);
  }

  /** One pick: the profile picked before, the profiles waiting, the profile picked. */
  datatype Pass = Pass(last: Option<Id>, waiting: seq<Id>, pick: Id)

  ghost predicate Chained(passes: seq<Pass>) {
    && (forall i :: 0 <= i < |passes| ==> NextProfile(passes[i].last, passes[i].waiting) == Some(passes[i].pick))
    && (forall i :: 0 < i < |passes| ==> passes[i].last == Some(passes[i - 1].pick))
  }

  lemma {:induction false} PicksStayOnTheWay(passes: seq<Pass>, i: nat, j: nat, p: Id)
    requires Chained(passes) && i < j < |passes| && passes[i].pick != p
    requires forall k :: i < k <= j ==> p in passes[k].waiting
    requires forall k :: i < k < j ==> passes[k].pick != p
    ensures OnTheWay(passes[i].pick, passes[j].pick, p)
    decreases j
  {
    NextIsOnTheWay(passes[j - 1].pick, passes[j].waiting, p);
    if i < j - 1 {
      PicksStayOnTheWay(passes, i, j - 1, p);
      WaysJoin(passes[i].pick, passes[j - 1].pick, passes[j].pick, p);
    }
  }

  lemma NoneTwiceBeforeTheWaiting(passes: seq<Pass>, i: nat, j: nat, p: Id)
    requires Chained(passes) && i < j < |passes|
    requires passes[i].pick == passes[j].pick != p
    requires forall k :: i < k <= j ==> p in passes[k].waiting
    ensures exists k :: i < k < j && passes[k].pick == p
  {
    if forall k :: i < k < j ==> passes[k].pick != p {
      PicksStayOnTheWay(passes, i, j, p);
      NotOnItsOwnWay(passes[i].pick, p);
    }
  }

  // ---------------------------------------------------------------------
  // Interleaved sections.
  // ---------------------------------------------------------------------

  /** A scheduling thread between its two locked sections. */
  datatype Thread = Checking(id: Id) | Answered(id: Id, accepted: bool)

  datatype System = System(
    access: Access,
    threads: map<nat, Thread>,
    submitted: seq<Id>,
    passes: seq<Pass>)

  datatype Section =
    | Claims(thread: nat, order: seq<Id>)
    | Sends(thread: nat, accepted: bool)
    | Refuses(thread: nat)
    | Finishes(thread: nat, stale: bool)
    | MissesDeadline(id: Id)
    | CancelsUnaccepted(id: Id)
    | RequestsCancel(id: Id)
    | Reports(id: Id, status: Status, now: Millis)
    | Withdraws(id: Id)
    | Postpones(id: Id, attempts: nat, retryAt: Millis)
    | Deletes(id: Id)
    | Admits(profile: Id, conn: Id, sid: Id, eid: Id, limits: Limits, now: Millis)
    | CutsOff(conn: Id)
    | Rearranges(connections: map<Id, Connection>, snapshots: map<Id, Snapshot>)

  /** A query may be cancelled or overdue on the strength of an earlier reading of
      the table, so those sections are enabled whatever its state is now. */
  ghost predicate May(s: System, section: Section) {
    match section
    case Claims(t, order) => t !in s.threads && Lists(order, s.access.queries)
    case Sends(t, accepted) => t in s.threads && s.threads[t].Checking?
    case Refuses(t) => t in s.threads && s.threads[t].Checking?
    case Finishes(t, stale) => t in s.threads && s.threads[t].Answered?
    case Reports(id, status, now) => id in s.access.queries ==> s.access.queries[id].accepted
    case Admits(profile, conn, sid, eid, limits, now) =>
      && eid !in s.access.queries && eid !in s.submitted
      && (forall t :: t in s.threads ==> s.threads[t].id != eid)
      && ValidLimits(limits) && StartCheck(s.access, limits, profile, conn, sid) == Admitted
    case _ => true
  }

  ghost function Do(s: System, section: Section): System
    requires May(s, section)
  {
    var a := s.access;
    match section
    case Claims(t, order) =>
      var pick := Candidate(a, order);
      if pick.None? then s
      else System(Claim(a, order), s.threads[t := Checking(pick.value)], s.submitted,
                  s.passes + [Pass(a.lastScheduled, SchedulableProfiles(a.queries, order),
                                   a.queries[pick.value].profile)])
    case Sends(t, accepted) =>
      s.(threads := s.threads[t := Answered(s.threads[t].id, accepted)],
         submitted := s.submitted + [s.threads[t].id])
    case Refuses(t) => s.(threads := s.threads[t := Answered(s.threads[t].id, false)])
    case Finishes(t, stale) =>
      s.(access := Finish(a, s.threads[t].id,
                          if s.threads[t].accepted then EngineAccepts
                          else if stale then SnapshotStale else EngineRejects),
         threads := s.threads - {t})
    case MissesDeadline(id) => s.(access := FailQueued(a, id, "agent.queue_deadline"))
    case CancelsUnaccepted(id) => s.(access := CancelUnaccepted(a, id))
    case RequestsCancel(id) => s.(access := RequestCancel(a, id))
    case Reports(id, status, now) => s.(access := ApplyStatus(a, id, status, now))
    case Withdraws(id) => s.(access := Unpublish(a, id))
    case Postpones(id, attempts, retryAt) => s.(access := Postpone(a, id, attempts, retryAt))
    case Deletes(id) => s.(access := RemoveQuery(a, id))
    case Admits(profile, conn, sid, eid, limits, now) =>
      s.(access := Admit(a, limits, profile, conn, sid, eid, now))
    case CutsOff(conn) => s.(access := Disconnect(a, conn))
    case Rearranges(connections, snapshots) =>
      s.(access := a.(connections := connections, snapshots := snapshots))
  }

  ghost predicate Interleaving(s: System, sections: seq<Section>, s': System)
    decreases |sections|
  {
    if sections == [] then s' == s
    else May(s, sections[0]) && Interleaving(Do(s, sections[0]), sections[1..], s')
  }

  const IDLE := System(EMPTY_ACCESS, map[], [], [])

  ghost predicate NoRepeats<T>(xs: seq<T>) {
    forall i, j :: 0 <= i < j < |xs| ==> xs[i] != xs[j]
  }

  /** The query left the waiting state for good. */
  predicate Spent(a: Access, id: Id) {
    id in a.queries ==> !Schedulable(a.queries[id])
  }

  ghost predicate Orderly(s: System) {
    && NoRepeats(s.submitted)
    && (forall id :: id in s.submitted ==> Spent(s.access, id))
    && (forall t :: t in s.threads ==> Spent(s.access, s.threads[t].id))
    && (forall t, u :: t in s.threads && u in s.threads && t != u ==> s.threads[t].id != s.threads[u].id)
    && (forall t :: t in s.threads && s.threads[t].Checking? ==> s.threads[t].id !in s.submitted)
    && Chained(s.passes)
    && s.access.lastScheduled == (if s.passes == [] then None else Some(s.passes[|s.passes| - 1].pick))
  }

  /** No section but an admission makes a query schedulable. */
  lemma OnlyAdmissionMakesSchedulable(s: System, section: Section, id: Id)
    requires May(s, section) && Spent(s.access, id)
    requires section.Admits? ==> section.eid != id
    ensures Spent(Do(s, section).access, id)
  {
    hide Total, Earliest, NextProfile;
  }

  lemma ClaimKeepsOrder(s: System, t: nat, order: seq<Id>)
    requires Orderly(s) && May(s, Claims(t, order))
    ensures Orderly(Do(s, Claims(t, order)))
  {
    var section, a := Claims(t, order), s.access;
    var s' := Do(s, section);
    var pick := Candidate(a, order);
    if pick.Some? {
      forall id | id in s.submitted ensures Spent(s'.access, id) { OnlyAdmissionMakesSchedulable(s, section, id); }
      forall u | u in s'.threads ensures Spent(s'.access, s'.threads[u].id) {
        if u != t { OnlyAdmissionMakesSchedulable(s, section, s.threads[u].id); }
      }
      var waiting := SchedulableProfiles(a.queries, order);
      assert NextProfile(a.lastScheduled, waiting) == Some(a.queries[pick.value].profile);
    }
  }

  /** A section other than a claim leaves the threads as they are, or moves one on. */
  lemma ThreadsAndPasses(s: System, section: Section)
    requires May(s, section) && !section.Claims?
    ensures Do(s, section).passes == s.passes && Do(s, section).access.lastScheduled == s.access.lastScheduled
    ensures forall t :: t in Do(s, section).threads ==>
              t in s.threads && Do(s, section).threads[t].id == s.threads[t].id
    ensures forall t :: t in Do(s, section).threads && Do(s, section).threads[t].Checking? ==>
              s.threads[t].Checking? && (section.Sends? ==> t != section.thread)
    ensures Do(s, section).submitted
            == if section.Sends? then s.submitted + [s.threads[section.thread].id] else s.submitted
  {
    hide StartCheck, ValidLimits, FreedByCut, Total, Lists;
  }

  lemma SectionKeepsOrder(s: System, section: Section)
    requires Orderly(s) && May(s, section)
    ensures Orderly(Do(s, section))
  {
    if section.Claims? {
      ClaimKeepsOrder(s, section.thread, section.order);
    } else {
      var s' := Do(s, section);
      ThreadsAndPasses(s, section);
      forall id | id in s.submitted ensures Spent(s'.access, id) { OnlyAdmissionMakesSchedulable(s, section, id); }
      forall t | t in s.threads ensures Spent(s'.access, s.threads[t].id) {
        OnlyAdmissionMakesSchedulable(s, section, s.threads[t].id);
      }
      hide Do, Chained, Spent;
    }
  }

  lemma {:induction false} InterleavingsAreOrderly(s: System, sections: seq<Section>, s': System)
    requires Orderly(s) && Interleaving(s, sections, s')
    ensures Orderly(s')
    decreases |sections|
  {
    if sections != [] {
      SectionKeepsOrder(s, sections[0]);
      InterleavingsAreOrderly(Do(s, sections[0]), sections[1..], s');
    }
  }

  /** Under every interleaving, an execution is sent to the engine at most once. */
  lemma SubmittedAtMostOnce(sections: seq<Section>, s: System)
    requires Interleaving(IDLE, sections, s)
    ensures forall i, j :: 0 <= i < j < |s.submitted| ==> s.submitted[i] != s.submitted[j]
  {
    InterleavingsAreOrderly(IDLE, sections, s);
  }

  /** While a profile keeps a schedulable query, no other profile is picked twice
      before it is picked. */
  lemma TurnsAreFair(sections: seq<Section>, s: System, i: nat, j: nat, p: Id)
    requires Interleaving(IDLE, sections, s)
    requires i < j < |s.passes| && s.passes[i].pick == s.passes[j].pick != p
    requires forall k :: i < k <= j ==> p in s.passes[k].waiting
    ensures exists k :: i < k < j && s.passes[k].pick == p
  {
    InterleavingsAreOrderly(IDLE, sections, s);
    NoneTwiceBeforeTheWaiting(s.passes, i, j, p);
  }

  lemma {:induction false} EarliestIsEarliest(qs: map<Id, Query>, order: seq<Id>, profile: Id, id: Id)
    requires id in order && id in qs && qs[id].profile == profile && Schedulable(qs[id])
    ensures var pick := Earliest(qs, order, profile);
            pick.Some? && qs[pick.value].admittedAt <= qs[id].admittedAt
  {
    var init, last := order[..|order| - 1], order[|order| - 1];
    if id in init { EarliestIsEarliest(qs, init, profile, id); }
    assert order == init + [last];
  }

  /** Within the picked profile the earliest admitted query is claimed, and the
      profile's turn is recorded. */
  lemma ClaimsTheEarliest(a: Access, order: seq<Id>, id: Id)
    requires Lists(order, a.queries) && Candidate(a, order).Some?
    requires id in a.queries && Schedulable(a.queries[id])
    requires a.queries[id].profile == a.queries[Candidate(a, order).value].profile
    ensures a.queries[Candidate(a, order).value].admittedAt <= a.queries[id].admittedAt
    ensures Claim(a, order).lastScheduled == Some(a.queries[id].profile)
  {
    EarliestIsEarliest(a.queries, order, a.queries[id].profile, id);
  }

  /** A pass picks something whenever the engine is idle and a query waits. */
  lemma IdleEngineTakesWaitingQuery(a: Access, order: seq<Id>, id: Id)
    requires Lists(order, a.queries) && !EngineBusy(a.queries)
    requires id in a.queries && Schedulable(a.queries[id])
    ensures Candidate(a, order).Some?
  {
    var waiting := SchedulableProfiles(a.queries, order);
    EarliestIsEarliest(a.queries, order, a.queries[id].profile, id);
    WaitingMeansQuery(a.queries, order, a.queries[id].profile);
    SortedElements(waiting);
    assert a.queries[id].profile in SortedDistinct(waiting);
    WaitingProfileHasQuery(a, order);
  }

  // ---------------------------------------------------------------------
  // What holds only while claim and finish are one step.
  // ---------------------------------------------------------------------

  /** The busy test does not see claimed queries, so two threads can both submit:
      whatever two queries wait, claiming one leaves the other claimable, and
      both end up accepted and unfinished. */
  lemma OverlappingClaimsBothSubmit(a: Access, order: seq<Id>)
    requires Lists(order, a.queries) && Candidate(a, order).Some?
    requires Candidate(Claim(a, order), order).Some?
    ensures var first, second := Candidate(a, order).value, Candidate(Claim(a, order), order).value;
            var b := Claim(Claim(a, order), order);
            var c := Finish(Finish(b, first, EngineAccepts), second, EngineAccepts);
            first != second && Total(Busy, c.queries) >= 2
  {
    hide Earliest, NextProfile, SchedulableProfiles;
    var first, second := Candidate(a, order).value, Candidate(Claim(a, order), order).value;
    var c := Finish(Finish(Claim(Claim(a, order), order), first, EngineAccepts), second, EngineAccepts);
    TwoBusy(c.queries, first, second);
  }

  /** A second claim succeeds before the first has finished exactly if another query waits. */
  lemma SecondClaimIsPossibleIff(a: Access, order: seq<Id>)
    requires Lists(order, a.queries) && Candidate(a, order).Some?
    ensures Candidate(Claim(a, order), order).Some?
            <==> exists other ::
                   other in a.queries && other != Candidate(a, order).value && Schedulable(a.queries[other])
  {
    if other :| other in a.queries && other != Candidate(a, order).value && Schedulable(a.queries[other]) {
      IdleEngineTakesWaitingQuery(Claim(a, order), order, other);
    }
  }

  /** A report that makes an ended entry unfinished again. */
  predicate Revives(s: System, section: Section) {
    section.Reports? && section.id in s.access.queries
    && IsOutstanding(section.status.state) && !IsOutstanding(s.access.queries[section.id].state)
  }

  /** No claim is taken between another's claim and finish, and no entry is revived. */
  ghost predicate OneByOne(s: System, sections: seq<Section>, s': System)
    decreases |sections|
  {
    if sections == [] then s' == s
    else
      && May(s, sections[0]) && (sections[0].Claims? ==> s.threads == map[]) && !Revives(s, sections[0])
      && OneByOne(Do(s, sections[0]), sections[1..], s')
  }

  /** No claim is taken between another's claim and finish. */
  ghost predicate SerialClaims(s: System, sections: seq<Section>)
    decreases |sections|
  {
    sections == [] || !May(s, sections[0])
    || ((sections[0].Claims? ==> s.threads == map[]) && SerialClaims(Do(s, sections[0]), sections[1..]))
  }

  ghost predicate AtMostOneInFlight(qs: map<Id, Query>) {
    forall i, j :: i in qs && j in qs && InFlight(qs[i]) && InFlight(qs[j]) ==> i == j
  }

  /** While a scheduling thread is between its sections nothing is in flight. */
  ghost predicate Calm(s: System) {
    && AtMostOneInFlight(s.access.queries)
    && (forall t, u :: t in s.threads && u in s.threads ==> t == u)
    && (s.threads != map[] ==> !EngineBusy(s.access.queries))
  }

  lemma OnlyFinishTakesOff(s: System, section: Section, id: Id)
    requires May(s, section) && !Revives(s, section)
    requires id in Do(s, section).access.queries && InFlight(Do(s, section).access.queries[id])
    ensures id in s.access.queries
    ensures InFlight(s.access.queries[id]) || (section.Finishes? && s.threads[section.thread].id == id)
  {
    hide Total, Earliest, NextProfile, StartCheck, Candidate, SchedulableProfiles, ValidLimits, ChargedBytes;
    if section.Finishes? { hide Disconnect, ApplyStatus; } else { hide Finish; }
  }

  lemma SectionKeepsCalm(s: System, section: Section)
    requires Calm(s) && May(s, section) && (section.Claims? ==> s.threads == map[]) && !Revives(s, section)
    ensures Calm(Do(s, section))
  {
    hide Claim, Candidate, SchedulableProfiles;
    var s' := Do(s, section);
    forall id | id in s'.access.queries && InFlight(s'.access.queries[id])
      ensures id in s.access.queries
      ensures InFlight(s.access.queries[id]) || (section.Finishes? && s.threads[section.thread].id == id)
    {
      OnlyFinishTakesOff(s, section, id);
    }
    hide Total, Earliest, NextProfile, StartCheck, Finish, Disconnect, ApplyStatus;
  }

  /** With claims taken one by one and no entry revived, no two accepted queries are
      unfinished, whatever else interleaves. */
  lemma {:induction false} OneByOneKeepsOneInFlight(s: System, sections: seq<Section>, s': System)
    requires Calm(s) && OneByOne(s, sections, s')
    ensures AtMostOneInFlight(s'.access.queries)
    decreases |sections|
  {
    if sections != [] {
      SectionKeepsCalm(s, sections[0]);
      OneByOneKeepsOneInFlight(Do(s, sections[0]), sections[1..], s');
    }
  }

  lemma OneInFlightWhenOneByOne(sections: seq<Section>, s: System, i: Id, j: Id)
    requires OneByOne(IDLE, sections, s)
    requires i in s.access.queries && InFlight(s.access.queries[i])
    requires j in s.access.queries && InFlight(s.access.queries[j])
    ensures i == j
  {
    OneByOneKeepsOneInFlight(IDLE, sections, s);
  }
}
