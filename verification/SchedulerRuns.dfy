/** Runs that show what interleaved scheduling allows: two queries in the engine, and
    charges above a ceiling, whichever way a query ends while the engine has it. */
module SchedulerRuns {
  import opened Basics
  import opened AgentState
  import opened AgentSteps
  import opened Scheduler

  const LARGEST: Limits := Limits(100, 128 * MIB, 16, 8, 512 * MIB, 1024 * MIB, 10, 10)
  const AGENT := Connection("p", true, 0, 0, None)
  const STATEMENT := Snapshot("c", SafeRead, 0, false)
  function Statements(ids: set<Id>): map<Id, Snapshot> {
    map id | id in ids :: STATEMENT
  }

  function Start(ids: set<Id>): Section {
    Rearranges(map["c" := AGENT], Statements(ids))
  }

  /** The sections can be taken in this order from the idle system. */
  lemma RunExtends(from: System, sections: seq<Section>, s: System, next: Section)
    requires Interleaving(from, sections, s) && May(s, next)
    ensures Interleaving(from, sections + [next], Do(s, next))
    decreases |sections|
  {
    hide May, Do;
    if sections == [] {
      assert [next][1..] == [];
      assert Interleaving(Do(s, next), [], Do(s, next));
      assert sections + [next] == [next];
    } else {
      RunExtends(Do(from, sections[0]), sections[1..], s, next);
      assert (sections + [next])[1..] == sections[1..] + [next];
    }
  }

  // ---------------------------------------------------------------------
  // Admissions of one profile.
  // ---------------------------------------------------------------------

  /** One profile has this many unfinished queries, none with a result, and is charged for
      these bytes. */
  ghost predicate Loaded(qs: map<Id, Query>, unfinished: nat, bytes: nat) {
    && Total(Outstanding, qs) == Total(OutstandingOf("p"), qs) == unfinished
    && Total(Bytes, qs) == Total(BytesOf("p"), qs) == bytes
    && Total(Retained, qs) == Total(RetainedOf("p"), qs) == Total(CleanupPending, qs) == 0
  }

  function Waiting(id: Id): Query {
    NewQuery("p", "c", id, LARGEST, 0)
  }

  lemma InsertLoads(qs: map<Id, Query>, id: Id, unfinished: nat, bytes: nat)
    requires Loaded(qs, unfinished, bytes) && id !in qs
    ensures Loaded(qs[id := Waiting(id)], unfinished + 1, bytes + 128 * MIB)
  {
    TotalOfInsert(Outstanding, qs, id, Waiting(id));
    TotalOfInsert(OutstandingOf("p"), qs, id, Waiting(id));
    TotalOfInsert(Bytes, qs, id, Waiting(id));
    TotalOfInsert(BytesOf("p"), qs, id, Waiting(id));
    TotalOfInsert(Retained, qs, id, Waiting(id));
    TotalOfInsert(RetainedOf("p"), qs, id, Waiting(id));
    TotalOfInsert(CleanupPending, qs, id, Waiting(id));
  }

  /** An entry of the profile without a result. */
  predicate PlainEntry(q: Query) {
    q.profile == "p" && q.limits == LARGEST && q.resultId.None? && q.cacheBytes.None? && !q.cleanupPending
  }

  /** An entry of the profile that goes from unfinished to ended or back. */
  lemma ReplaceLoads(qs: map<Id, Query>, id: Id, q: Query, unfinished: nat, bytes: nat)
    requires Loaded(qs, unfinished, bytes) && id in qs
    requires PlainEntry(qs[id]) && PlainEntry(q)
    ensures var less, more := Indicator(IsOutstanding(qs[id].state)), Indicator(IsOutstanding(q.state));
            && unfinished + more >= less && bytes + more * 128 * MIB >= less * 128 * MIB
            && Loaded(qs[id := q], unfinished + more - less, bytes + more * 128 * MIB - less * 128 * MIB)
  {
    TotalOfReplace(Outstanding, qs, id, q);
    TotalOfReplace(OutstandingOf("p"), qs, id, q);
    TotalOfReplace(Bytes, qs, id, q);
    TotalOfReplace(BytesOf("p"), qs, id, q);
    TotalOfReplace(Retained, qs, id, q);
    TotalOfReplace(RetainedOf("p"), qs, id, q);
    TotalOfReplace(CleanupPending, qs, id, q);
  }

  function AdmitsQuery(id: Id): Section {
    Admits("p", "c", id, id, LARGEST, 0)
  }

  /** There is room for one more of the largest queries. */
  lemma AdmitLoads(s: System, id: Id, unfinished: nat, bytes: nat)
    requires Loaded(s.access.queries, unfinished, bytes) && unfinished < 8 && bytes <= 384 * MIB
    requires id in s.access.snapshots && s.access.snapshots[id] == STATEMENT
    requires id !in s.access.queries && id !in s.submitted && forall t :: t in s.threads ==> s.threads[t].id != id
    ensures May(s, AdmitsQuery(id))
    ensures var a := Do(s, AdmitsQuery(id)).access;
            && a.queries == s.access.queries[id := Waiting(id)]
            && a.snapshots == s.access.snapshots[id := STATEMENT.(reserved := true)]
            && Loaded(a.queries, unfinished + 1, bytes + 128 * MIB)
    ensures Do(s, AdmitsQuery(id)).threads == s.threads && Do(s, AdmitsQuery(id)).submitted == s.submitted
  {
    InsertLoads(s.access.queries, id, unfinished, bytes);
    hide Total;
  }

  lemma Started(ids: set<Id>) returns (s: System)
    ensures Interleaving(IDLE, [Start(ids)], s)
    ensures s == System(Access(None, None, map["c" := AGENT], Statements(ids), map[]), map[], [], [])
    ensures Loaded(s.access.queries, 0, 0)
  {
    s := Do(IDLE, Start(ids));
    assert [Start(ids)][1..] == [] && Interleaving(s, [], s);
  }

  // ---------------------------------------------------------------------
  // Two claims before the first finish.
  // ---------------------------------------------------------------------

  lemma RunExtendsTwice(sections: seq<Section>, s: System, first: Section, second: Section)
    requires Interleaving(IDLE, sections, s) && May(s, first) && May(Do(s, first), second)
    ensures Interleaving(IDLE, sections + [first, second], Do(Do(s, first), second))
  {
    hide Interleaving, May, Do;
    RunExtends(IDLE, sections, s, first);
    RunExtends(IDLE, sections + [first], Do(s, first), second);
    assert sections + [first] + [second] == sections + [first, second];
  }

  lemma ClaimTwice(s: System, order: seq<Id>)
    requires s.threads == map[] && Lists(order, s.access.queries)
    requires Candidate(s.access, order).Some? && Candidate(Claim(s.access, order), order).Some?
    ensures May(s, Claims(0, order)) && May(Do(s, Claims(0, order)), Claims(1, order))
    ensures var s2 := Do(Do(s, Claims(0, order)), Claims(1, order));
            && s2.access == Claim(Claim(s.access, order), order)
            && s2.threads == map[0 := Checking(Candidate(s.access, order).value),
                                 1 := Checking(Candidate(Claim(s.access, order), order).value)]
  {
    hide Candidate, SchedulableProfiles;
  }

  lemma SendTwice(s: System, i: Id, j: Id)
    requires s.threads == map[0 := Checking(i), 1 := Checking(j)]
    ensures May(s, Sends(0, true)) && May(Do(s, Sends(0, true)), Sends(1, true))
    ensures var s2 := Do(Do(s, Sends(0, true)), Sends(1, true));
            && s2.access == s.access && s2.threads == map[0 := Answered(i, true), 1 := Answered(j, true)]
  {
  }

  lemma FinishTwice(s: System, i: Id, j: Id)
    requires s.threads == map[0 := Answered(i, true), 1 := Answered(j, true)]
    ensures May(s, Finishes(0, false)) && May(Do(s, Finishes(0, false)), Finishes(1, false))
    ensures Do(Do(s, Finishes(0, false)), Finishes(1, false)).access
            == Finish(Finish(s.access, i, EngineAccepts), j, EngineAccepts)
  {
    hide Finish;
  }

  /** Two threads that both claim before either has finished both submit. */
  lemma OverlappingThreadsRun(sections: seq<Section>, s: System, order: seq<Id>)
      returns (more: seq<Section>, s': System)
    requires Interleaving(IDLE, sections, s) && s.threads == map[] && Lists(order, s.access.queries)
    requires Candidate(s.access, order).Some?
    requires Candidate(Claim(s.access, order), order).Some?
    ensures Interleaving(IDLE, more, s') && Total(Busy, s'.access.queries) >= 2
  {
    OverlappingClaimsBothSubmit(s.access, order);
    ClaimTwice(s, order);
    hide Total, Candidate, Interleaving, May, Do, Claim, Finish;
    var first, second := Candidate(s.access, order).value, Candidate(Claim(s.access, order), order).value;
    RunExtendsTwice(sections, s, Claims(0, order), Claims(1, order));
    var claimed := Do(Do(s, Claims(0, order)), Claims(1, order));
    SendTwice(claimed, first, second);
    more := sections + [Claims(0, order), Claims(1, order)];
    RunExtendsTwice(more, claimed, Sends(0, true), Sends(1, true));
    var sent := Do(Do(claimed, Sends(0, true)), Sends(1, true));
    FinishTwice(sent, first, second);
    more := more + [Sends(0, true), Sends(1, true)];
    RunExtendsTwice(more, sent, Finishes(0, false), Finishes(1, false));
    s' := Do(Do(sent, Finishes(0, false)), Finishes(1, false));
    more := more + [Finishes(0, false), Finishes(1, false)];
  }

  lemma WaitingIsSchedulable(id: Id)
    ensures Schedulable(Waiting(id)) && !InFlight(Waiting(id))
  {
  }

  /** From the idle system: one agent, two queries, two threads. */
  lemma TwoReachTheEngine(i: Id, j: Id) returns (sections: seq<Section>, s: System)
    requires i != j
    ensures Interleaving(IDLE, sections, s) && Total(Busy, s.access.queries) >= 2
  {
    var s0 := Started({i, j});
    AdmitLoads(s0, i, 0, 0);
    var s1 := Do(s0, AdmitsQuery(i));
    AdmitLoads(s1, j, 1, 128 * MIB);
    var s2 := Do(s1, AdmitsQuery(j));
    sections := [Start({i, j})];
    RunExtends(IDLE, sections, s0, AdmitsQuery(i));
    RunExtends(IDLE, sections + [AdmitsQuery(i)], s1, AdmitsQuery(j));
    assert s2.access.queries == map[i := Waiting(i), j := Waiting(j)] && s2.threads == map[];
    hide Total, Interleaving, Loaded, Do, May, Waiting, Schedulable, InFlight;
    WaitingIsSchedulable(i);
    WaitingIsSchedulable(j);
    var order := [i, j];
    assert Lists(order, s2.access.queries);
    IdleEngineTakesWaitingQuery(s2.access, order, i);
    var other := if Candidate(s2.access, order).value == i then j else i;
    SecondClaimIsPossibleIff(s2.access, order);
    sections, s := OverlappingThreadsRun(sections + [AdmitsQuery(i)] + [AdmitsQuery(j)], s2, order);
  }

  // ---------------------------------------------------------------------
  // Queries that end in the table while the engine has them.
  // ---------------------------------------------------------------------

  /** From the idle system, with claims that do not overlap. */
  ghost predicate SerialRun(sections: seq<Section>, s: System) {
    Interleaving(IDLE, sections, s) && SerialClaims(IDLE, sections)
  }

  lemma {:induction false} SerialClaimsExtend(from: System, sections: seq<Section>, s: System, next: Section)
    requires Interleaving(from, sections, s) && SerialClaims(from, sections)
    requires May(s, next) && (next.Claims? ==> s.threads == map[])
    ensures SerialClaims(from, sections + [next])
    decreases |sections|
  {
    hide May, Do;
    if sections == [] {
      assert [next][1..] == [];
      assert sections + [next] == [next];
    } else {
      SerialClaimsExtend(Do(from, sections[0]), sections[1..], s, next);
      assert (sections + [next])[1..] == sections[1..] + [next];
    }
  }

  lemma SerialRunExtends(sections: seq<Section>, s: System, next: Section)
    requires SerialRun(sections, s) && May(s, next) && (next.Claims? ==> s.threads == map[])
    ensures SerialRun(sections + [next], Do(s, next))
  {
    RunExtends(IDLE, sections, s, next);
    SerialClaimsExtend(IDLE, sections, s, next);
  }

  lemma AnswerAndFinish(s: System, id: Id)
    requires s.threads == map[0 := Checking(id)]
    ensures May(s, Sends(0, true)) && May(Do(s, Sends(0, true)), Finishes(0, false))
    ensures var s2 := Do(Do(s, Sends(0, true)), Finishes(0, false));
            && s2.access == Finish(s.access, id, EngineAccepts) && s2.threads == map[]
            && s2.submitted == s.submitted + [id]
  {
    hide Finish;
  }

  /** A claimed query is sent to the engine and accepted. */
  lemma AcceptanceRun(sections: seq<Section>, s: System, id: Id) returns (more: seq<Section>, s': System)
    requires SerialRun(sections, s) && s.threads == map[0 := Checking(id)]
    ensures SerialRun(more, s') && s'.threads == map[] && s'.submitted == s.submitted + [id]
    ensures s'.access == Finish(s.access, id, EngineAccepts)
    ensures sections <= more
  {
    AnswerAndFinish(s, id);
    hide SerialRun, May, Do, Finish;
    SerialRunExtends(sections, s, Sends(0, true));
    SerialRunExtends(sections + [Sends(0, true)], Do(s, Sends(0, true)), Finishes(0, false));
    more := sections + [Sends(0, true)] + [Finishes(0, false)];
    s' := Do(Do(s, Sends(0, true)), Finishes(0, false));
  }

  lemma OnlyWaitingIsCandidate(a: Access, id: Id)
    requires a.queries == map[id := Waiting(id)]
    ensures Lists([id], a.queries) && Candidate(a, [id]) == Some(id)
  {
    assert Lists([id], a.queries);
    IdleEngineTakesWaitingQuery(a, [id], id);
    hide SchedulableProfiles, NextProfile, Earliest;
  }

  lemma ClaimOnly(s: System, id: Id)
    requires s.threads == map[] && s.access.queries == map[id := Waiting(id)]
    ensures May(s, Claims(0, [id]))
    ensures var s' := Do(s, Claims(0, [id]));
            && s'.access.queries == map[id := Waiting(id).(claimed := true)]
            && s'.threads == map[0 := Checking(id)] && s'.submitted == s.submitted
  {
    OnlyWaitingIsCandidate(s.access, id);
    hide Candidate, SchedulableProfiles;
  }

  lemma StartIsSerial(ids: set<Id>)
    ensures SerialClaims(IDLE, [Start(ids)])
  {
    assert [Start(ids)][1..] == [];
  }

  /** One query, admitted and claimed. */
  lemma FirstIsClaimed(ids: set<Id>, first: Id) returns (sections: seq<Section>, s: System)
    requires first in ids
    ensures SerialRun(sections, s)
    ensures s.access.queries == map[first := Waiting(first).(claimed := true)]
    ensures s.threads == map[0 := Checking(first)] && s.submitted == []
    ensures Loaded(s.access.queries, 1, 128 * MIB)
  {
    var s0 := Started(ids);
    StartIsSerial(ids);
    AdmitLoads(s0, first, 0, 0);
    var s1 := Do(s0, AdmitsQuery(first));
    assert SerialRun([Start(ids)], s0);
    hide SerialRun, Loaded, Do, May;
    SerialRunExtends([Start(ids)], s0, AdmitsQuery(first));
    assert s1.access.queries == map[first := Waiting(first)];
    ClaimOnly(s1, first);
    sections := [Start(ids)] + [AdmitsQuery(first)];
    SerialRunExtends(sections, s1, Claims(0, [first]));
    s := Do(s1, Claims(0, [first]));
    sections := sections + [Claims(0, [first])];
    assert s.access.queries == s1.access.queries[first := s.access.queries[first]];
    ReplaceLoads(s1.access.queries, first, s.access.queries[first], 1, 128 * MIB);
  }

  /** The first query, which has ended and is not charged for, and others that wait. */
  ghost predicate OthersWait(s: System, first: Id, others: seq<Id>) {
    && (forall id :: id in s.access.queries <==> id == first || id in others)
    && first !in others && NoRepeats(others)
    && (forall id :: id in others ==> s.access.queries[id] == Waiting(id))
    && !IsOutstanding(s.access.queries[first].state) && PlainEntry(s.access.queries[first])
    && Loaded(s.access.queries, |others|, |others| * 128 * MIB)
    && (forall id :: id in s.submitted ==> id == first) && (forall t :: t in s.threads ==> s.threads[t].id == first)
  }

  /** Sections that end an unfinished query in the table. */
  predicate Ends(ending: Section, id: Id, q: Query) {
    || ending == MissesDeadline(id)
    || ending == CancelsUnaccepted(id)
    || (ending == CutsOff("c") && !q.accepted)
    || (ending == Reports(id, Status(Failed, None), 0) && q.accepted)
  }

  lemma EndingEnds(s: System, ids: set<Id>, first: Id, ending: Section)
    requires first in s.access.queries && s.access.queries.Keys == {first}
    requires PlainEntry(s.access.queries[first]) && IsOutstanding(s.access.queries[first].state)
    requires s.access.queries[first].connection == "c" && Ends(ending, first, s.access.queries[first])
    ensures May(s, ending) && !ending.Claims? && May(Do(s, ending), Start(ids))
    ensures var s' := Do(s, ending);
            && s'.threads == s.threads && s'.submitted == s.submitted
            && s'.access.queries.Keys == {first}
            && PlainEntry(s'.access.queries[first]) && !IsOutstanding(s'.access.queries[first].state)
            && s'.access.queries[first].accepted == s.access.queries[first].accepted
  {
    hide FreedByCut;
  }

  /** The query ends, and the connection and its statements are there (again). */
  lemma EndingRun(sections: seq<Section>, s: System, ids: set<Id>, first: Id, ending: Section)
      returns (more: seq<Section>, s': System)
    requires SerialRun(sections, s) && first in s.access.queries && s.access.queries.Keys == {first}
    requires PlainEntry(s.access.queries[first]) && IsOutstanding(s.access.queries[first].state)
    requires s.access.queries[first].connection == "c" && Ends(ending, first, s.access.queries[first])
    requires Loaded(s.access.queries, 1, 128 * MIB)
    requires (forall id :: id in s.submitted ==> id == first) && forall t :: t in s.threads ==> s.threads[t].id == first
    ensures SerialRun(more, s') && OthersWait(s', first, []) && ending in more
    ensures s'.threads == s.threads && s'.access.queries[first].accepted == s.access.queries[first].accepted
    ensures s'.access.snapshots == Statements(ids)
  {
    EndingEnds(s, ids, first, ending);
    var s1 := Do(s, ending);
    s' := Do(s1, Start(ids));
    more := sections + [ending] + [Start(ids)];
    assert s'.access.queries == s1.access.queries && s'.threads == s1.threads && s'.submitted == s1.submitted
           && s'.access.snapshots == Statements(ids);
    OnlyEndedIsLeft(s, s', first);
    hide SerialRun, OthersWait, May, Loaded, Waiting, PlainEntry, Ends, Do, Statements;
    SerialRunExtends(sections, s, ending);
    SerialRunExtends(sections + [ending], s1, Start(ids));
  }

  lemma OnlyEndedIsLeft(s: System, s': System, first: Id)
    requires s.access.queries.Keys == s'.access.queries.Keys == {first}
    requires PlainEntry(s.access.queries[first]) && IsOutstanding(s.access.queries[first].state)
    requires PlainEntry(s'.access.queries[first]) && !IsOutstanding(s'.access.queries[first].state)
    requires Loaded(s.access.queries, 1, 128 * MIB)
    requires forall id :: id in s'.submitted ==> id == first
    requires forall t :: t in s'.threads ==> s'.threads[t].id == first
    ensures OthersWait(s', first, [])
  {
    var q := s'.access.queries[first];
    assert s'.access.queries == s.access.queries[first := q];
    ReplaceLoads(s.access.queries, first, q, 1, 128 * MIB);
    hide Loaded, PlainEntry;
  }

  lemma WithOneMore(s: System, s': System, first: Id, others: seq<Id>, id: Id)
    requires OthersWait(s, first, others) && id !in others && id != first
    requires s'.access.queries == s.access.queries[id := Waiting(id)]
    requires s'.threads == s.threads && s'.submitted == s.submitted
    requires Loaded(s'.access.queries, |others| + 1, (|others| + 1) * 128 * MIB)
    ensures OthersWait(s', first, others + [id]) && s'.access.queries[first] == s.access.queries[first]
  {
    hide Loaded, PlainEntry, Waiting, IsOutstanding;
  }

  lemma Waits(s: System, first: Id, others: seq<Id>, id: Id)
    requires OthersWait(s, first, others) && id !in others && id != first
    ensures Loaded(s.access.queries, |others|, |others| * 128 * MIB) && id !in s.access.queries && id !in s.submitted
    ensures first in s.access.queries && forall t :: t in s.threads ==> s.threads[t].id != id
  {
    hide Loaded, PlainEntry, Waiting;
  }

  /** The run goes on by admissions of other queries alone. */
  ghost predicate Keeps(s: System, s': System, first: Id) {
    s'.threads == s.threads && first in s.access.queries && first in s'.access.queries
    && s'.access.queries[first] == s.access.queries[first]
  }

  lemma AdmitsOneMore(s: System, first: Id, others: seq<Id>, id: Id)
    requires OthersWait(s, first, others) && |others| <= 3
    requires id !in others && id != first && id in s.access.snapshots && s.access.snapshots[id] == STATEMENT
    ensures May(s, AdmitsQuery(id))
    ensures var s' := Do(s, AdmitsQuery(id));
            && OthersWait(s', first, others + [id]) && s'.threads == s.threads
            && first in s.access.queries && first in s'.access.queries
            && s'.access.queries[first] == s.access.queries[first]
            && s'.access.snapshots == s.access.snapshots[id := STATEMENT.(reserved := true)]
  {
    hide *;
    Waits(s, first, others, id);
    AdmitLoads(s, id, |others|, |others| * 128 * MIB);
    WithOneMore(s, Do(s, AdmitsQuery(id)), first, others, id);
  }

  lemma KeepsFirst(s: System, s': System, first: Id)
    requires s'.threads == s.threads && first in s.access.queries && first in s'.access.queries
    requires s'.access.queries[first] == s.access.queries[first]
    ensures Keeps(s, s', first)
  {
  }

  lemma AdmitIsNoClaim(id: Id)
    ensures !AdmitsQuery(id).Claims?
  {
  }

  lemma OneMoreWaits(sections: seq<Section>, s: System, first: Id, others: seq<Id>, id: Id)
      returns (more: seq<Section>, s': System)
    requires SerialRun(sections, s) && OthersWait(s, first, others) && |others| <= 3
    requires id !in others && id != first && id in s.access.snapshots && s.access.snapshots[id] == STATEMENT
    ensures SerialRun(more, s') && OthersWait(s', first, others + [id]) && sections <= more && Keeps(s, s', first)
    ensures s'.access.snapshots == s.access.snapshots[id := STATEMENT.(reserved := true)]
  {
    hide *;
    AdmitsOneMore(s, first, others, id);
    AdmitIsNoClaim(id);
    SerialRunExtends(sections, s, AdmitsQuery(id));
    more, s' := sections + [AdmitsQuery(id)], Do(s, AdmitsQuery(id));
    KeepsFirst(s, s', first);
  }

  /** Others come to wait, one after the other. */
  lemma {:induction false} OthersComeToWait(sections: seq<Section>, s: System, first: Id, others: seq<Id>)
      returns (more: seq<Section>, s': System)
    requires SerialRun(sections, s) && OthersWait(s, first, [])
    requires |others| <= 4 && NoRepeats(others) && first !in others
    requires forall id :: id in others ==> id in s.access.snapshots && s.access.snapshots[id] == STATEMENT
    ensures SerialRun(more, s') && OthersWait(s', first, others) && sections <= more && Keeps(s, s', first)
    ensures forall id :: id in s.access.snapshots && id !in others ==>
              id in s'.access.snapshots && s'.access.snapshots[id] == s.access.snapshots[id]
  {
    if others == [] {
      more, s' := sections, s;
    } else {
      var init, id := others[..|others| - 1], others[|others| - 1];
      var s1: System;
      more, s1 := OthersComeToWait(sections, s, first, init);
      hide SerialRun, OthersWait;
      more, s' := OneMoreWaits(more, s1, first, init, id);
      assert init + [id] == others;
    }
  }

  lemma FinishLoads(a: Access, id: Id, unfinished: nat, bytes: nat)
    requires id in a.queries && PlainEntry(a.queries[id]) && Loaded(a.queries, unfinished, bytes)
    ensures var b := Finish(a, id, EngineAccepts);
            && Loaded(b.queries, unfinished, bytes)
            && b.queries == a.queries[id := a.queries[id].(accepted := true, claimed := false, snapshotId := None)]
  {
    ReplaceLoads(a.queries, id, a.queries[id].(accepted := true, claimed := false, snapshotId := None),
                 unfinished, bytes);
  }

  lemma TurnLoads(a: Access, order: seq<Id>, unfinished: nat, bytes: nat)
    requires Candidate(a, order).Some? && PlainEntry(a.queries[Candidate(a, order).value])
    requires Loaded(a.queries, unfinished, bytes)
    ensures var id := Candidate(a, order).value;
            var b := Finish(Claim(a, order), id, EngineAccepts);
            && Loaded(b.queries, unfinished, bytes)
            && b.queries == a.queries[id := a.queries[id].(accepted := true, claimed := false, snapshotId := None)]
  {
    var id := Candidate(a, order).value;
    hide Candidate;
    ReplaceLoads(a.queries, id, a.queries[id].(accepted := true, claimed := false, snapshotId := None),
                 unfinished, bytes);
    hide Loaded;
    assert Finish(Claim(a, order), id, EngineAccepts).queries
           == a.queries[id := a.queries[id].(accepted := true, claimed := false, snapshotId := None)];
  }

  /** A thread takes its turn alone: claims, is answered and finishes. */
  lemma TurnRun(sections: seq<Section>, s: System, order: seq<Id>) returns (more: seq<Section>, s': System)
    requires SerialRun(sections, s) && s.threads == map[] && Lists(order, s.access.queries)
    requires Candidate(s.access, order).Some?
    ensures SerialRun(more, s') && s'.threads == map[] && sections <= more
    ensures s'.access == Finish(Claim(s.access, order), Candidate(s.access, order).value, EngineAccepts)
  {
    hide Candidate, SerialRun, SchedulableProfiles, Claim, Finish;
    var claim := Claims(0, order);
    SerialRunExtends(sections, s, claim);
    more, s' := AcceptanceRun(sections + [claim], Do(s, claim), Candidate(s.access, order).value);
  }

  /** The engine has the first query, which has ended in the table; four others wait. */
  ghost predicate Overtaken(qs: map<Id, Query>, first: Id, others: seq<Id>) {
    && (forall id :: id in qs <==> id == first || id in others)
    && (forall id :: id in others ==> qs[id] == Waiting(id))
    && first !in others && PlainEntry(qs[first]) && qs[first].accepted && !IsOutstanding(qs[first].state)
    && Loaded(qs, |others|, |others| * 128 * MIB)
  }

  lemma SnapshotsForAll(ids: set<Id>, first: Id, others: seq<Id>)
    requires ids == {first} + (set id | id in others)
    ensures forall id :: id in others ==> id in Statements(ids) && Statements(ids)[id] == STATEMENT
  {
  }

  /** The query ends between its claim and its finish, and its submission comes back accepted. */
  lemma EndedBeforeAcceptance(first: Id, others: seq<Id>, ending: Section)
      returns (sections: seq<Section>, s: System)
    requires |others| == 4 && NoRepeats(others) && first !in others
    requires ending in {MissesDeadline(first), CancelsUnaccepted(first), CutsOff("c")}
    ensures SerialRun(sections, s) && s.threads == map[] && Overtaken(s.access.queries, first, others)
    ensures ending in sections
  {
    var ids := {first} + (set id | id in others);
    var s1, s2, s3: System;
    sections, s1 := FirstIsClaimed(ids, first);
    hide SerialRun, Loaded, Finish;
    sections, s2 := EndingRun(sections, s1, ids, first, ending);
    SnapshotsForAll(ids, first, others);
    hide *;
    sections, s3 := OthersComeToWait(sections, s2, first, others);
    assert s3.threads == s1.threads by { SameThreads(s2, s3, first); }
    sections, s := AcceptanceRun(sections, s3, first);
    AcceptanceOvertakes(s3, first, others);
  }

  lemma SameThreads(s: System, s': System, first: Id)
    requires Keeps(s, s', first)
    ensures s'.threads == s.threads
  {
  }

  lemma AcceptanceOvertakes(s: System, first: Id, others: seq<Id>)
    requires OthersWait(s, first, others)
    ensures Overtaken(Finish(s.access, first, EngineAccepts).queries, first, others)
  {
    hide Loaded;
    FinishLoads(s.access, first, |others|, |others| * 128 * MIB);
    hide Finish;
  }

  /** The query is accepted, and then ends in the table. */
  lemma EndedAfterAcceptance(first: Id, others: seq<Id>, ending: Section)
      returns (sections: seq<Section>, s: System)
    requires |others| == 4 && NoRepeats(others) && first !in others
    requires ending in {MissesDeadline(first), CancelsUnaccepted(first), Reports(first, Status(Failed, None), 0)}
    ensures SerialRun(sections, s) && s.threads == map[] && Overtaken(s.access.queries, first, others)
    ensures ending in sections
  {
    var ids := {first} + (set id | id in others);
    var s1, s2, s3: System;
    sections, s1 := FirstIsClaimed(ids, first);
    hide SerialRun, Loaded;
    sections, s2 := AcceptanceRun(sections, s1, first);
    FinishLoads(s1.access, first, 1, 128 * MIB);
    hide Finish;
    sections, s3 := EndingRun(sections, s2, ids, first, ending);
    SnapshotsForAll(ids, first, others);
    hide Waiting, PlainEntry;
    sections, s := OthersComeToWait(sections, s3, first, others);
  }

  lemma SomeOtherIsNext(a: Access, first: Id, others: seq<Id>)
    requires Overtaken(a.queries, first, others) && others != [] && NoRepeats(others)
    ensures var order := [first] + others;
            && Lists(order, a.queries) && Candidate(a, order).Some?
            && Candidate(a, order).value in others && Candidate(a, order).value != first
  {
    var order := [first] + others;
    hide Loaded, PlainEntry, Candidate;
    assert Lists(order, a.queries);
    assert !EngineBusy(a.queries) && Schedulable(Waiting(others[0])) && others[0] in others;
    IdleEngineTakesWaitingQuery(a, order, others[0]);
  }

  /** A report brings the first query back while another is in the engine. */
  lemma ReportLoads(s: System, first: Id, id: Id)
    requires first in s.access.queries && id in s.access.queries && id != first && InFlight(s.access.queries[id])
    requires PlainEntry(s.access.queries[first]) && s.access.queries[first].accepted
    requires !IsOutstanding(s.access.queries[first].state)
    requires Loaded(s.access.queries, 4, 4 * 128 * MIB)
    ensures var report := Reports(first, Status(Running, None), 0);
            && May(s, report) && Loaded(Do(s, report).access.queries, 5, 640 * MIB)
            && !AtMostOneInFlight(Do(s, report).access.queries)
  {
    var report := Reports(first, Status(Running, None), 0);
    var q := Do(s, report).access.queries[first];
    assert Do(s, report).access.queries == s.access.queries[first := q];
    assert PlainEntry(q) && IsOutstanding(q.state) && InFlight(q);
    assert !AtMostOneInFlight(s.access.queries[first := q]) by {
      assert id in s.access.queries[first := q] && first in s.access.queries[first := q];
    }
    hide Do, May, PlainEntry, Loaded, InFlight, IsOutstanding, AtMostOneInFlight;
    ReplaceLoads(s.access.queries, first, q, 4, 4 * 128 * MIB);
  }

  /** One of the others takes its turn, and then the engine reports the first running. */
  lemma ReportRevives(sections: seq<Section>, s: System, first: Id, others: seq<Id>)
      returns (more: seq<Section>, s': System)
    requires SerialRun(sections, s) && s.threads == map[] && Overtaken(s.access.queries, first, others)
    requires |others| == 4 && NoRepeats(others)
    ensures SerialRun(more, s') && !AtMostOneInFlight(s'.access.queries) && sections <= more
    ensures Loaded(s'.access.queries, 5, 640 * MIB)
  {
    var order := [first] + others;
    hide SerialRun, Loaded, Candidate, Claim, Finish, Do, May, AtMostOneInFlight, Lists;
    SomeOtherIsNext(s.access, first, others);
    TurnLoads(s.access, order, 4, 4 * 128 * MIB);
    var s1: System;
    more, s1 := TurnRun(sections, s, order);
    ReportLoads(s1, first, Candidate(s.access, order).value);
    var report := Reports(first, Status(Running, None), 0);
    SerialRunExtends(more, s1, report);
    more, s' := more + [report], Do(s1, report);
  }

  /** A query that misses its deadline, is cancelled or loses its connection between its claim
      and its finish is accepted all the same. Once the engine reports it running, its profile
      is charged for five of the largest results, above the ceiling of four, and two queries
      are in the engine, although no claims overlapped. */
  lemma EndedBeforeAcceptanceBreaksTheCeiling(first: Id, others: seq<Id>, ending: Section)
      returns (sections: seq<Section>, s: System)
    requires |others| == 4 && NoRepeats(others) && first !in others
    requires ending in {MissesDeadline(first), CancelsUnaccepted(first), CutsOff("c")}
    ensures Interleaving(IDLE, sections, s) && SerialClaims(IDLE, sections) && ending in sections
    ensures Total(BytesOf("p"), s.access.queries) == 640 * MIB > 512 * MIB
    ensures !AtMostOneInFlight(s.access.queries)
  {
    var s0: System;
    sections, s0 := EndedBeforeAcceptance(first, others, ending);
    sections, s := ReportRevives(sections, s0, first, others);
    hide Interleaving, SerialClaims, Total, AtMostOneInFlight;
  }

  /** The same of a query that the engine has accepted, whose deadline or cancellation was
      decided before, and of one whose older report arrives after a report of its end. */
  lemma EndedAfterAcceptanceBreaksTheCeiling(first: Id, others: seq<Id>, ending: Section)
      returns (sections: seq<Section>, s: System)
    requires |others| == 4 && NoRepeats(others) && first !in others
    requires ending in {MissesDeadline(first), CancelsUnaccepted(first), Reports(first, Status(Failed, None), 0)}
    ensures Interleaving(IDLE, sections, s) && SerialClaims(IDLE, sections) && ending in sections
    ensures Total(BytesOf("p"), s.access.queries) == 640 * MIB > 512 * MIB
    ensures !AtMostOneInFlight(s.access.queries)
  {
    var s0: System;
    sections, s0 := EndedAfterAcceptance(first, others, ending);
    sections, s := ReportRevives(sections, s0, first, others);
    hide Interleaving, SerialClaims, Total, AtMostOneInFlight;
  }

  /** And the withdrawal of an ended query without a result charges it again. */
  lemma WithdrawalBreaksTheCeiling(first: Id, others: seq<Id>) returns (sections: seq<Section>, s: System)
    requires |others| == 4 && NoRepeats(others) && first !in others
    ensures Interleaving(IDLE, sections, s) && Withdraws(first) in sections
    ensures Total(BytesOf("p"), s.access.queries) == 640 * MIB > 512 * MIB
  {
    var s0: System;
    sections, s0 := EndedAfterAcceptance(first, others, Reports(first, Status(Failed, None), 0));
    RunExtends(IDLE, sections, s0, Withdraws(first));
    sections, s := sections + [Withdraws(first)], Do(s0, Withdraws(first));
    var q := s.access.queries[first];
    assert s.access.queries == s0.access.queries[first := q];
    hide Interleaving, SerialClaims, Do, May;
    TotalOfReplace(BytesOf("p"), s0.access.queries, first, q);
    hide Total;
  }
}
