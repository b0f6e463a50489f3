/** What keeps interleaved scheduling within its budgets: a section that ends a query looks
    at its flags again, reports are up to date, and only recorded results are withdrawn. */
module SchedulerChecks {
  import opened Basics
  import opened AgentState
  import opened AgentSteps
  import opened Scheduler
  import opened SchedulerBudgets
  import AgentInvariant

  type Engine = map<Id, AgentInvariant.Execution>

  /** The executions may have moved on; one that has ended stays as it is. */
  ghost predicate MovesOn(e: Engine, e': Engine) {
    e'.Keys == e.Keys && forall id :: id in e ==> AgentInvariant.Advances(e[id], e'[id])
  }

  /** Tests that a section can make on the entry, under the lock, before it acts: a query is
      ended in the table only while no thread has claimed it and the engine does not have it,
      a report says where its execution is now, and what is withdrawn has a recorded size. */
  ghost predicate Checked(s: System, e: Engine, section: Section) {
    var qs := s.access.queries;
    match section
    case MissesDeadline(id) => id in qs ==> !qs[id].claimed && !qs[id].accepted
    case CancelsUnaccepted(id) => id in qs ==> !qs[id].claimed && !qs[id].accepted
    case CutsOff(conn) => forall id :: id in qs && CutOff(qs[id], conn) ==> !qs[id].claimed
    case Reports(id, status, _) => id in qs ==> id in e && AgentInvariant.Reports(e[id], qs[id], status)
    case Withdraws(id) => id in qs ==> qs[id].cacheBytes.Some?
    case _ => true
  }

  /** A submission that the engine takes starts queued, under the result cap of its query. */
  ghost function Submit(s: System, e: Engine, section: Section): Engine
    requires May(s, section)
  {
    if section.Sends? && section.accepted then
      var id := s.threads[section.thread].id;
      var cap := if id in s.access.queries then s.access.queries[id].limits.maximumResultBytes else 0;
      e[id := AgentInvariant.Execution(cap, Queued, None)]
    else e
  }

  /** An interleaving beside an engine that moves between its sections. */
  ghost predicate CheckedRun(s: System, e: Engine, sections: seq<Section>, s': System)
    decreases |sections|
  {
    if sections == [] then s' == s
    else
      exists e1 :: MovesOn(e, e1) && May(s, sections[0]) && Checked(s, e1, sections[0])
                   && CheckedRun(Do(s, sections[0]), Submit(s, e1, sections[0]), sections[1..], s')
  }

  // ---------------------------------------------------------------------
  // The table and the engine agree.
  // ---------------------------------------------------------------------

  /** What the table says of an accepted query. */
  predicate Agrees(q: Query, x: AgentInvariant.Execution) {
    && x.cap == q.limits.maximumResultBytes
    && (q.cacheBytes.Some? ==> x.bytes == q.cacheBytes)
    && (!IsOutstanding(q.state) ==> x.state == q.state && x.bytes == q.cacheBytes)
  }

  predicate EntryAgrees(id: Id, q: Query, e: Engine) {
    && (q.accepted ==> id in e && Agrees(q, e[id]))
    && (!q.accepted ==> q.cacheBytes.None?)
    && (q.claimed ==> !q.accepted && IsOutstanding(q.state))
  }

  predicate ThreadAgrees(th: Thread, qs: map<Id, Query>, e: Engine) {
    th.id in qs ==>
      && qs[th.id].claimed
      && (th.Answered? && th.accepted ==> th.id in e && e[th.id].cap == qs[th.id].limits.maximumResultBytes)
  }

  ghost predicate Agreed(s: System, e: Engine) {
    && (forall id :: id in e ==> AgentInvariant.Honest(e[id]))
    && (forall id :: id in s.access.queries ==> EntryAgrees(id, s.access.queries[id], e))
    && (forall t :: t in s.threads ==> ThreadAgrees(s.threads[t], s.access.queries, e))
    && (forall t, u :: t in s.threads && u in s.threads && t != u ==> s.threads[t].id != s.threads[u].id)
  }

  lemma MovingKeepsAgreed(s: System, e: Engine, e': Engine)
    requires Agreed(s, e) && MovesOn(e, e')
    ensures Agreed(s, e')
  {
  }

  /** Nothing that has been checked raises a total. */
  lemma CheckedRaisesNothing(m: Measure, s: System, e: Engine, section: Section)
    requires Bounded(m) && Agreed(s, e) && AllRecorded(s) && May(s, section) && Checked(s, e, section)
    ensures !Raises(m, s, section)
  {
    if (section.Reports? || section.Withdraws?) && section.id in s.access.queries {
      var q := s.access.queries[section.id];
      assert EntryAgrees(section.id, q, e) && Recorded(q);
    }
  }

  // ---------------------------------------------------------------------
  // Checked sections keep the agreement.
  // ---------------------------------------------------------------------

  lemma ClaimKeepsAgreed(s: System, e: Engine, section: Section)
    requires Agreed(s, e) && May(s, section) && section.Claims?
    ensures Agreed(Do(s, section), e)
  {
    hide Candidate, SchedulableProfiles, Lists, Agrees;
  }

  lemma SendKeepsAgreed(s: System, e: Engine, section: Section)
    requires Agreed(s, e) && May(s, section) && (section.Sends? || section.Refuses?)
    ensures Agreed(Do(s, section), Submit(s, e, section))
  {
    hide Agrees;
  }

  lemma FinishKeepsAgreed(s: System, e: Engine, section: Section)
    requires Agreed(s, e) && May(s, section) && section.Finishes?
    ensures Agreed(Do(s, section), e)
  {
    var th := s.threads[section.thread];
    assert ThreadAgrees(th, s.access.queries, e);
    if th.id in s.access.queries { assert EntryAgrees(th.id, s.access.queries[th.id], e); }
  }

  /** The same threads, and entries that keep their claim or are in no thread. */
  lemma TableKeepsAgreed(s: System, e: Engine, a: Access)
    requires Agreed(s, e)
    requires forall id :: id in a.queries ==> EntryAgrees(id, a.queries[id], e)
    requires forall t :: t in s.threads ==> ThreadAgrees(s.threads[t], a.queries, e)
    ensures Agreed(s.(access := a), e)
  {
  }

  lemma CutKeepsAgreed(s: System, e: Engine, section: Section)
    requires Agreed(s, e) && May(s, section) && Checked(s, e, section) && section.CutsOff?
    ensures Agreed(Do(s, section), e)
  {
    var a := Disconnect(s.access, section.conn);
    forall id | id in a.queries
      ensures EntryAgrees(id, a.queries[id], e)
      ensures a.queries[id].claimed == s.access.queries[id].claimed
              && a.queries[id].limits == s.access.queries[id].limits
    {
      assert EntryAgrees(id, s.access.queries[id], e);
      assert a.queries[id] == CutQuery(s.access.queries[id], section.conn);
    }
    hide Disconnect, EntryAgrees;
    TableKeepsAgreed(s, e, a);
  }

  /** Sections that rewrite one entry. */
  lemma RewriteKeepsAgreed(s: System, e: Engine, id: Id, q: Query, a: Access)
    requires Agreed(s, e) && id in s.access.queries && a.queries == s.access.queries[id := q]
    requires EntryAgrees(id, q, e) && q.claimed == s.access.queries[id].claimed
             && q.limits == s.access.queries[id].limits
    ensures Agreed(s.(access := a), e)
  {
    hide EntryAgrees;
    TableKeepsAgreed(s, e, a);
  }

  lemma EndKeepsAgreed(s: System, e: Engine, section: Section)
    requires Agreed(s, e) && May(s, section) && Checked(s, e, section)
    requires section.MissesDeadline? || section.CancelsUnaccepted?
    ensures Agreed(Do(s, section), e)
  {
    if section.id in s.access.queries {
      var a := Do(s, section).access;
      assert EntryAgrees(section.id, s.access.queries[section.id], e);
      RewriteKeepsAgreed(s, e, section.id, a.queries[section.id], a);
    }
  }

  lemma ReportKeepsAgreed(s: System, e: Engine, section: Section)
    requires Agreed(s, e) && May(s, section) && Checked(s, e, section) && section.Reports?
    ensures Agreed(Do(s, section), e)
  {
    if section.id in s.access.queries {
      var a := ApplyStatus(s.access, section.id, section.status, section.now);
      assert EntryAgrees(section.id, s.access.queries[section.id], e);
      RewriteKeepsAgreed(s, e, section.id, a.queries[section.id], a);
    }
  }

  lemma MarkKeepsAgreed(s: System, e: Engine, section: Section)
    requires Agreed(s, e) && May(s, section)
    requires section.RequestsCancel? || section.Withdraws? || section.Postpones?
    ensures Agreed(Do(s, section), e)
  {
    if section.id in s.access.queries {
      var a := Do(s, section).access;
      assert EntryAgrees(section.id, s.access.queries[section.id], e);
      RewriteKeepsAgreed(s, e, section.id, a.queries[section.id], a);
    }
  }

  lemma ComingAndGoingKeepsAgreed(s: System, e: Engine, section: Section)
    requires Agreed(s, e) && May(s, section)
    requires section.Deletes? || section.Admits? || section.Rearranges?
    ensures Agreed(Do(s, section), e)
  {
    hide StartCheck, ValidLimits, Agrees;
  }

  lemma SectionKeepsAgreed(s: System, e: Engine, section: Section)
    requires Agreed(s, e) && May(s, section) && Checked(s, e, section)
    ensures Agreed(Do(s, section), Submit(s, e, section))
  {
    match section
    case Claims(_, _) => ClaimKeepsAgreed(s, e, section);
    case Sends(_, _) => SendKeepsAgreed(s, e, section);
    case Refuses(_) => SendKeepsAgreed(s, e, section);
    case Finishes(_, _) => FinishKeepsAgreed(s, e, section);
    case MissesDeadline(_) => EndKeepsAgreed(s, e, section);
    case CancelsUnaccepted(_) => EndKeepsAgreed(s, e, section);
    case CutsOff(_) => CutKeepsAgreed(s, e, section);
    case Reports(_, _, _) => ReportKeepsAgreed(s, e, section);
    case RequestsCancel(_) => MarkKeepsAgreed(s, e, section);
    case Withdraws(_) => MarkKeepsAgreed(s, e, section);
    case Postpones(_, _, _) => MarkKeepsAgreed(s, e, section);
    case _ => ComingAndGoingKeepsAgreed(s, e, section);
    hide Agreed, Do, May, Checked;
  }

  // ---------------------------------------------------------------------
  // Runs.
  // ---------------------------------------------------------------------

  lemma {:induction false} CheckedRunRaisesNothing(m: Measure, s: System, e: Engine, sections: seq<Section>, s': System)
    requires Bounded(m) && Agreed(s, e) && AllRecorded(s) && CheckedRun(s, e, sections, s')
    ensures Interleaving(s, sections, s') && Raised(m, s, sections) == 0
    decreases |sections|
  {
    hide Agreed, AllRecorded, Do, May, Checked, Raises, MovesOn, Submit;
    if sections != [] {
      var e1 :| MovesOn(e, e1) && May(s, sections[0]) && Checked(s, e1, sections[0])
                && CheckedRun(Do(s, sections[0]), Submit(s, e1, sections[0]), sections[1..], s');
      MovingKeepsAgreed(s, e, e1);
      CheckedRaisesNothing(m, s, e1, sections[0]);
      SectionKeepsAgreed(s, e1, sections[0]);
      SectionKeepsRecorded(s, sections[0]);
      CheckedRunRaisesNothing(m, Do(s, sections[0]), Submit(s, e1, sections[0]), sections[1..], s');
    }
  }

  /** However the sections interleave: if each is checked in this way, every budget holds. */
  lemma CheckedRunsStayWithinBudgets(sections: seq<Section>, s: System, p: Id)
    requires CheckedRun(IDLE, map[], sections, s)
    ensures Total(BytesOf(p), s.access.queries) <= 512 * MIB && Total(Bytes, s.access.queries) <= 1024 * MIB
    ensures Total(OutstandingOf(p), s.access.queries) <= 8 && Total(Outstanding, s.access.queries) <= 16
    ensures Total(Live, s.access.queries) <= 31 + 15 + 16
  {
    CheckedRunRaisesNothing(Bytes, IDLE, map[], sections, s);
    CheckedRunRaisesNothing(Outstanding, IDLE, map[], sections, s);
    CheckedRunRaisesNothing(Live, IDLE, map[], sections, s);
    hide CheckedRun, Interleaving, Raised;
    ChargesStayWithinCeilings(sections, s, p);
    EntriesStayBounded(sections, s, p);
  }

  lemma {:induction false} SerialIsOneByOne(s: System, sections: seq<Section>, s': System)
    requires Interleaving(s, sections, s') && SerialClaims(s, sections) && Raised(Outstanding, s, sections) == 0
    ensures OneByOne(s, sections, s')
    decreases |sections|
  {
    hide May, Do;
    if sections != [] { SerialIsOneByOne(Do(s, sections[0]), sections[1..], s'); }
  }

  /** If also no claims overlap, there is one query in the engine. */
  lemma CheckedSerialRunsKeepOneInFlight(sections: seq<Section>, s: System, i: Id, j: Id)
    requires CheckedRun(IDLE, map[], sections, s) && SerialClaims(IDLE, sections)
    requires i in s.access.queries && InFlight(s.access.queries[i])
    requires j in s.access.queries && InFlight(s.access.queries[j])
    ensures i == j
  {
    CheckedRunRaisesNothing(Outstanding, IDLE, map[], sections, s);
    SerialIsOneByOne(IDLE, sections, s);
    OneInFlightWhenOneByOne(sections, s, i, j);
  }
}
