/** Byte and entry budgets under every interleaving of locked sections: which sections can
    raise a total that admission has checked, by how much, and what keeps them from it. */
module SchedulerBudgets {
  import opened Basics
  import opened AgentState
  import opened AgentSteps
  import opened Scheduler
  import AgentInvariant

  // ---------------------------------------------------------------------
  // Sections that raise a charge.
  // ---------------------------------------------------------------------

  /** The measures that admission bounds. */
  predicate Bounded(m: Measure) {
    m.Bytes? || m.BytesOf? || m.Outstanding? || m.OutstandingOf? || m.Live?
  }

  function Ceiling(m: Measure): nat
    requires Bounded(m)
  {
    match m
    case Bytes => AgentInvariant.GLOBAL_BYTE_CEILING
    case BytesOf(_) => AgentInvariant.PROFILE_BYTE_CEILING
    case Outstanding => MAX_AGENT_QUERIES_GLOBAL
    case OutstandingOf(_) => 8
    case Live => AgentInvariant.LIVE_CEILING
  }

  /** What one entry can weigh. */
  function Heaviest(m: Measure): nat {
    if m.Bytes? || m.BytesOf? then 128 * MIB else 1
  }

  predicate Concerns(m: Measure, q: Query) {
    (m.BytesOf? ==> q.profile == m.profile) && (m.OutstandingOf? ==> q.profile == m.profile)
  }

  /** A report that finds the entry ended although the engine has more to say. */
  predicate ReportRaises(m: Measure, q: Query, status: Status) {
    if m.Outstanding? || m.OutstandingOf? then IsOutstanding(status.state) && !IsOutstanding(q.state)
    else if m.Live? then !IsLive(q) && (IsOutstanding(status.state) || status.bytes.Some?)
    else if status.bytes.Some? then status.bytes.value > ChargedBytes(q)
    else !IsLive(q) && IsOutstanding(status.state)
  }

  predicate Raises(m: Measure, s: System, section: Section) {
    match section
    case Reports(id, status, _) =>
      && id in s.access.queries && Concerns(m, s.access.queries[id])
      && ReportRaises(m, s.access.queries[id], status)
    case Withdraws(id) =>
      && id in s.access.queries && Concerns(m, s.access.queries[id])
      && !m.Outstanding? && !m.OutstandingOf? && !IsLive(s.access.queries[id])
    case _ => false
  }

  /** A result has a size, and a size recorded stays with its entry until that is deleted. */
  predicate Recorded(q: Query) {
    && ValidLimits(q.limits)
    && (q.resultId.Some? ==> q.cacheBytes.Some?)
    && (q.cacheBytes.Some? ==> q.resultId.Some? || q.cleanupPending)
  }

  ghost predicate AllRecorded(s: System) {
    forall id :: id in s.access.queries ==> Recorded(s.access.queries[id])
  }

  /** The entry keeps what is recorded of it, and is not unfinished again. */
  predicate Eases(q: Query, q': Query) {
    && q'.profile == q.profile && q'.limits == q.limits
    && q'.resultId == q.resultId && q'.cacheBytes == q.cacheBytes && q'.cleanupPending == q.cleanupPending
    && (IsOutstanding(q'.state) ==> IsOutstanding(q.state))
  }

  predicate Quiet(section: Section) {
    !section.Admits? && !section.Reports? && !section.Withdraws?
  }

  ghost predicate TableEases(a: Access, a': Access) {
    forall id :: id in a'.queries ==> id in a.queries && Eases(a.queries[id], a'.queries[id])
  }

  lemma ClaimEases(a: Access, order: seq<Id>)
    ensures TableEases(a, Claim(a, order))
  {
    hide Candidate;
  }

  lemma FinishEases(a: Access, id: Id, admission: Admission)
    ensures TableEases(a, Finish(a, id, admission))
  {
  }

  lemma DisconnectEases(a: Access, conn: Id)
    ensures TableEases(a, Disconnect(a, conn))
  {
    forall id | id in a.queries ensures Eases(a.queries[id], CutQuery(a.queries[id], conn)) {
      CutEases(a.queries[id], conn);
    }
    hide FreedByCut, Eases, CutQuery;
  }

  lemma QuietEases(s: System, section: Section)
    requires May(s, section) && Quiet(section)
    ensures TableEases(s.access, Do(s, section).access)
  {
    match section
    case Claims(t, order) =>
      ClaimEases(s.access, order);
      hide Eases, Claim, Candidate, Lists, SchedulableProfiles;
    case Finishes(t, stale) =>
      var admission := if s.threads[t].accepted then EngineAccepts else if stale then SnapshotStale else EngineRejects;
      FinishEases(s.access, s.threads[t].id, admission);
      hide Eases, Finish;
    case CutsOff(conn) =>
      DisconnectEases(s.access, conn);
      hide Eases, Disconnect;
    case _ =>
      hide Finish, Disconnect, Claim, Candidate, Lists, SchedulableProfiles, StartCheck, ValidLimits, Unreserve;
  }

  lemma CutEases(q: Query, conn: Id)
    ensures Eases(q, CutQuery(q, conn))
  {
  }

  /** A report or a withdrawal rewrites the entry that it names. */
  function Rewritten(q: Query, id: Id, section: Section): Query
    requires section.Reports? || section.Withdraws?
  {
    var alone := Access(None, None, map[], map[], map[id := q]);
    if section.id != id then q
    else if section.Reports? then ApplyStatus(alone, id, section.status, section.now).queries[id]
    else Unpublish(alone, id).queries[id]
  }

  lemma EntryRewritten(s: System, section: Section, id: Id)
    requires May(s, section) && (section.Reports? || section.Withdraws?) && id in Do(s, section).access.queries
    ensures id in s.access.queries
    ensures Do(s, section).access.queries[id] == Rewritten(s.access.queries[id], id, section)
  {
    if section.Reports? {
      assert Do(s, section).access == ApplyStatus(s.access, section.id, section.status, section.now);
    } else {
      assert Do(s, section).access == Unpublish(s.access, section.id);
    }
    hide Do, May;
  }

  lemma RewrittenStaysRecorded(q: Query, id: Id, section: Section)
    requires Recorded(q) && (section.Reports? || section.Withdraws?)
    ensures Recorded(Rewritten(q, id, section))
  {
    hide ValidLimits;
  }

  lemma SectionKeepsRecorded(s: System, section: Section)
    requires AllRecorded(s) && May(s, section)
    ensures AllRecorded(Do(s, section))
  {
    var s' := Do(s, section);
    if section.Admits? {
      hide StartCheck, ValidLimits;
    } else {
      forall id | id in s'.access.queries ensures Recorded(s'.access.queries[id]) {
        if Quiet(section) {
          QuietEases(s, section);
        } else {
          EntryRewritten(s, section, id);
          RewrittenStaysRecorded(s.access.queries[id], id, section);
        }
      }
      hide Do, May, Rewritten;
    }
  }

  lemma ReportedRises(m: Measure, q: Query, id: Id, section: Section)
    requires Bounded(m) && Recorded(q) && section.Reports? && section.id == id
    ensures Weight(m, Rewritten(q, id, section)) > Weight(m, q)
            <==> Concerns(m, q) && ReportRaises(m, q, section.status)
  {
    var q' := Rewritten(q, id, section);
    assert q'.profile == q.profile && q'.limits == q.limits && q'.cleanupPending == q.cleanupPending
           && q'.state == section.status.state
           && q'.cacheBytes == (if section.status.bytes.None? then q.cacheBytes else section.status.bytes)
           && q'.resultId == (if section.status.bytes.None? then q.resultId else Some(id));
    hide Rewritten;
  }

  lemma WithdrawnRises(m: Measure, q: Query, id: Id, section: Section)
    requires Bounded(m) && Recorded(q) && section.Withdraws? && section.id == id
    ensures Weight(m, Rewritten(q, id, section)) > Weight(m, q)
            <==> Concerns(m, q) && !m.Outstanding? && !m.OutstandingOf? && !IsLive(q)
  {
    var q' := Rewritten(q, id, section);
    assert q' == q.(resultId := None, cleanupPending := true, cleanupRetryAt := None);
    hide Rewritten;
  }

  lemma EasingWeighsNoMore(m: Measure, q: Query, q': Query)
    requires Bounded(m) && Eases(q, q')
    ensures Weight(m, q') <= Weight(m, q)
  {
  }

  /** Of a measure that is bounded, an entry gets heavier exactly by such a section. */
  lemma EntryRises(m: Measure, s: System, section: Section, id: Id)
    requires Bounded(m) && AllRecorded(s) && May(s, section) && !section.Admits?
    requires id in Do(s, section).access.queries
    ensures id in s.access.queries
    ensures Weight(m, Do(s, section).access.queries[id]) > Weight(m, s.access.queries[id])
            <==> Raises(m, s, section) && section.id == id
  {
    hide Do, May, Rewritten, Concerns, ReportRaises, Recorded, Weight, Eases;
    if Quiet(section) {
      QuietEases(s, section);
      EasingWeighsNoMore(m, s.access.queries[id], Do(s, section).access.queries[id]);
    } else {
      EntryRewritten(s, section, id);
      if section.id != id {
        OthersStay(s.access.queries[id], id, section);
      } else if section.Reports? {
        ReportedRises(m, s.access.queries[id], id, section);
      } else {
        WithdrawnRises(m, s.access.queries[id], id, section);
      }
    }
  }

  lemma OthersStay(q: Query, id: Id, section: Section)
    requires (section.Reports? || section.Withdraws?) && section.id != id
    ensures Rewritten(q, id, section) == q
  {
  }

  /** In any interleaving, a section other than an admission makes some entry weigh more
      exactly if it is a report or a withdrawal that finds the entry spent, or a report of a
      result larger than what the entry is charged for. */
  lemma WeightRisesIff(m: Measure, sections: seq<Section>, s: System, section: Section)
    requires Bounded(m) && Interleaving(IDLE, sections, s) && May(s, section) && !section.Admits?
    ensures Raises(m, s, section)
            <==> exists id ::
                   && id in s.access.queries && id in Do(s, section).access.queries
                   && Weight(m, Do(s, section).access.queries[id]) > Weight(m, s.access.queries[id])
  {
    InterleavingsKeepRecorded(IDLE, sections, s);
    forall id | id in Do(s, section).access.queries
      ensures id in s.access.queries
      ensures Weight(m, Do(s, section).access.queries[id]) > Weight(m, s.access.queries[id])
              <==> Raises(m, s, section) && section.id == id
    {
      EntryRises(m, s, section, id);
    }
    if Raises(m, s, section) { NamedStays(s, section); }
    hide Interleaving, May, Do, Weight, Raises;
  }

  lemma NamedStays(s: System, section: Section)
    requires May(s, section) && (section.Reports? || section.Withdraws?) && section.id in s.access.queries
    ensures section.id in Do(s, section).access.queries
  {
    hide Disconnect, Finish, Claim, Admit, StartCheck, ValidLimits;
  }

  lemma {:induction false} InterleavingsKeepRecorded(s: System, sections: seq<Section>, s': System)
    requires AllRecorded(s) && Interleaving(s, sections, s')
    ensures AllRecorded(s')
    decreases |sections|
  {
    if sections != [] {
      SectionKeepsRecorded(s, sections[0]);
      InterleavingsKeepRecorded(Do(s, sections[0]), sections[1..], s');
    }
  }

  // ---------------------------------------------------------------------
  // Totals over an interleaving.
  // ---------------------------------------------------------------------

  /** A report brings no more bytes than the query's cap, or than it is charged for. */
  predicate Capped(m: Measure, s: System, section: Section) {
    (m.Bytes? || m.BytesOf?) && section.Reports? && section.id in s.access.queries && section.status.bytes.Some? ==>
      var q := s.access.queries[section.id];
      section.status.bytes.value <= q.limits.maximumResultBytes || section.status.bytes.value <= ChargedBytes(q)
  }

  lemma OneEntryRises(m: Measure, qs: map<Id, Query>, qs': map<Id, Query>, id: Id, more: nat)
    requires qs'.Keys <= qs.Keys && id in qs' && Weight(m, qs'[id]) <= Weight(m, qs[id]) + more
    requires forall i :: i in qs' && i != id ==> Weight(m, qs'[i]) <= Weight(m, qs[i])
    ensures Total(m, qs') <= Total(m, qs) + more
  {
    hide Weight;
    TotalTakesOut(m, qs, id);
    TotalTakesOut(m, qs', id);
    hide Total;
    LoweringWeightsLowersTotal(m, qs - {id}, qs' - {id});
  }

  lemma SettlingTotal(m: Measure, s: System, section: Section)
    requires Bounded(m) && AllRecorded(s) && May(s, section) && !section.Admits? && Capped(m, s, section)
    ensures Total(m, Do(s, section).access.queries)
            <= Total(m, s.access.queries) + if Raises(m, s, section) then Heaviest(m) else 0
  {
    var qs, qs' := s.access.queries, Do(s, section).access.queries;
    var raised := Raises(m, s, section);
    assert raised ==> section.Reports? || section.Withdraws?;
    assert raised ==> section.id in qs;
    assert Capped(m, s, section);
    hide Raises;
    forall id | id in qs'
      ensures id in qs && (!(raised && section.id == id) ==> Weight(m, qs'[id]) <= Weight(m, qs[id]))
    {
      EntryRises(m, s, section, id);
    }
    assert qs'.Keys <= qs.Keys;
    if raised {
      var id := section.id;
      NamedStays(s, section);
      EntryRewritten(s, section, id);
      RewrittenIsNotHeavy(m, qs[id], id, section);
      hide *;
      OneEntryRises(m, qs, qs', id, Heaviest(m));
    } else {
      hide *;
      LoweringWeightsLowersTotal(m, qs, qs');
    }
  }

  lemma RewrittenIsNotHeavy(m: Measure, q: Query, id: Id, section: Section)
    requires Bounded(m) && Recorded(q) && (section.Reports? || section.Withdraws?) && section.id == id
    requires (m.Bytes? || m.BytesOf?) && section.Reports? && section.status.bytes.Some? ==>
               section.status.bytes.value <= q.limits.maximumResultBytes
                 || section.status.bytes.value <= ChargedBytes(q)
    ensures Weight(m, Rewritten(q, id, section)) <= Weight(m, q) + Heaviest(m)
  {
  }

  /** An admission checks every total that it raises. */
  lemma AdmissionTotal(m: Measure, s: System, section: Section)
    requires Bounded(m) && May(s, section) && section.Admits?
    ensures var total := Total(m, Do(s, section).access.queries);
            total <= Ceiling(m) || total == Total(m, s.access.queries)
  {
    var Admits(profile, conn, sid, eid, limits, now) := section;
    var qs, q := s.access.queries, NewQuery(profile, conn, sid, limits, now);
    assert Do(s, section).access.queries == qs[eid := q];
    LiveIsCovered(qs);
    TotalOfInsert(m, qs, eid, q);
    hide Total, Do;
  }

  /** How many of the sections raise a measure. */
  ghost function Raised(m: Measure, s: System, sections: seq<Section>): nat
    requires Bounded(m)
    decreases |sections|
  {
    if sections == [] || !May(s, sections[0]) then 0
    else (if Raises(m, s, sections[0]) then 1 else 0) + Raised(m, Do(s, sections[0]), sections[1..])
  }

  ghost predicate AllCapped(m: Measure, s: System, sections: seq<Section>)
    decreases |sections|
  {
    sections == [] || !May(s, sections[0])
    || (Capped(m, s, sections[0]) && AllCapped(m, Do(s, sections[0]), sections[1..]))
  }

  lemma SectionTotal(m: Measure, s: System, section: Section, n: nat)
    requires Bounded(m) && AllRecorded(s) && May(s, section) && Capped(m, s, section)
    requires Total(m, s.access.queries) <= Ceiling(m) + n * Heaviest(m)
    ensures Total(m, Do(s, section).access.queries)
            <= Ceiling(m) + (n + if Raises(m, s, section) then 1 else 0) * Heaviest(m)
  {
    hide *;
    var raised := Raises(m, s, section);
    if section.Admits? {
      AdmissionTotal(m, s, section);
      assert !raised by { NoAdmissionRaises(m, s, section); }
    } else {
      SettlingTotal(m, s, section);
    }
  }

  lemma NoAdmissionRaises(m: Measure, s: System, section: Section)
    requires section.Admits?
    ensures !Raises(m, s, section)
  {
  }

  lemma {:induction false} TotalsRise(m: Measure, s: System, sections: seq<Section>, s': System, n: nat)
    requires Bounded(m) && AllRecorded(s) && Interleaving(s, sections, s') && AllCapped(m, s, sections)
    requires Total(m, s.access.queries) <= Ceiling(m) + n * Heaviest(m)
    ensures Total(m, s'.access.queries) <= Ceiling(m) + (n + Raised(m, s, sections)) * Heaviest(m)
    decreases |sections|
  {
    hide May, Do, Raises, Total, Ceiling, Heaviest, Capped, AllRecorded;
    if sections != [] {
      SectionTotal(m, s, sections[0], n);
      SectionKeepsRecorded(s, sections[0]);
      var more := if Raises(m, s, sections[0]) then 1 else 0;
      TotalsRise(m, Do(s, sections[0]), sections[1..], s', n + more);
    }
  }

  /** Every total is above its ceiling by at most one entry's weight for each section that
      raised it: 128 MiB for bytes, one for entries. */
  lemma ExcessIsBounded(m: Measure, sections: seq<Section>, s: System)
    requires Bounded(m) && Interleaving(IDLE, sections, s) && AllCapped(m, IDLE, sections)
    ensures Total(m, s.access.queries) <= Ceiling(m) + Raised(m, IDLE, sections) * Heaviest(m)
  {
    TotalsRise(m, IDLE, sections, s, 0);
  }

  /** The measure over all profiles. */
  function Overall(m: Measure): Measure {
    if m.BytesOf? then Bytes else if m.OutstandingOf? then Outstanding else m
  }

  lemma {:induction false} NoneRaised(m: Measure, s: System, sections: seq<Section>)
    requires Bounded(m) && Raised(Overall(m), s, sections) == 0
    ensures Raised(m, s, sections) == 0 && AllCapped(m, s, sections)
    decreases |sections|
  {
    if sections != [] && May(s, sections[0]) {
      hide May, Do;
      NoneRaised(m, Do(s, sections[0]), sections[1..]);
    }
  }

  lemma CeilingHoldsUnlessRaised(m: Measure, sections: seq<Section>, s: System)
    requires Bounded(m) && Interleaving(IDLE, sections, s) && Raised(Overall(m), IDLE, sections) == 0
    ensures Total(m, s.access.queries) <= Ceiling(m)
  {
    NoneRaised(m, IDLE, sections);
    ExcessIsBounded(m, sections, s);
  }

  /** If no section raises the charge of an entry, the byte ceilings hold. */
  lemma ChargesStayWithinCeilings(sections: seq<Section>, s: System, p: Id)
    requires Interleaving(IDLE, sections, s) && Raised(Bytes, IDLE, sections) == 0
    ensures Total(BytesOf(p), s.access.queries) <= 536_870_912
    ensures Total(Bytes, s.access.queries) <= 1_073_741_824
  {
    CeilingHoldsUnlessRaised(Bytes, sections, s);
    CeilingHoldsUnlessRaised(BytesOf(p), sections, s);
  }

  /** If no entry becomes unfinished again, the bounds on unfinished queries hold; if no
      spent entry is reported on or withdrawn, so does the bound on live entries. */
  lemma EntriesStayBounded(sections: seq<Section>, s: System, p: Id)
    requires Interleaving(IDLE, sections, s)
    ensures Raised(Outstanding, IDLE, sections) == 0 ==>
              Total(Outstanding, s.access.queries) <= 16 && Total(OutstandingOf(p), s.access.queries) <= 8
    ensures Raised(Live, IDLE, sections) == 0 ==> Total(Live, s.access.queries) <= 31 + 15 + 16
  {
    if Raised(Outstanding, IDLE, sections) == 0 {
      CeilingHoldsUnlessRaised(Outstanding, sections, s);
      CeilingHoldsUnlessRaised(OutstandingOf(p), sections, s);
    }
    if Raised(Live, IDLE, sections) == 0 { CeilingHoldsUnlessRaised(Live, sections, s); }
  }
}
