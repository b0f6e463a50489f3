/** Guarded exports over whole runs: who may start one, how often, and under which
    decision. */
module GuardedExports {
  import opened Basics
  import opened Approvals
  import opened PartNames
  import opened ExportSteps

  /** The coordinator was asked to run an export into this destination, under this ruling. */
  datatype Arrival = Arrival(id: Id, destination: Destination, ruling: Ruling)

  /** The registry and the approvals beside what an observer has seen: every export
      as it was proposed, every request to the coordinator, and the exports that
      were withdrawn while awaiting approval. */
  datatype Guard = Guard(
    x: Registry,
    ledger: Ledger,
    proposals: map<Id, ExportRecord>,
    arrivals: seq<Arrival>,
    withdrawn: set<Id>)

  datatype Move =
    | ApprovalMove(act: Act, pruned: Millis, now: Millis)
    | Proposes(id: Id, approvalId: Id, conn: Id, client: Id, project: Id, destination: Destination,
               intent: Intent, pruned: Millis, now: Millis)
    | StartsDelegated(id: Id, attempt: Attempt, stored: bool)
    | TriesApproved(id: Id, looked: Millis, pruned: Millis, now: Millis, attempt: Attempt, stored: bool)
    | GivesUp(id: Id, stored: bool)
    | Syncs(id: Id, view: Option<CoordinatorView>, stored: bool)
    | Cancels(id: Id, view: Option<CoordinatorView>, stored: bool)
    | CleansUp(order: seq<Id>, reach: Reach, views: map<Id, CoordinatorView>, unstored: set<Id>)
    | Releases(id: Id)

  /** Export approvals are only proposed and used by the export manager itself. */
  predicate Allowed(g: Guard, m: Move) {
    match m
    case ApprovalMove(act, pruned, now) =>
      && Possible(g.ledger, act, pruned, now)
      && (act.Proposes? ==> act.kind.Sql?) && (act.Uses? ==> act.kind.Sql?)
    case Proposes(id, approvalId, conn, client, project, destination, intent, pruned, now) =>
      id !in g.proposals && g.ledger.clock <= pruned <= now && approvalId !in g.ledger.lives
    case TriesApproved(id, looked, pruned, now, attempt, stored) => g.ledger.clock <= looked <= pruned <= now
    case StartsDelegated(id, attempt, stored) =>
      id in g.x.records ==> g.x.records[id].decision.Delegated?
    case _ => true
  }

  function Arrive(g: Guard, id: Id, a: Attempt): seq<Arrival> {
    if Reaches(g.x, id, a)
    then g.arrivals + [Arrival(id, a.destination.value, Rule(a.destination.value, g.x.records[id].intent).value)]
    else g.arrivals
  }

  function ProposeExport(g: Guard, m: Move): Guard
    requires m.Proposes?
  {
    var ruling := Rule(m.destination, m.intent);
    if !HasCapacity(g.x, m.conn) || ruling.None? then g
    else if ruling.value.decision.Delegated? then
      var r := NewRecord(m.conn, m.client, m.project, m.destination, m.intent, ruling.value, None);
      g.(x := SetRecord(g.x, m.id, r), proposals := g.proposals[m.id := r])
    else
      var act := Act.Proposes(m.approvalId, Export(m.id), m.conn, m.client, m.project,
                              ruling.value.decision.CriticalConfirmation?);
      var ledger := Perform(g.ledger, act, m.pruned, m.now);
      if m.approvalId !in ledger.lives then g.(ledger := ledger)
      else
        var r := NewRecord(m.conn, m.client, m.project, m.destination, m.intent, ruling.value, Some(m.approvalId));
        g.(x := SetRecord(g.x, m.id, r), ledger := ledger, proposals := g.proposals[m.id := r])
  }

  /** The acts of the approval book in trying to start an export: a look, and, if the
      approval is seen approved, a use. */
  function TryLedger(g: Guard, id: Id, looked: Millis, pruned: Millis, now: Millis): Ledger {
    if !LooksUp(g.x, id) then g.ledger
    else
      var r := g.x.records[id];
      var seen := Perform(g.ledger, Looks, looked, looked);
      if SeesApproved(r, id, seen.book)
      then Perform(seen, Uses(r.approvalId.value, Export(id), r.connection, r.client), pruned, now)
      else seen
  }

  predicate LooksUp(x: Registry, id: Id) {
    id in x.records && x.records[id].state.AwaitingApproval? && x.records[id].approvalId.Some?
  }

  predicate SeesApproved(r: ExportRecord, id: Id, seen: Book)
    requires r.approvalId.Some?
  {
    var aid := r.approvalId.value;
    aid in seen && seen[aid].connection == r.connection && seen[aid].kind == Export(id) && seen[aid].state.Approved?
  }

  function TryStart(g: Guard, id: Id, looked: Millis, pruned: Millis, now: Millis, a: Attempt, stored: bool): Guard {
    var t := TryApproved(g.x, g.ledger.book, id, looked, pruned, now, a, stored);
    var claimed := if t.result.Tried? then SetRecord(g.x, id, g.x.records[id].(approvalClaimed := true)) else g.x;
    g.(x := t.x, ledger := TryLedger(g, id, looked, pruned, now),
       arrivals := if t.result.Tried? then Arrive(g.(x := claimed), id, a) else g.arrivals)
  }

  /** The observer's ledger holds the book that the attempt leaves. */
  lemma TryLedgerHoldsBook(g: Guard, id: Id, looked: Millis, pruned: Millis, now: Millis, a: Attempt, stored: bool)
    ensures TryStart(g, id, looked, pruned, now, a, stored).ledger.book
            == TryApproved(g.x, g.ledger.book, id, looked, pruned, now, a, stored).book
  {
    assert Perform(g.ledger, Looks, looked, looked).book == PruneBook(g.ledger.book, looked);
    if LooksUp(g.x, id) {
      var r, seen := g.x.records[id], Perform(g.ledger, Looks, looked, looked);
      assert Perform(seen, Uses(r.approvalId.value, Export(id), r.connection, r.client), pruned, now).book
          == Consume(seen.book, r.approvalId.value, Export(id), r.connection, r.client, pruned, now);
    }
    hide Perform, PruneBook, Consume, Claims, FailBeforeStart, Starts, StartOrFail, SetRecord, Arrive;
  }

  function Awaiting(x: Registry, ids: seq<Id>): set<Id> {
    set id | id in ids && id in x.records && x.records[id].state.AwaitingApproval?
  }

  function Take(g: Guard, m: Move): Guard {
    match m
    case ApprovalMove(act, pruned, now) => g.(ledger := Perform(g.ledger, act, pruned, now))
    case Proposes(_, _, _, _, _, _, _, _, _) => ProposeExport(g, m)
    case StartsDelegated(id, a, stored) => g.(x := StartOrFail(g.x, id, a, stored), arrivals := Arrive(g, id, a))
    case TriesApproved(id, looked, pruned, now, a, stored) => TryStart(g, id, looked, pruned, now, a, stored)
    case GivesUp(id, stored) => g.(x := FailBeforeStart(g.x, id, stored))
    case Syncs(id, view, stored) => g.(x := Sync(g.x, id, view, stored))
    case Cancels(id, view, stored) =>
      if id !in g.x.records then g
      else if g.x.records[id].state.AwaitingApproval? then
        g.(x := CancelRecord(g.x, id, view, stored),
           ledger := g.ledger.(book := CancelApproval(g.ledger.book, g.x.records[id], id)),
           withdrawn := g.withdrawn + {id})
      else g.(x := CancelRecord(g.x, id, view, stored))
    case CleansUp(order, reach, views, unstored) =>
      var ids := AffectedIds(g.x, order, reach);
      g.(x := Cleanup(g.x, order, reach, views, unstored),
         ledger := g.ledger.(book := CancelApprovals(g.ledger.book, g.x, ids)),
         withdrawn := g.withdrawn + Awaiting(g.x, ids))
    case Releases(id) => g.(x := Release(g.x, id))
  }

  // ---------------------------------------------------------------------
  // The invariant of the registry.
  // ---------------------------------------------------------------------

  ghost predicate HasArrived(arrivals: seq<Arrival>, id: Id) {
    exists k :: 0 <= k < |arrivals| && arrivals[k].id == id
  }

  ghost predicate HasAudit(audits: seq<Audit>, id: Id) {
    exists k :: 0 <= k < |audits| && audits[k].exportId == id
  }

  predicate SameProposal(r: ExportRecord, p: ExportRecord) {
    r == p.(hasSnapshot := r.hasSnapshot, approvalClaimed := r.approvalClaimed, state := r.state,
            coordinatorId := r.coordinatorId, auditWritten := r.auditWritten)
  }

  /** What the registry says about an export fits what was observed of it. */
  predicate RecordFits(r: ExportRecord, p: ExportRecord, arrived: bool, withdrawn: bool) {
    && SameProposal(r, p)
    && (p.approvalId.None? <==> p.decision.Delegated?)
    && (arrived ==> !r.hasSnapshot)
    && (r.coordinatorId.Some? ==> arrived)
    && (r.state.AwaitingApproval? ==> !arrived && r.coordinatorId.None? && !p.decision.Delegated?)
    && (!p.decision.Delegated? && (r.state.Queued? || r.state.Running?) ==> r.coordinatorId.Some?)
    && (withdrawn ==> !arrived && !IsActive(r.state) && r.coordinatorId.None?)
  }

  ghost predicate RegistryOk(x: Registry, proposals: map<Id, ExportRecord>, arrivals: seq<Arrival>,
                             withdrawn: set<Id>) {
    && (forall id :: id in x.records ==>
          id in proposals && RecordFits(x.records[id], proposals[id], HasArrived(arrivals, id), id in withdrawn))
    && (forall id :: HasArrived(arrivals, id) ==> id in proposals && id !in withdrawn)
    && withdrawn <= proposals.Keys
  }

  ghost predicate AuditsOk(x: Registry, proposals: map<Id, ExportRecord>) {
    && (forall i, j :: 0 <= i < j < |x.audits| ==> x.audits[i].exportId != x.audits[j].exportId)
    && (forall id :: id in x.records ==> (x.records[id].auditWritten <==> HasAudit(x.audits, id)))
    && (forall id :: HasAudit(x.audits, id) ==> id in proposals)
  }

  /** An arrival matches the proposal it stems from, and a non-delegated one spent
      the approval that was created for it. */
  ghost predicate ArrivalOk(a: Arrival, g: Guard) {
    && a.id in g.proposals
    && a.destination.revision == g.proposals[a.id].revision
    && a.ruling == Ruling(g.proposals[a.id].decision, g.proposals[a.id].overwrite)
    && Rule(a.destination, g.proposals[a.id].intent) == Some(a.ruling)
    && (!a.ruling.decision.Delegated? ==> SpentFor(g, a.id))
  }

  ghost predicate SpentFor(g: Guard, id: Id)
    requires id in g.proposals
  {
    var p := g.proposals[id];
    && p.approvalId.Some? && p.approvalId.value in g.ledger.lives
    && var life := g.ledger.lives[p.approvalId.value];
       |life| == 3 && life[0].Proposed? && life[0].kind == Export(id) && life[0].connection == p.connection
       && life[2].Consumed?
  }

  ghost predicate ArrivalsOk(g: Guard) {
    && (forall k :: 0 <= k < |g.arrivals| ==> ArrivalOk(g.arrivals[k], g))
    && (forall j, k :: 0 <= j < k < |g.arrivals| ==> g.arrivals[j].id != g.arrivals[k].id)
  }

  ghost predicate Guarded(g: Guard) {
    && RegistryOk(g.x, g.proposals, g.arrivals, g.withdrawn)
    && AuditsOk(g.x, g.proposals)
    && Kept(g.ledger)
    && ArrivalsOk(g)
  }

  // ---------------------------------------------------------------------
  // Steps that start nothing.
  // ---------------------------------------------------------------------

  /** Registry `y` follows `x`: records only leave, or change in state, claim or audit
      mark; none becomes active, none forgets its coordinator. */
  predicate Settled(r: ExportRecord, r': ExportRecord) {
    && SameProposal(r', r) && r'.hasSnapshot == r.hasSnapshot && r'.coordinatorId == r.coordinatorId
    && (r'.state.AwaitingApproval? ==> r.state.AwaitingApproval?)
    && (IsActive(r'.state) ==> r'.state == r.state || r.coordinatorId.Some?)
  }

  ghost predicate Winds(x: Registry, y: Registry) {
    && y.records.Keys <= x.records.Keys
    && forall id :: id in y.records ==> Settled(x.records[id], y.records[id])
  }

  lemma WindingKeepsRegistry(x: Registry, y: Registry, proposals: map<Id, ExportRecord>,
                             arrivals: seq<Arrival>, withdrawn: set<Id>)
    requires RegistryOk(x, proposals, arrivals, withdrawn) && Winds(x, y)
    ensures RegistryOk(y, proposals, arrivals, withdrawn)
  {
  }

  lemma FinishWinds(x: Registry, id: Id, stored: bool)
    ensures Winds(x, FinishTerminal(x, id, stored))
  {
  }

  lemma FinishKeepsAudits(x: Registry, proposals: map<Id, ExportRecord>, id: Id, stored: bool)
    requires AuditsOk(x, proposals) && (id in x.records ==> id in proposals)
    ensures AuditsOk(FinishTerminal(x, id, stored), proposals)
  {
    if id in x.records && !x.records[id].auditWritten {
      var y := FinishTerminal(x, id, stored);
      var row := AuditRow(id, x.records[id]);
      assert y.audits == x.audits + [row] && row.exportId == id;
      assert y.audits[|x.audits|].exportId == id;
      forall i ensures HasAudit(y.audits, i) <==> i == id || HasAudit(x.audits, i) {
        if HasAudit(x.audits, i) {
          var k :| 0 <= k < |x.audits| && x.audits[k].exportId == i;
          assert y.audits[k].exportId == i;
        }
      }
    }
  }

  lemma RestateKeepsAudits(x: Registry, proposals: map<Id, ExportRecord>, id: Id, r: ExportRecord)
    requires AuditsOk(x, proposals) && id in x.records && r.auditWritten == x.records[id].auditWritten
    ensures AuditsOk(SetRecord(x, id, r), proposals)
  {
  }

  /** Both halves of the registry invariant, for steps that start nothing. */
  ghost predicate Sound(x: Registry, proposals: map<Id, ExportRecord>, arrivals: seq<Arrival>, withdrawn: set<Id>) {
    RegistryOk(x, proposals, arrivals, withdrawn) && AuditsOk(x, proposals)
  }

  lemma FinishIsSound(x: Registry, proposals: map<Id, ExportRecord>, arrivals: seq<Arrival>, withdrawn: set<Id>,
                      id: Id, stored: bool)
    requires Sound(x, proposals, arrivals, withdrawn)
    ensures Sound(FinishTerminal(x, id, stored), proposals, arrivals, withdrawn)
  {
    FinishWinds(x, id, stored);
    WindingKeepsRegistry(x, FinishTerminal(x, id, stored), proposals, arrivals, withdrawn);
    FinishKeepsAudits(x, proposals, id, stored);
  }

  lemma RestateIsSound(x: Registry, proposals: map<Id, ExportRecord>, arrivals: seq<Arrival>, withdrawn: set<Id>,
                       id: Id, r: ExportRecord)
    requires Sound(x, proposals, arrivals, withdrawn)
    requires id in x.records && Settled(x.records[id], r) && r.auditWritten == x.records[id].auditWritten
    ensures Sound(SetRecord(x, id, r), proposals, arrivals, withdrawn)
  {
    RestateKeepsAudits(x, proposals, id, r);
    WindingKeepsRegistry(x, SetRecord(x, id, r), proposals, arrivals, withdrawn);
  }

  lemma FailIsSound(x: Registry, proposals: map<Id, ExportRecord>, arrivals: seq<Arrival>, withdrawn: set<Id>,
                    id: Id, stored: bool)
    requires Sound(x, proposals, arrivals, withdrawn)
    ensures Sound(FailBeforeStart(x, id, stored), proposals, arrivals, withdrawn)
  {
    if id in x.records {
      var r := x.records[id].(state := ExportState.Failed);
      RestateIsSound(x, proposals, arrivals, withdrawn, id, r);
      FinishIsSound(SetRecord(x, id, r), proposals, arrivals, withdrawn, id, stored);
    }
  }

  lemma SyncIsSound(x: Registry, proposals: map<Id, ExportRecord>, arrivals: seq<Arrival>, withdrawn: set<Id>,
                    id: Id, view: Option<CoordinatorView>, stored: bool)
    requires Sound(x, proposals, arrivals, withdrawn)
    ensures Sound(Sync(x, id, view, stored), proposals, arrivals, withdrawn)
  {
    FailIsSound(x, proposals, arrivals, withdrawn, id, stored);
    if id in x.records && x.records[id].coordinatorId.Some? && view.Some? {
      var r := x.records[id].(state := StateFor(x.records[id], view.value));
      RestateIsSound(x, proposals, arrivals, withdrawn, id, r);
      FinishIsSound(SetRecord(x, id, r), proposals, arrivals, withdrawn, id, stored);
    }
  }

  /** An export that leaves the awaiting state for good may be counted as withdrawn. */
  lemma WithdrawalIsSound(x: Registry, proposals: map<Id, ExportRecord>, arrivals: seq<Arrival>, withdrawn: set<Id>,
                          id: Id)
    requires Sound(x, proposals, arrivals, withdrawn)
    requires id in x.records && x.records[id].state.AwaitingApproval?
    ensures Sound(SetRecord(x, id, x.records[id].(state := Cancelled)), proposals, arrivals, withdrawn + {id})
  {
    RestateIsSound(x, proposals, arrivals, withdrawn, id, x.records[id].(state := Cancelled));
  }

  /** Marking changes the state of awaiting exports and nothing else. */
  lemma {:induction false} MarkedRecords(x: Registry, ids: seq<Id>)
    ensures MarkCancelled(x, ids).records.Keys == x.records.Keys
    ensures forall id :: id in x.records && id !in ids ==> MarkCancelled(x, ids).records[id] == x.records[id]
    ensures forall id :: id in x.records && id in ids ==>
              MarkCancelled(x, ids).records[id]
              == if x.records[id].state.AwaitingApproval? then x.records[id].(state := Cancelled) else x.records[id]
  {
    if ids != [] {
      MarkedRecords(x, ids[..|ids| - 1]);
      assert ids == ids[..|ids| - 1] + [ids[|ids| - 1]];
    }
  }

  lemma {:induction false} MarkIsSound(x: Registry, proposals: map<Id, ExportRecord>, arrivals: seq<Arrival>,
                                       withdrawn: set<Id>, ids: seq<Id>)
    requires Sound(x, proposals, arrivals, withdrawn)
    ensures Sound(MarkCancelled(x, ids), proposals, arrivals, withdrawn + Awaiting(x, ids))
  {
    if ids == [] {
      assert withdrawn + Awaiting(x, ids) == withdrawn;
    } else {
      var init, id := ids[..|ids| - 1], ids[|ids| - 1];
      assert ids == init + [id];
      MarkIsSound(x, proposals, arrivals, withdrawn, init);
      MarkedRecords(x, init);
      var y := MarkCancelled(x, init);
      hide Sound;
      if id in y.records && y.records[id].state.AwaitingApproval? {
        WithdrawalIsSound(y, proposals, arrivals, withdrawn + Awaiting(x, init), id);
        assert withdrawn + Awaiting(x, ids) == withdrawn + Awaiting(x, init) + {id};
      } else {
        assert Awaiting(x, ids) == Awaiting(x, init);
      }
    }
  }

  lemma {:induction false} FinishCancelledIsSound(x: Registry, before: Registry, proposals: map<Id, ExportRecord>,
                                                  arrivals: seq<Arrival>, withdrawn: set<Id>, ids: seq<Id>,
                                                  views: map<Id, CoordinatorView>, unstored: set<Id>)
    requires Sound(x, proposals, arrivals, withdrawn)
    ensures Sound(FinishCancelled(x, before, ids, views, unstored), proposals, arrivals, withdrawn)
  {
    hide Sound;
    if ids != [] {
      var init, id := ids[..|ids| - 1], ids[|ids| - 1];
      FinishCancelledIsSound(x, before, proposals, arrivals, withdrawn, init, views, unstored);
      var y := FinishCancelled(x, before, init, views, unstored);
      SyncIsSound(y, proposals, arrivals, withdrawn, id,
                  if id in views then Some(views[id]) else None, id !in unstored);
      FinishIsSound(y, proposals, arrivals, withdrawn, id, id !in unstored);
    }
  }

  // ---------------------------------------------------------------------
  // Starting.
  // ---------------------------------------------------------------------

  lemma ArrivedIncludes(arrivals: seq<Arrival>, a: Arrival, id: Id)
    ensures HasArrived(arrivals + [a], id) <==> id == a.id || HasArrived(arrivals, id)
  {
    var all := arrivals + [a];
    assert all[|arrivals|] == a;
    if HasArrived(arrivals, id) {
      var k :| 0 <= k < |arrivals| && arrivals[k].id == id;
      assert all[k].id == id;
    }
  }

  /** The record of an export whose snapshot a start has spent. */
  predicate Spends(r: ExportRecord, r': ExportRecord) {
    && SameProposal(r', r) && !r'.hasSnapshot && r'.auditWritten == r.auditWritten
    && ((r'.state.Failed? && r'.coordinatorId == r.coordinatorId) || (r'.state.Queued? && r'.coordinatorId.Some?))
  }

  lemma SpendingIsSound(x: Registry, proposals: map<Id, ExportRecord>, arrivals: seq<Arrival>, withdrawn: set<Id>,
                        id: Id, r: ExportRecord)
    requires Sound(x, proposals, arrivals, withdrawn)
    requires id in x.records && Spends(x.records[id], r) && r.state.Failed?
    ensures Sound(SetRecord(x, id, r), proposals, arrivals, withdrawn)
  {
    RestateKeepsAudits(x, proposals, id, r);
  }

  lemma ArrivingIsSound(x: Registry, proposals: map<Id, ExportRecord>, arrivals: seq<Arrival>, withdrawn: set<Id>,
                        a: Arrival, r: ExportRecord)
    requires Sound(x, proposals, arrivals, withdrawn) && HoldsSnapshot(x, a.id) && Spends(x.records[a.id], r)
    ensures Sound(SetRecord(x, a.id, r), proposals, arrivals + [a], withdrawn)
  {
    RestateKeepsAudits(x, proposals, a.id, r);
    forall i ensures HasArrived(arrivals + [a], i) <==> i == a.id || HasArrived(arrivals, i) {
      ArrivedIncludes(arrivals, a, i);
    }
  }

  /** A start spends the snapshot; if it reaches the coordinator, that is an arrival. */
  lemma StartIsSound(g: Guard, id: Id, a: Attempt, stored: bool)
    requires Sound(g.x, g.proposals, g.arrivals, g.withdrawn)
    ensures Sound(StartOrFail(g.x, id, a, stored), g.proposals, Arrive(g, id, a), g.withdrawn)
  {
    hide Sound;
    var x, s := g.x, StartLocked(g.x, id, a);
    if !HoldsSnapshot(x, id) {
      FailIsSound(x, g.proposals, g.arrivals, g.withdrawn, id, stored);
    } else {
      var failed := s.records[id].(state := ExportState.Failed);
      assert SetRecord(s, id, failed) == SetRecord(x, id, failed);
      if Starts(x, id, a) {
        ArrivingIsSound(x, g.proposals, g.arrivals, g.withdrawn, Arrive(g, id, a)[|g.arrivals|], s.records[id]);
      } else if Reaches(x, id, a) {
        ArrivingIsSound(x, g.proposals, g.arrivals, g.withdrawn, Arrive(g, id, a)[|g.arrivals|], failed);
        FinishIsSound(SetRecord(x, id, failed), g.proposals, Arrive(g, id, a), g.withdrawn, id, stored);
      } else {
        SpendingIsSound(x, g.proposals, g.arrivals, g.withdrawn, id, failed);
        FinishIsSound(SetRecord(x, id, failed), g.proposals, g.arrivals, g.withdrawn, id, stored);
      }
    }
  }

  // ---------------------------------------------------------------------
  // Arrivals.
  // ---------------------------------------------------------------------

  /** Lives of approvals only get longer. */
  predicate Longer(lives: map<Id, seq<Event>>, lives': map<Id, seq<Event>>) {
    forall id :: id in lives ==> id in lives' && lives[id] <= lives'[id]
  }

  lemma LivesGetLonger(l: Ledger, act: Act, pruned: Millis, now: Millis)
    ensures Longer(l.lives, Perform(l, act, pruned, now).lives)
  {
  }

  lemma OldArrivalsStayOk(g: Guard, g': Guard)
    requires ArrivalsOk(g) && g'.arrivals == g.arrivals
    requires forall id :: id in g.proposals ==> id in g'.proposals && g'.proposals[id] == g.proposals[id]
    requires Longer(g.ledger.lives, g'.ledger.lives) && Kept(g'.ledger)
    ensures ArrivalsOk(g')
  {
    forall k | 0 <= k < |g'.arrivals| ensures ArrivalOk(g'.arrivals[k], g') {
      var a := g.arrivals[k];
      assert ArrivalOk(a, g);
      if !a.ruling.decision.Delegated? {
        var aid := g.proposals[a.id].approvalId.value;
        assert OneUse(g'.ledger.lives[aid]);
        assert g.ledger.lives[aid] <= g'.ledger.lives[aid];
      }
    }
  }

  lemma NewArrivalIsOk(g: Guard, g': Guard, a: Arrival)
    requires ArrivalsOk(g) && ArrivalOk(a, g') && !HasArrived(g.arrivals, a.id)
    requires g'.arrivals == g.arrivals + [a] && g'.proposals == g.proposals && g'.ledger == g.ledger
    ensures ArrivalsOk(g')
  {
    forall k | 0 <= k < |g'.arrivals| ensures ArrivalOk(g'.arrivals[k], g') {
      if k < |g.arrivals| { assert ArrivalOk(g.arrivals[k], g); }
    }
  }

  // ---------------------------------------------------------------------
  // Every move keeps the guard.
  // ---------------------------------------------------------------------

  /** A start, given that the approval of a non-delegated export has been spent. */
  lemma StartKeepsGuard(g: Guard, id: Id, a: Attempt, stored: bool)
    requires Guarded(g)
    requires id in g.x.records ==> g.x.records[id].decision.Delegated? || SpentFor(g, id)
    ensures Guarded(g.(x := StartOrFail(g.x, id, a, stored), arrivals := Arrive(g, id, a)))
  {
    StartIsSound(g, id, a, stored);
    var g' := g.(x := StartOrFail(g.x, id, a, stored), arrivals := Arrive(g, id, a));
    if Reaches(g.x, id, a) {
      NewArrivalIsOk(g, g', g'.arrivals[|g.arrivals|]);
    } else {
      OldArrivalsStayOk(g, g');
    }
  }

  lemma LedgerMoveKeepsGuard(g: Guard, ledger: Ledger)
    requires Guarded(g) && Kept(ledger) && Longer(g.ledger.lives, ledger.lives)
    ensures Guarded(g.(ledger := ledger))
  {
    OldArrivalsStayOk(g, g.(ledger := ledger));
  }

  lemma RegistryMoveKeepsGuard(g: Guard, x: Registry)
    requires Guarded(g) && Sound(x, g.proposals, g.arrivals, g.withdrawn)
    ensures Guarded(g.(x := x))
  {
    OldArrivalsStayOk(g, g.(x := x));
  }

  lemma InsertIsSound(x: Registry, proposals: map<Id, ExportRecord>, arrivals: seq<Arrival>, withdrawn: set<Id>,
                      id: Id, r: ExportRecord)
    requires Sound(x, proposals, arrivals, withdrawn) && id !in proposals
    requires r.hasSnapshot && r.coordinatorId.None? && !r.auditWritten
    requires (r.decision.Delegated? && r.state.Queued? && r.approvalId.None?)
             || (!r.decision.Delegated? && r.state.AwaitingApproval? && r.approvalId.Some?)
    ensures Sound(SetRecord(x, id, r), proposals[id := r], arrivals, withdrawn)
  {
    assert id !in x.records && !HasArrived(arrivals, id) && !HasAudit(x.audits, id);
    hide HasArrived, HasAudit;
  }

  lemma InsertKeepsGuard(g: Guard, id: Id, r: ExportRecord)
    requires Guarded(g) && id !in g.proposals
    requires r.hasSnapshot && r.coordinatorId.None? && !r.auditWritten
    requires (r.decision.Delegated? && r.state.Queued? && r.approvalId.None?)
             || (!r.decision.Delegated? && r.state.AwaitingApproval? && r.approvalId.Some?)
    ensures Guarded(g.(x := SetRecord(g.x, id, r), proposals := g.proposals[id := r]))
  {
    hide Kept, RegistryOk, AuditsOk, ArrivalsOk;
    InsertIsSound(g.x, g.proposals, g.arrivals, g.withdrawn, id, r);
    OldArrivalsStayOk(g, g.(x := SetRecord(g.x, id, r), proposals := g.proposals[id := r]));
  }

  lemma ProposalKeepsGuard(g: Guard, m: Move)
    requires Guarded(g) && Allowed(g, m) && m.Proposes?
    ensures Guarded(ProposeExport(g, m))
  {
    hide Guarded, Rule, Perform, Longer;
    var ruling := Rule(m.destination, m.intent);
    if HasCapacity(g.x, m.conn) && ruling.Some? {
      if ruling.value.decision.Delegated? {
        InsertKeepsGuard(g, m.id, NewRecord(m.conn, m.client, m.project, m.destination, m.intent, ruling.value, None));
      } else {
        var act := Act.Proposes(m.approvalId, Export(m.id), m.conn, m.client, m.project,
                                ruling.value.decision.CriticalConfirmation?);
        GuardedLedger(g);
        ActKeepsLedger(g.ledger, act, m.pruned, m.now);
        LivesGetLonger(g.ledger, act, m.pruned, m.now);
        var ledger := Perform(g.ledger, act, m.pruned, m.now);
        LedgerMoveKeepsGuard(g, ledger);
        if m.approvalId in ledger.lives {
          InsertKeepsGuard(g.(ledger := ledger), m.id,
            NewRecord(m.conn, m.client, m.project, m.destination, m.intent, ruling.value, Some(m.approvalId)));
        }
      }
    }
  }

  lemma GuardedLedger(g: Guard)
    requires Guarded(g)
    ensures Kept(g.ledger) && Sound(g.x, g.proposals, g.arrivals, g.withdrawn)
  {
  }

  /** Using up the approval of an awaiting export makes it spent for that export. */
  lemma ClaimSpends(g: Guard, id: Id, pruned: Millis, now: Millis)
    requires Guarded(g) && g.ledger.clock <= pruned <= now
    requires id in g.x.records && g.x.records[id].approvalId.Some?
    requires var r := g.x.records[id];
             ClaimVerdict(PruneBook(g.ledger.book, pruned), r.approvalId.value, Export(id), r.connection, r.client, now)
             .Claimed?
    ensures var r := g.x.records[id];
            var used := Perform(g.ledger, Uses(r.approvalId.value, Export(id), r.connection, r.client), pruned, now);
            Kept(used) && Longer(g.ledger.lives, used.lives) && SpentFor(g.(ledger := used), id)
  {
    var r := g.x.records[id];
    var aid := r.approvalId.value;
    var act := Uses(aid, Export(id), r.connection, r.client);
    ActKeepsLedger(g.ledger, act, pruned, now);
    LivesGetLonger(g.ledger, act, pruned, now);
    PruningKeepsLedger(g.ledger, pruned);
    assert Tracks(PruneBook(g.ledger.book, pruned)[aid], g.ledger.lives[aid], pruned);
  }

  /** Looking an approval up, and ending the export if it was refused. */
  lemma LookKeepsGuard(g: Guard, id: Id, looked: Millis, stored: bool)
    requires Guarded(g) && g.ledger.clock <= looked
    ensures var seen := g.(ledger := Perform(g.ledger, Looks, looked, looked));
            Guarded(seen) && Guarded(seen.(x := FailBeforeStart(g.x, id, stored)))
  {
    hide Guarded, Perform, Longer, FailBeforeStart;
    GuardedLedger(g);
    ActKeepsLedger(g.ledger, Looks, looked, looked);
    LivesGetLonger(g.ledger, Looks, looked, looked);
    var seen := g.(ledger := Perform(g.ledger, Looks, looked, looked));
    LedgerMoveKeepsGuard(g, seen.ledger);
    FailIsSound(g.x, g.proposals, g.arrivals, g.withdrawn, id, stored);
    RegistryMoveKeepsGuard(seen, FailBeforeStart(g.x, id, stored));
  }

  /** Using the approval up, if it can be claimed, and starting the export. */
  lemma ClaimKeepsGuard(g: Guard, id: Id, pruned: Millis, now: Millis, a: Attempt, stored: bool)
    requires Guarded(g) && g.ledger.clock <= pruned <= now
    requires id in g.x.records && g.x.records[id].approvalId.Some?
    ensures var r := g.x.records[id];
            var used := g.(ledger := Perform(g.ledger, Uses(r.approvalId.value, Export(id), r.connection, r.client),
                                             pruned, now));
            && Guarded(used)
            && (Claims(r, id, g.ledger.book, pruned, now) ==>
                  var claimed := used.(x := SetRecord(g.x, id, r.(approvalClaimed := true)));
                  Guarded(claimed.(x := StartOrFail(claimed.x, id, a, stored), arrivals := Arrive(claimed, id, a))))
  {
    hide Guarded, Perform, Longer, StartOrFail, Arrive;
    var r := g.x.records[id];
    var use := Uses(r.approvalId.value, Export(id), r.connection, r.client);
    GuardedLedger(g);
    ActKeepsLedger(g.ledger, use, pruned, now);
    LivesGetLonger(g.ledger, use, pruned, now);
    var used := g.(ledger := Perform(g.ledger, use, pruned, now));
    LedgerMoveKeepsGuard(g, used.ledger);
    if Claims(r, id, g.ledger.book, pruned, now) {
      ClaimSpends(g, id, pruned, now);
      var claimed := used.(x := SetRecord(g.x, id, r.(approvalClaimed := true)));
      RestateIsSound(g.x, g.proposals, g.arrivals, g.withdrawn, id, r.(approvalClaimed := true));
      RegistryMoveKeepsGuard(used, claimed.x);
      StartKeepsGuard(claimed, id, a, stored);
    }
  }

  /** Trying to start an export whose approval is not seen approved. */
  lemma TryWithoutUse(g: Guard, id: Id, looked: Millis, pruned: Millis, now: Millis, a: Attempt, stored: bool)
    requires !(LooksUp(g.x, id) && SeesApproved(g.x.records[id], id, PruneBook(g.ledger.book, looked)))
    ensures var h := TryStart(g, id, looked, pruned, now, a, stored);
            var seen := g.(ledger := Perform(g.ledger, Looks, looked, looked));
            h == g || h == seen || h == seen.(x := FailBeforeStart(g.x, id, stored))
  {
    assert Perform(g.ledger, Looks, looked, looked).book == PruneBook(g.ledger.book, looked);
    hide Perform, PruneBook, FailBeforeStart, ClaimAndStart, Arrive;
  }

  /** Trying to start an export whose approval is seen approved uses it, and starts the
      export if it could be claimed. */
  lemma TryWithUse(g: Guard, id: Id, looked: Millis, pruned: Millis, now: Millis, a: Attempt, stored: bool)
    requires LooksUp(g.x, id) && SeesApproved(g.x.records[id], id, PruneBook(g.ledger.book, looked))
    ensures var h := TryStart(g, id, looked, pruned, now, a, stored);
            var r, seen := g.x.records[id], Perform(g.ledger, Looks, looked, looked);
            var used := g.(ledger := Perform(seen, Uses(r.approvalId.value, Export(id), r.connection, r.client),
                                             pruned, now));
            var claimed := used.(x := SetRecord(g.x, id, r.(approvalClaimed := true)));
            h == if Claims(r, id, seen.book, pruned, now)
                 then claimed.(x := StartOrFail(claimed.x, id, a, stored), arrivals := Arrive(claimed, id, a))
                 else used
  {
    assert Perform(g.ledger, Looks, looked, looked).book == PruneBook(g.ledger.book, looked);
    var claimed := SetRecord(g.x, id, g.x.records[id].(approvalClaimed := true));
    hide Perform, PruneBook, FailBeforeStart, Consume, Claims, Starts, Reaches, StartOrFail, SetRecord;
    SameArrivals(g.(x := claimed), g.(x := claimed, ledger := TryLedger(g, id, looked, pruned, now)), id, a);
    hide Arrive;
  }

  lemma TryKeepsGuard(g: Guard, m: Move)
    requires Guarded(g) && Allowed(g, m) && m.TriesApproved?
    ensures Guarded(Take(g, m))
  {
    hide Guarded, TryStart, FailBeforeStart, StartOrFail, Arrive, Claims, SeesApproved;
    var TriesApproved(id, looked, pruned, now, a, stored) := m;
    LookKeepsGuard(g, id, looked, stored);
    var seen := g.(ledger := Perform(g.ledger, Looks, looked, looked));
    assert seen.ledger.clock == looked;
    if LooksUp(g.x, id) && SeesApproved(g.x.records[id], id, PruneBook(g.ledger.book, looked)) {
      TryWithUse(g, id, looked, pruned, now, a, stored);
      ClaimKeepsGuard(seen, id, pruned, now, a, stored);
    } else {
      TryWithoutUse(g, id, looked, pruned, now, a, stored);
    }
    hide Perform;
  }

  lemma SameArrivals(g: Guard, h: Guard, id: Id, a: Attempt)
    requires g.x == h.x && g.arrivals == h.arrivals
    ensures Arrive(g, id, a) == Arrive(h, id, a)
  {
  }

  lemma CancelKeepsGuard(g: Guard, m: Move)
    requires Guarded(g) && m.Cancels?
    ensures Guarded(Take(g, m))
  {
    var Cancels(id, view, stored) := m;
    if id in g.x.records {
      var r := g.x.records[id];
      if r.state.AwaitingApproval? {
        var ledger := g.ledger.(book := CancelApproval(g.ledger.book, r, id));
        QuietActKeepsLedger(g.ledger, ledger.book, g.ledger.clock);
        LedgerMoveKeepsGuard(g, ledger);
        var x := SetRecord(g.x, id, r.(state := Cancelled));
        WithdrawalIsSound(g.x, g.proposals, g.arrivals, g.withdrawn, id);
        FinishIsSound(x, g.proposals, g.arrivals, g.withdrawn + {id}, id, stored);
        WithdrawnMoveKeepsGuard(g.(ledger := ledger), FinishTerminal(x, id, stored), g.withdrawn + {id});
      } else {
        SyncIsSound(g.x, g.proposals, g.arrivals, g.withdrawn, id, view, stored);
        FinishIsSound(g.x, g.proposals, g.arrivals, g.withdrawn, id, stored);
        RegistryMoveKeepsGuard(g, CancelRecord(g.x, id, view, stored));
      }
    }
  }

  lemma WithdrawnMoveKeepsGuard(g: Guard, x: Registry, withdrawn: set<Id>)
    requires Guarded(g) && Sound(x, g.proposals, g.arrivals, withdrawn)
    ensures Guarded(g.(x := x, withdrawn := withdrawn))
  {
    OldArrivalsStayOk(g, g.(x := x, withdrawn := withdrawn));
  }

  lemma {:induction false} CancelApprovalsKeepsLedger(l: Ledger, x: Registry, ids: seq<Id>)
    requires Kept(l)
    ensures Kept(l.(book := CancelApprovals(l.book, x, ids)))
  {
    if ids != [] {
      var init, id := ids[..|ids| - 1], ids[|ids| - 1];
      CancelApprovalsKeepsLedger(l, x, init);
      if id in x.records && x.records[id].approvalId.Some? {
        var m := l.(book := CancelApprovals(l.book, x, init));
        QuietActKeepsLedger(m, CancelExport(m.book, x.records[id].approvalId.value, id), m.clock);
      }
    }
  }

  lemma CleanupKeepsGuard(g: Guard, m: Move)
    requires Guarded(g) && m.CleansUp?
    ensures Guarded(Take(g, m))
  {
    hide Guarded, Sound, AffectedIds;
    GuardedLedger(g);
    var ids := AffectedIds(g.x, m.order, m.reach);
    CancelApprovalsKeepsLedger(g.ledger, g.x, ids);
    var ledger := g.ledger.(book := CancelApprovals(g.ledger.book, g.x, ids));
    LedgerMoveKeepsGuard(g, ledger);
    var withdrawn := g.withdrawn + Awaiting(g.x, ids);
    MarkIsSound(g.x, g.proposals, g.arrivals, g.withdrawn, ids);
    FinishCancelledIsSound(MarkCancelled(g.x, ids), g.x, g.proposals, g.arrivals, withdrawn, ids, m.views, m.unstored);
    WithdrawnMoveKeepsGuard(g.(ledger := ledger), Cleanup(g.x, m.order, m.reach, m.views, m.unstored), withdrawn);
  }

  lemma ReleaseIsSound(x: Registry, proposals: map<Id, ExportRecord>, arrivals: seq<Arrival>, withdrawn: set<Id>,
                       id: Id)
    requires Sound(x, proposals, arrivals, withdrawn)
    ensures Sound(Release(x, id), proposals, arrivals, withdrawn)
  {
  }

  lemma MoveKeepsGuard(g: Guard, m: Move)
    requires Guarded(g) && Allowed(g, m)
    ensures Guarded(Take(g, m))
  {
    hide Guarded, Perform, Longer, Kept, StartOrFail, FailBeforeStart, Sync, CancelRecord, Cleanup, Release,
         ProposeExport, TryStart;
    GuardedLedger(g);
    match m
    case ApprovalMove(act, pruned, now) =>
      ActKeepsLedger(g.ledger, act, pruned, now);
      LivesGetLonger(g.ledger, act, pruned, now);
      LedgerMoveKeepsGuard(g, Perform(g.ledger, act, pruned, now));
    case Proposes(_, _, _, _, _, _, _, _, _) => ProposalKeepsGuard(g, m);
    case StartsDelegated(id, a, stored) => StartKeepsGuard(g, id, a, stored);
    case TriesApproved(_, _, _, _, _, _) => TryKeepsGuard(g, m);
    case GivesUp(id, stored) =>
      FailIsSound(g.x, g.proposals, g.arrivals, g.withdrawn, id, stored);
      RegistryMoveKeepsGuard(g, FailBeforeStart(g.x, id, stored));
    case Syncs(id, view, stored) =>
      SyncIsSound(g.x, g.proposals, g.arrivals, g.withdrawn, id, view, stored);
      RegistryMoveKeepsGuard(g, Sync(g.x, id, view, stored));
    case Cancels(_, _, _) => CancelKeepsGuard(g, m);
    case CleansUp(_, _, _, _) => CleanupKeepsGuard(g, m);
    case Releases(id) =>
      ReleaseIsSound(g.x, g.proposals, g.arrivals, g.withdrawn, id);
      RegistryMoveKeepsGuard(g, Release(g.x, id));
  }

  // ---------------------------------------------------------------------
  // Whole runs.
  // ---------------------------------------------------------------------

  ghost predicate History(g: Guard, moves: seq<Move>, g': Guard)
    decreases |moves|
  {
    if moves == [] then g' == g
    else Allowed(g, moves[0]) && History(Take(g, moves[0]), moves[1..], g')
  }

  const FRESH := Guard(Registry(map[], [], []), EMPTY_LEDGER, map[], [], {})

  lemma {:induction false} HistoriesAreGuarded(g: Guard, moves: seq<Move>, g': Guard)
    requires Guarded(g) && History(g, moves, g')
    ensures Guarded(g')
    decreases |moves|
  {
    if moves != [] {
      MoveKeepsGuard(g, moves[0]);
      HistoriesAreGuarded(Take(g, moves[0]), moves[1..], g');
    }
  }

  /** An export reaches the coordinator at most once. */
  lemma ReachesCoordinatorAtMostOnce(moves: seq<Move>, g: Guard, j: nat, k: nat)
    requires History(FRESH, moves, g) && j < k < |g.arrivals|
    ensures g.arrivals[j].id != g.arrivals[k].id
  {
    HistoriesAreGuarded(FRESH, moves, g);
  }

  /** It does so only with the destination revision, the decision and the overwrite
      policy under which it was proposed. */
  lemma ReachesCoordinatorUnchanged(moves: seq<Move>, g: Guard, k: nat)
    requires History(FRESH, moves, g) && k < |g.arrivals|
    ensures var a := g.arrivals[k];
            a.id in g.proposals
            && a.destination.revision == g.proposals[a.id].revision
            && a.ruling.decision == g.proposals[a.id].decision
            && a.ruling.overwrite == g.proposals[a.id].overwrite
  {
    HistoriesAreGuarded(FRESH, moves, g);
    assert ArrivalOk(g.arrivals[k], g);
  }

  /** A non-delegated export starts only after its own approval was decided for and used. */
  lemma StartsOnlyWhenApproved(moves: seq<Move>, g: Guard, k: nat)
    requires History(FRESH, moves, g) && k < |g.arrivals| && !g.arrivals[k].ruling.decision.Delegated?
    ensures var a := g.arrivals[k];
            a.id in g.proposals && g.proposals[a.id].approvalId.Some?
            && g.proposals[a.id].approvalId.value in g.ledger.lives
            && var life := g.ledger.lives[g.proposals[a.id].approvalId.value];
               OneUse(life) && |life| == 3
               && life[0].kind == Export(a.id) && life[0].connection == g.proposals[a.id].connection
  {
    HistoriesAreGuarded(FRESH, moves, g);
    assert ArrivalOk(g.arrivals[k], g);
  }

  /** One cancelled or cleaned up while awaiting approval never starts. */
  lemma WithdrawnNeverStarts(moves: seq<Move>, g: Guard, k: nat)
    requires History(FRESH, moves, g) && k < |g.arrivals|
    ensures g.arrivals[k].id !in g.withdrawn
  {
    HistoriesAreGuarded(FRESH, moves, g);
    assert HasArrived(g.arrivals, g.arrivals[k].id);
  }

  /** At most one audit row per export. */
  lemma AuditedAtMostOnce(moves: seq<Move>, g: Guard, j: nat, k: nat)
    requires History(FRESH, moves, g) && j < k < |g.x.audits|
    ensures g.x.audits[j].exportId != g.x.audits[k].exportId
  {
    HistoriesAreGuarded(FRESH, moves, g);
  }

  // ---------------------------------------------------------------------
  // Cancelling an export that could still start.
  // ---------------------------------------------------------------------

  lemma RememberKeepsRecord(x: Registry, id: Id)
    ensures id in x.records ==> id in Remember(x, id).records && Remember(x, id).records[id] == x.records[id]
  {
    WithoutDrops(x.terminalOrder, id);
    var others := Without(x.terminalOrder, id);
    var excess := if |others| >= MAX_TERMINAL_AGENT_EXPORTS then |others| + 1 - MAX_TERMINAL_AGENT_EXPORTS else 0;
    assert (others + [id])[..excess] == others[..excess];
  }

  lemma CancelOfStartable(x: Registry, id: Id, a: Attempt, view: Option<CoordinatorView>, stored: bool)
    requires Reaches(x, id, a) && x.records[id].coordinatorId.None?
    ensures Reaches(CancelRecord(x, id, view, stored), id, a)
            <==> x.records[id].state.Queued? && (stored || x.records[id].auditWritten)
  {
    var r := x.records[id];
    var r' := r.(auditWritten := true, state := if stored then r.state else RecoveryRequired);
    RememberKeepsRecord(SetRecord(x, id, r').(audits := x.audits + [AuditRow(id, r)]), id);
    var c := r.(state := Cancelled);
    var c' := c.(auditWritten := true, state := if stored then c.state else RecoveryRequired);
    RememberKeepsRecord(SetRecord(SetRecord(x, id, c), id, c').(audits := x.audits + [AuditRow(id, c)]), id);
    hide Remember, Rule;
  }

  /** Whatever has happened before, cancelling an export that could still start leaves it
      able to start exactly if it is a delegated one, between its insertion and its start,
      and its audit row is stored or was there already. Cancellation stops an export only
      while it awaits approval or once the coordinator has it. */
  lemma CancelLeavesStartableIff(moves: seq<Move>, g: Guard, id: Id, a: Attempt,
                                 view: Option<CoordinatorView>, stored: bool)
    requires History(FRESH, moves, g) && Reaches(g.x, id, a)
    ensures Reaches(CancelRecord(g.x, id, view, stored), id, a)
            <==> g.x.records[id].decision.Delegated? && (stored || g.x.records[id].auditWritten)
  {
    HistoriesAreGuarded(FRESH, moves, g);
    assert RecordFits(g.x.records[id], g.proposals[id], HasArrived(g.arrivals, id), id in g.withdrawn);
    assert g.x.records[id].coordinatorId.None?;
    hide Guarded, History, CancelRecord, Rule;
    CancelOfStartable(g.x, id, a, view, stored);
  }

  const OPEN_FOLDER := Destination("", 0, true, true, 0, Some([]))
  const ANY_CSV := Intent("", Csv, "", 0)
  const UNHINDERED := Attempt(true, Some(OPEN_FOLDER), Some(""))

  lemma HistoryOfThree(g: Guard, a: Move, b: Move, c: Move)
    requires Allowed(g, a) && Allowed(Take(g, a), b) && Allowed(Take(Take(g, a), b), c)
    ensures History(g, [a, b, c], Take(Take(Take(g, a), b), c))
  {
    hide Allowed, Take;
    var g1, g2 := Take(g, a), Take(Take(g, a), b);
    assert [a, b, c][1..] == [b, c] && [b, c][1..] == [c] && [c][1..] == [];
    assert History(Take(g2, c), [], Take(g2, c));
    assert History(g2, [c], Take(g2, c));
    assert History(g1, [b, c], Take(g2, c));
  }

  /** A history in which this happens: proposed, cancelled, audited as failed, and started
      all the same. */
  lemma CancelledDelegatedCanStart(id: Id) returns (g: Guard)
    ensures History(FRESH, [Move.Proposes(id, "", "", "", "", OPEN_FOLDER, ANY_CSV, 0, 0), Cancels(id, None, true),
                            StartsDelegated(id, UNHINDERED, true)], g)
    ensures |g.x.audits| == 1 && g.x.audits[0].exportId == id && g.x.audits[0].outcome == ExportState.Failed
    ensures |g.arrivals| == 1 && g.arrivals[0].id == id
    ensures id in g.x.records && g.x.records[id].coordinatorId.Some?
  {
    var propose := Move.Proposes(id, "", "", "", "", OPEN_FOLDER, ANY_CSV, 0, 0);
    var cancel, start := Cancels(id, None, true), StartsDelegated(id, UNHINDERED, true);
    var ruling := Rule(OPEN_FOLDER, ANY_CSV);
    assert ruling == Some(Ruling(Delegated, FailIfExists));
    assert ActiveIds(FRESH.x) == {};
    var g1 := Take(FRESH, propose);
    var r := NewRecord("", "", "", OPEN_FOLDER, ANY_CSV, ruling.value, None);
    assert g1.x == SetRecord(FRESH.x, id, r);
    var g2 := Take(g1, cancel);
    var audited := r.(auditWritten := true);
    RememberKeepsRecord(SetRecord(g1.x, id, audited).(audits := [AuditRow(id, r)]), id);
    assert [] + [AuditRow(id, r)] == [AuditRow(id, r)];
    assert g2.x == Remember(SetRecord(g1.x, id, audited).(audits := [AuditRow(id, r)]), id);
    hide Remember, Rule;
    g := Take(g2, start);
    HistoryOfThree(FRESH, propose, cancel, start);
  }
}
