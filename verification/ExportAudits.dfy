/** What the audit log says about exports: how each was decided, what it came to, and how
    many are under way at once. */
module ExportAudits {
  import opened Basics
  import opened Approvals
  import opened PartNames
  import opened ExportSteps
  import opened GuardedExports
  import opened ExportPolicy
  import opened ApprovalEffects

  // ---------------------------------------------------------------------
  // Every row tells what happened.
  // ---------------------------------------------------------------------

  /** Exports whose own approval has been used, and exports that the coordinator has
      reported successful with parts that fit. */
  datatype Seen = Seen(used: set<Id>, done: set<Id>)

  /** How an export was decided: by its grant, or by the user, or not in its favour. */
  predicate RowTells(row: Audit, p: ExportRecord, seen: Seen) {
    && (row.decision.ByDelegation? <==> p.decision.Delegated?)
    && (row.decision.ByApproval? <==> p.decision.ApprovalRequired? && row.exportId in seen.used)
    && (row.decision.ByCriticalApproval? <==> p.decision.CriticalConfirmation? && row.exportId in seen.used)
    && (row.outcome.Succeeded? ==> row.exportId in seen.done)
    && row.outcome in {ExportState.Succeeded, ExportState.Failed, ExportState.Cancelled, RecoveryRequired}
  }

  predicate RecordTells(id: Id, r: ExportRecord, p: ExportRecord, seen: Seen) {
    && SameProposal(r, p)
    && (!p.decision.Delegated? ==> (r.approvalClaimed <==> id in seen.used))
    && (r.state.Succeeded? ==> id in seen.done)
    && (r.state.AwaitingApproval? ==> !r.auditWritten)
  }

  ghost predicate Tells(x: Registry, proposals: map<Id, ExportRecord>, seen: Seen) {
    && (forall id :: id in x.records ==> id in proposals && RecordTells(id, x.records[id], proposals[id], seen))
    && (forall k :: 0 <= k < |x.audits| ==>
          x.audits[k].exportId in proposals && RowTells(x.audits[k], proposals[x.audits[k].exportId], seen))
  }

  lemma RowIsTrue(id: Id, r: ExportRecord, p: ExportRecord, seen: Seen)
    requires RecordTells(id, r, p, seen)
    ensures RowTells(AuditRow(id, r), p, seen)
  {
  }

  lemma RestateTells(x: Registry, proposals: map<Id, ExportRecord>, seen: Seen, id: Id, r: ExportRecord)
    requires Tells(x, proposals, seen) && id in x.records && RecordTells(id, r, proposals[id], seen)
    ensures Tells(SetRecord(x, id, r), proposals, seen)
  {
    hide RecordTells, RowTells;
  }

  lemma FewerRecordsTell(x: Registry, y: Registry, proposals: map<Id, ExportRecord>, seen: Seen)
    requires Tells(x, proposals, seen) && y.audits == x.audits && y.records.Keys <= x.records.Keys
    requires forall id :: id in y.records ==> y.records[id] == x.records[id]
    ensures Tells(y, proposals, seen)
  {
    hide RecordTells, RowTells;
  }

  lemma FinishTells(x: Registry, proposals: map<Id, ExportRecord>, seen: Seen, id: Id, stored: bool)
    requires Tells(x, proposals, seen) && (id in x.records ==> !x.records[id].state.AwaitingApproval?)
    ensures Tells(FinishTerminal(x, id, stored), proposals, seen)
  {
    if id in x.records && !x.records[id].auditWritten {
      var r := x.records[id];
      var r' := r.(auditWritten := true, state := if stored then r.state else RecoveryRequired);
      RestateTells(x, proposals, seen, id, r');
      RowIsTrue(id, r, proposals[id], seen);
      var y := SetRecord(x, id, r').(audits := x.audits + [AuditRow(id, r)]);
      assert Tells(y, proposals, seen);
      hide Tells, AuditRow;
      FewerRecordsTell(y, Remember(y, id), proposals, seen);
    }
  }

  lemma FailTells(x: Registry, proposals: map<Id, ExportRecord>, seen: Seen, id: Id, stored: bool)
    requires Tells(x, proposals, seen)
    ensures Tells(FailBeforeStart(x, id, stored), proposals, seen)
  {
    if id in x.records {
      RestateTells(x, proposals, seen, id, x.records[id].(state := ExportState.Failed));
      hide Tells;
      FinishTells(SetRecord(x, id, x.records[id].(state := ExportState.Failed)), proposals, seen, id, stored);
    }
  }

  /** A report of success with parts that fit the record. */
  predicate Succeeds(r: ExportRecord, v: CoordinatorView) {
    v.progress.PSucceeded?
    && forall i :: 0 <= i < |v.parts| ==>
         v.parts[i].directory == r.path
         && PartFileName(r.intent.baseName, v.parts[i].number, Extension(r.intent.format)) == Some(v.parts[i].fileName)
  }

  lemma SyncTells(x: Registry, proposals: map<Id, ExportRecord>, seen: Seen, id: Id, view: Option<CoordinatorView>,
                  stored: bool)
    requires Tells(x, proposals, seen)
    requires id in x.records && view.Some? && Succeeds(x.records[id], view.value) ==> id in seen.done
    ensures Tells(Sync(x, id, view, stored), proposals, seen)
  {
    FailTells(x, proposals, seen, id, stored);
    if id in x.records && x.records[id].coordinatorId.Some? && view.Some? {
      var r := x.records[id].(state := StateFor(x.records[id], view.value));
      RestateTells(x, proposals, seen, id, r);
      FinishTells(SetRecord(x, id, r), proposals, seen, id, stored);
    }
    hide Tells;
  }

  lemma {:induction false} MarkTells(x: Registry, proposals: map<Id, ExportRecord>, seen: Seen, ids: seq<Id>)
    requires Tells(x, proposals, seen)
    ensures Tells(MarkCancelled(x, ids), proposals, seen)
  {
    if ids != [] {
      var init, id := ids[..|ids| - 1], ids[|ids| - 1];
      MarkTells(x, proposals, seen, init);
      var y := MarkCancelled(x, init);
      if id in y.records { RestateTells(y, proposals, seen, id, y.records[id].(state := Cancelled)); }
      hide Tells;
    }
  }

  ghost predicate NoneAwaits(x: Registry, ids: seq<Id>) {
    forall id :: id in ids && id in x.records ==> !x.records[id].state.AwaitingApproval?
  }

  lemma FinishKeepsNoneAwaiting(x: Registry, id: Id, stored: bool, ids: seq<Id>)
    requires NoneAwaits(x, ids)
    ensures NoneAwaits(FinishTerminal(x, id, stored), ids)
  {
  }

  lemma SyncKeepsNoneAwaiting(x: Registry, id: Id, view: Option<CoordinatorView>, stored: bool, ids: seq<Id>)
    requires NoneAwaits(x, ids)
    ensures NoneAwaits(Sync(x, id, view, stored), ids)
  {
    if id in x.records && x.records[id].coordinatorId.Some? {
      var state := if view.Some? then StateFor(x.records[id], view.value) else ExportState.Failed;
      var y := SetRecord(x, id, x.records[id].(state := state));
      assert NoneAwaits(y, ids);
      FinishKeepsNoneAwaiting(y, id, stored, ids);
    }
    hide NoneAwaits, FinishTerminal;
  }

  /** The second half of a cleanup, once everything awaiting has been marked. */
  lemma {:induction false} FinishCancelledTells(x: Registry, before: Registry, proposals: map<Id, ExportRecord>,
                                                seen: Seen, ids: seq<Id>, views: map<Id, CoordinatorView>,
                                                unstored: set<Id>, all: seq<Id>)
    requires Tells(x, proposals, seen) && NoneAwaits(x, all) && ids <= all
    requires forall id :: id in views && id in proposals && Succeeds(proposals[id], views[id]) ==> id in seen.done
    ensures Tells(FinishCancelled(x, before, ids, views, unstored), proposals, seen)
    ensures NoneAwaits(FinishCancelled(x, before, ids, views, unstored), all)
  {
    if ids != [] {
      var init, id := ids[..|ids| - 1], ids[|ids| - 1];
      FinishCancelledTells(x, before, proposals, seen, init, views, unstored, all);
      var y := FinishCancelled(x, before, init, views, unstored);
      var view := if id in views then Some(views[id]) else None;
      assert id in all;
      assert id in y.records ==> RecordTells(id, y.records[id], proposals[id], seen);
      assert id in y.records ==> !y.records[id].state.AwaitingApproval?;
      hide Tells, NoneAwaits;
      SyncTells(y, proposals, seen, id, view, id !in unstored);
      FinishTells(y, proposals, seen, id, id !in unstored);
      SyncKeepsNoneAwaiting(y, id, view, id !in unstored, all);
      FinishKeepsNoneAwaiting(y, id, id !in unstored, all);
    }
  }

  lemma CleanupTells(x: Registry, proposals: map<Id, ExportRecord>, seen: Seen, order: seq<Id>, reach: Reach,
                     views: map<Id, CoordinatorView>, unstored: set<Id>)
    requires Tells(x, proposals, seen)
    requires forall id :: id in views && id in proposals && Succeeds(proposals[id], views[id]) ==> id in seen.done
    ensures Tells(Cleanup(x, order, reach, views, unstored), proposals, seen)
  {
    var ids := AffectedIds(x, order, reach);
    MarkTells(x, proposals, seen, ids);
    MarkedRecords(x, ids);
    FinishCancelledTells(MarkCancelled(x, ids), x, proposals, seen, ids, views, unstored, ids);
    hide Tells, AffectedIds;
  }

  lemma CancelTells(x: Registry, proposals: map<Id, ExportRecord>, seen: Seen, id: Id, view: Option<CoordinatorView>,
                    stored: bool)
    requires Tells(x, proposals, seen)
    requires id in x.records && view.Some? && Succeeds(x.records[id], view.value) ==> id in seen.done
    ensures Tells(CancelRecord(x, id, view, stored), proposals, seen)
  {
    if id in x.records {
      var r := x.records[id].(state := Cancelled);
      RestateTells(x, proposals, seen, id, r);
      hide Tells, Sync;
      SyncTells(x, proposals, seen, id, view, stored);
      if x.records[id].state.AwaitingApproval? {
        FinishTells(SetRecord(x, id, r), proposals, seen, id, stored);
      } else {
        FinishTells(x, proposals, seen, id, stored);
      }
    }
  }

  lemma StartTells(x: Registry, proposals: map<Id, ExportRecord>, seen: Seen, id: Id, a: Attempt, stored: bool)
    requires Tells(x, proposals, seen)
    ensures Tells(StartOrFail(x, id, a, stored), proposals, seen)
  {
    if HoldsSnapshot(x, id) {
      var s := StartLocked(x, id, a);
      RestateTells(x, proposals, seen, id, s.records[id]);
      hide Tells, FailBeforeStart, Reaches;
      FailTells(s, proposals, seen, id, stored);
    } else {
      hide Tells, FailBeforeStart;
      FailTells(x, proposals, seen, id, stored);
    }
  }

  // ---------------------------------------------------------------------
  // Which approvals have been used.
  // ---------------------------------------------------------------------

  ghost predicate IsUsed(g: Guard, id: Id) {
    id in g.proposals && g.proposals[id].approvalId.Some? && g.proposals[id].approvalId.value in g.ledger.lives
    && |g.ledger.lives[g.proposals[id].approvalId.value]| == 3
  }

  ghost function UsedIds(g: Guard): set<Id> {
    set id | id in g.proposals && IsUsed(g, id)
  }

  /** Only a use of the approval makes it used. */
  lemma OnlyUsesUse(l: Ledger, act: Act, pruned: Millis, now: Millis, aid: Id)
    requires Kept(l) && Possible(l, act, pruned, now) && aid in l.lives && l.lives[aid] != []
    requires act.Uses? ==> act.id != aid || act.kind != l.lives[aid][0].kind
    ensures aid in Perform(l, act, pruned, now).lives
    ensures |Perform(l, act, pruned, now).lives[aid]| == 3 <==> |l.lives[aid]| == 3
  {
    assert OneUse(l.lives[aid]);
    PruningKeepsLedger(l, pruned);
    if aid in l.book { assert Tracks(PruneBook(l.book, pruned)[aid], l.lives[aid], pruned); }
    hide HasRoom, CriticalPhrase, Expire;
    if aid in l.book { assert aid in PruneBook(l.book, pruned); }
    hide Kept;
  }

  lemma ActUsesNone(g: Guard, act: Act, pruned: Millis, now: Millis)
    requires Guarded(g) && AllAsked(g) && Possible(g.ledger, act, pruned, now)
    requires act.Uses? ==> act.kind.Sql?
    ensures UsedIds(g.(ledger := Perform(g.ledger, act, pruned, now))) == UsedIds(g)
  {
    GuardedLedger(g);
    hide Guarded, Perform;
    var h := g.(ledger := Perform(g.ledger, act, pruned, now));
    forall id | id in g.proposals ensures IsUsed(h, id) <==> IsUsed(g, id) {
      assert Asked(g.ledger.lives, id, g.proposals[id]);
      if g.proposals[id].approvalId.Some? {
        OnlyUsesUse(g.ledger, act, pruned, now, g.proposals[id].approvalId.value);
      }
    }
    hide IsUsed;
  }

  lemma ExportUsesOne(g: Guard, id: Id, conn: Id, client: Id, pruned: Millis, now: Millis)
    requires Guarded(g) && AllAsked(g) && id in g.proposals && g.proposals[id].approvalId.Some?
    requires g.ledger.clock <= pruned <= now
    ensures var aid := g.proposals[id].approvalId.value;
            var h := g.(ledger := Perform(g.ledger, Uses(aid, Export(id), conn, client), pruned, now));
            UsedIds(h) == if ClaimVerdict(PruneBook(g.ledger.book, pruned), aid, Export(id), conn, client, now).Claimed?
                          then UsedIds(g) + {id} else UsedIds(g)
  {
    GuardedLedger(g);
    var aid := g.proposals[id].approvalId.value;
    var act := Uses(aid, Export(id), conn, client);
    var h := g.(ledger := Perform(g.ledger, act, pruned, now));
    var claimed := ClaimVerdict(PruneBook(g.ledger.book, pruned), aid, Export(id), conn, client, now).Claimed?;
    OwnUse(g.ledger, act, pruned, now);
    hide Guarded, Perform, ClaimVerdict, PruneBook;
    forall i | i in g.proposals ensures IsUsed(h, i) <==> IsUsed(g, i) || (i == id && claimed) {
      assert Asked(g.ledger.lives, i, g.proposals[i]);
      if g.proposals[i].approvalId.Some? && i != id {
        OnlyUsesUse(g.ledger, act, pruned, now, g.proposals[i].approvalId.value);
      }
      assert Asked(g.ledger.lives, id, g.proposals[id]);
    }
    hide IsUsed;
  }

  lemma OwnUse(l: Ledger, act: Act, pruned: Millis, now: Millis)
    requires Kept(l) && Possible(l, act, pruned, now) && act.Uses?
    ensures var claimed := ClaimVerdict(PruneBook(l.book, pruned), act.id, act.kind, act.conn, act.profile,
                                        now).Claimed?;
            && (claimed ==> act.id in l.lives && |Perform(l, act, pruned, now).lives[act.id]| == 3)
            && (!claimed ==> Perform(l, act, pruned, now).lives == l.lives)
  {
    PruningKeepsLedger(l, pruned);
    var b := PruneBook(l.book, pruned);
    if act.id in b { assert Tracks(b[act.id], l.lives[act.id], pruned); }
    hide Kept;
  }

  // ---------------------------------------------------------------------
  // Moves.
  // ---------------------------------------------------------------------

  /** Exports that the move's reports call successful. */
  ghost function Reported(g: Guard, m: Move): set<Id> {
    match m
    case Syncs(id, view, _) =>
      if view.Some? && id in g.proposals && Succeeds(g.proposals[id], view.value) then {id} else {}
    case Cancels(id, view, _) =>
      if view.Some? && id in g.proposals && Succeeds(g.proposals[id], view.value) then {id} else {}
    case CleansUp(_, _, views, _) => set id | id in views && id in g.proposals && Succeeds(g.proposals[id], views[id])
    case _ => {}
  }

  ghost predicate Telling(g: Guard, done: set<Id>) {
    Guarded(g) && AllAsked(g) && Tells(g.x, g.proposals, Seen(UsedIds(g), done))
  }

  lemma MoreDoneTells(x: Registry, proposals: map<Id, ExportRecord>, seen: Seen, done: set<Id>)
    requires Tells(x, proposals, seen) && seen.done <= done
    ensures Tells(x, proposals, seen.(done := done))
  {
    assert forall row, p :: RowTells(row, p, seen) ==> RowTells(row, p, seen.(done := done));
    assert forall id, r, p :: RecordTells(id, r, p, seen) ==> RecordTells(id, r, p, seen.(done := done));
  }

  lemma SameRecordSucceeds(r: ExportRecord, p: ExportRecord, v: CoordinatorView)
    requires SameProposal(r, p)
    ensures Succeeds(r, v) <==> Succeeds(p, v)
  {
  }

  /** A claimed approval marks its record and no row. */
  lemma ClaimTells(g: Guard, id: Id, done: set<Id>, used: set<Id>)
    requires Telling(g, done) && id in g.x.records && g.x.records[id].state.AwaitingApproval?
    requires used == UsedIds(g) + {id}
    ensures Tells(SetRecord(g.x, id, g.x.records[id].(approvalClaimed := true)), g.proposals, Seen(used, done))
  {
    var seen, seen' := Seen(UsedIds(g), done), Seen(used, done);
    assert RecordTells(id, g.x.records[id], g.proposals[id], seen);
    assert !HasAudit(g.x.audits, id);
    hide Guarded, AllAsked, SameProposal;
    forall k | 0 <= k < |g.x.audits|
      ensures RowTells(g.x.audits[k], g.proposals[g.x.audits[k].exportId], seen')
    {
      assert g.x.audits[k].exportId != id;
    }
    forall i | i in g.x.records && i != id ensures RecordTells(i, g.x.records[i], g.proposals[i], seen') {
      assert RecordTells(i, g.x.records[i], g.proposals[i], seen);
    }
    hide UsedIds;
  }

  lemma InsertTells(x: Registry, proposals: map<Id, ExportRecord>, seen: Seen, id: Id, r: ExportRecord)
    requires Tells(x, proposals, seen) && id !in proposals && id !in seen.used
    requires !r.auditWritten && !r.approvalClaimed && !r.state.Succeeded?
    ensures Tells(SetRecord(x, id, r), proposals[id := r], seen)
  {
    hide RowTells;
  }

  /** A new export's approval has not been used. */
  lemma InsertUsesNone(g: Guard, id: Id, r: ExportRecord)
    requires id !in g.proposals
    requires r.approvalId.Some? && r.approvalId.value in g.ledger.lives ==> |g.ledger.lives[r.approvalId.value]| == 1
    ensures UsedIds(g.(x := SetRecord(g.x, id, r), proposals := g.proposals[id := r])) == UsedIds(g)
    ensures id !in UsedIds(g)
  {
    var h := g.(x := SetRecord(g.x, id, r), proposals := g.proposals[id := r]);
    assert !IsUsed(h, id);
    forall i | i in g.proposals ensures IsUsed(h, i) <==> IsUsed(g, i) {
    }
    hide IsUsed;
  }

  lemma ProposalTells(g: Guard, m: Move, done: set<Id>)
    requires Telling(g, done) && Allowed(g, m) && m.Proposes?
    ensures Tells(Take(g, m).x, Take(g, m).proposals, Seen(UsedIds(Take(g, m)), done))
  {
    hide Guarded, AllAsked, Rule, Tells, UsedIds, HasCapacity;
    var ruling := Rule(m.destination, m.intent);
    if HasCapacity(g.x, m.conn) && ruling.Some? {
      if ruling.value.decision.Delegated? {
        var r := NewRecord(m.conn, m.client, m.project, m.destination, m.intent, ruling.value, None);
        InsertUsesNone(g, m.id, r);
        InsertTells(g.x, g.proposals, Seen(UsedIds(g), done), m.id, r);
      } else {
        var act := Act.Proposes(m.approvalId, Export(m.id), m.conn, m.client, m.project,
                                ruling.value.decision.CriticalConfirmation?);
        var h := g.(ledger := Perform(g.ledger, act, m.pruned, m.now));
        ActUsesNone(g, act, m.pruned, m.now);
        assert m.approvalId in h.ledger.lives ==> |h.ledger.lives[m.approvalId]| == 1;
        hide Perform;
        if m.approvalId in h.ledger.lives {
          var r := NewRecord(m.conn, m.client, m.project, m.destination, m.intent, ruling.value, Some(m.approvalId));
          InsertUsesNone(h, m.id, r);
          InsertTells(g.x, g.proposals, Seen(UsedIds(g), done), m.id, r);
        }
      }
    }
  }

  lemma SameUsed(g: Guard, h: Guard)
    requires h.proposals == g.proposals && h.ledger.lives == g.ledger.lives
    ensures UsedIds(h) == UsedIds(g)
    ensures AllAsked(g) ==> AllAsked(h)
  {
    hide Asked;
    assert forall id :: IsUsed(h, id) <==> IsUsed(g, id);
  }

  lemma ProposedSo(g: Guard, done: set<Id>, id: Id)
    requires Telling(g, done) && id in g.x.records
    ensures id in g.proposals && SameProposal(g.x.records[id], g.proposals[id])
    ensures g.proposals[id].approvalId == g.x.records[id].approvalId
  {
    assert RecordTells(id, g.x.records[id], g.proposals[id], Seen(UsedIds(g), done));
  }

  /** An approval that is seen approved is used up, the export marked, and started. */
  lemma UseTells(g: Guard, m: Move, done: set<Id>)
    requires Telling(g, done) && Allowed(g, m) && m.TriesApproved?
    requires LooksUp(g.x, m.id) && SeesApproved(g.x.records[m.id], m.id, PruneBook(g.ledger.book, m.looked))
    ensures Tells(Take(g, m).x, Take(g, m).proposals, Seen(UsedIds(Take(g, m)), done))
  {
    var TriesApproved(id, looked, pruned, now, a, stored) := m;
    var r, looks := g.x.records[id], Perform(g.ledger, Looks, looked, looked);
    var seen := g.(ledger := looks);
    assert looks.lives == g.ledger.lives && looks.clock == looked;
    var h := Take(g, m);
    TryWithUse(g, id, looked, pruned, now, a, stored);
    ProposedSo(g, done, id);
    hide Take, TryStart, Guarded, AllAsked, Tells, UsedIds, SeesApproved, StartOrFail, Perform, Arrive, SameProposal;
    LookKeepsGuard(g, id, looked, stored);
    SameUsed(g, seen);
    ExportUsesOne(seen, id, r.connection, r.client, pruned, now);
    var used := seen.(ledger := Perform(looks, Uses(r.approvalId.value, Export(id), r.connection, r.client), pruned,
                                        now));
    SameUsed(used, h);
    if Claims(r, id, looks.book, pruned, now) {
      ClaimTells(g, id, done, UsedIds(g) + {id});
      StartTells(SetRecord(g.x, id, r.(approvalClaimed := true)), g.proposals, Seen(UsedIds(g) + {id}, done), id, a,
                 stored);
    }
  }

  lemma TryTells(g: Guard, m: Move, done: set<Id>)
    requires Telling(g, done) && Allowed(g, m) && m.TriesApproved?
    ensures Tells(Take(g, m).x, Take(g, m).proposals, Seen(UsedIds(Take(g, m)), done))
  {
    hide Guarded, AllAsked, Tells, UsedIds, SeesApproved, FailBeforeStart, TryStart;
    if LooksUp(g.x, m.id) && SeesApproved(g.x.records[m.id], m.id, PruneBook(g.ledger.book, m.looked)) {
      UseTells(g, m, done);
    } else {
      TryWithoutUse(g, m.id, m.looked, m.pruned, m.now, m.attempt, m.stored);
      FailTells(g.x, g.proposals, Seen(UsedIds(g), done), m.id, m.stored);
      var h := Take(g, m);
      SameUsed(g, h);
    }
  }

  lemma QuietTells(g: Guard, m: Move, done: set<Id>)
    requires Telling(g, done) && Allowed(g, m) && !m.Proposes? && !m.TriesApproved? && !m.ApprovalMove?
    requires Reported(g, m) <= done
    ensures Tells(Take(g, m).x, Take(g, m).proposals, Seen(UsedIds(Take(g, m)), done))
  {
    var h, seen := Take(g, m), Seen(UsedIds(g), done);
    assert h.proposals == g.proposals && h.ledger.lives == g.ledger.lives;
    SameUsed(g, h);
    forall id, v: CoordinatorView | id in g.x.records
      ensures Succeeds(g.x.records[id], v) <==> Succeeds(g.proposals[id], v)
    {
      ProposedSo(g, done, id);
      SameRecordSucceeds(g.x.records[id], g.proposals[id], v);
    }
    hide Guarded, AllAsked, Tells, UsedIds, Succeeds;
    hide StartOrFail, FailBeforeStart, Sync, CancelRecord, Cleanup;
    match m
    case StartsDelegated(id, a, stored) => StartTells(g.x, g.proposals, seen, id, a, stored);
    case GivesUp(id, stored) => FailTells(g.x, g.proposals, seen, id, stored);
    case Syncs(id, view, stored) => SyncTells(g.x, g.proposals, seen, id, view, stored);
    case Cancels(id, view, stored) => CancelTells(g.x, g.proposals, seen, id, view, stored);
    case CleansUp(order, reach, views, unstored) => CleanupTells(g.x, g.proposals, seen, order, reach, views, unstored);
    case Releases(id) => FewerRecordsTell(g.x, ExportSteps.Release(g.x, id), g.proposals, seen);
  }

  lemma TakeTells(g: Guard, m: Move, done: set<Id>)
    requires Telling(g, done) && Allowed(g, m)
    ensures Telling(Take(g, m), done + Reported(g, m))
  {
    MoveKeepsGuard(g, m);
    TakeKeepsAsked(g, m);
    var more := done + Reported(g, m);
    MoreDoneTells(g.x, g.proposals, Seen(UsedIds(g), done), more);
    hide Guarded, AllAsked, Tells, UsedIds, Reported;
    if m.ApprovalMove? {
      ActUsesNone(g, m.act, m.pruned, m.now);
    } else {
      hide Take, Allowed;
      if m.Proposes? { ProposalTells(g, m, more); }
      else if m.TriesApproved? { TryTells(g, m, more); }
      else { QuietTells(g, m, more); }
    }
  }

  // ---------------------------------------------------------------------
  // Whole histories.
  // ---------------------------------------------------------------------

  ghost function DoneIn(g: Guard, moves: seq<Move>): set<Id>
    decreases |moves|
  {
    if moves == [] then {} else Reported(g, moves[0]) + DoneIn(Take(g, moves[0]), moves[1..])
  }

  lemma {:induction false} HistoriesTell(g: Guard, moves: seq<Move>, g': Guard, done: set<Id>)
    requires Telling(g, done) && History(g, moves, g')
    ensures Telling(g', done + DoneIn(g, moves))
    decreases |moves|
  {
    hide Telling, Take, Allowed, Reported;
    if moves == [] {
      assert done + DoneIn(g, moves) == done;
    } else {
      TakeTells(g, moves[0], done);
      HistoriesTell(Take(g, moves[0]), moves[1..], g', done + Reported(g, moves[0]));
      assert done + DoneIn(g, moves) == done + Reported(g, moves[0]) + DoneIn(Take(g, moves[0]), moves[1..]);
    }
  }

  /** Over every history, an audit row says that an export was delegated exactly if it was,
      that it was approved, by phrase if need be, exactly if its own approval has been used,
      and that it succeeded only if the coordinator has reported so, with parts that fit. */
  lemma AuditsAreTrue(moves: seq<Move>, g: Guard, k: nat)
    requires History(FRESH, moves, g) && k < |g.x.audits|
    ensures var row := g.x.audits[k];
            row.exportId in g.proposals
            && var p := g.proposals[row.exportId];
               && (row.decision.ByDelegation? <==> p.decision.Delegated?)
               && (row.decision.ByApproval? <==> p.decision.ApprovalRequired? && IsUsed(g, row.exportId))
               && (row.decision.ByCriticalApproval? <==> p.decision.CriticalConfirmation? && IsUsed(g, row.exportId))
               && (row.outcome.Succeeded? ==> row.exportId in DoneIn(FRESH, moves))
  {
    HistoriesTell(FRESH, moves, g, {});
    assert RowTells(g.x.audits[k], g.proposals[g.x.audits[k].exportId], Seen(UsedIds(g), {} + DoneIn(FRESH, moves)));
    hide Guarded, AllAsked, History;
  }

  // ---------------------------------------------------------------------
  // Ends are audited as they are reported.
  // ---------------------------------------------------------------------

  /** The record of an export after an end has been audited: the last row says so. */
  predicate EndsAs(x: Registry, y: Registry, id: Id, outcome: ExportState, stored: bool) {
    && |y.audits| == |x.audits| + 1 && y.audits[|x.audits|].exportId == id && y.audits[|x.audits|].outcome == outcome
    && id in y.records && y.records[id].auditWritten
    && y.records[id].state == if stored then outcome else RecoveryRequired
  }

  lemma FinishingEnds(x: Registry, id: Id, stored: bool)
    requires id in x.records && !x.records[id].auditWritten
    requires x.records[id].state in {ExportState.Succeeded, ExportState.Failed, ExportState.Cancelled, RecoveryRequired}
    ensures EndsAs(x, FinishTerminal(x, id, stored), id, x.records[id].state, stored)
  {
    var r := x.records[id];
    var r' := r.(auditWritten := true, state := if stored then r.state else RecoveryRequired);
    RememberKeepsRecord(SetRecord(x, id, r').(audits := x.audits + [AuditRow(id, r)]), id);
    hide Remember;
  }

  predicate PartsFit(r: ExportRecord, v: CoordinatorView) {
    forall i :: 0 <= i < |v.parts| ==>
      v.parts[i].directory == r.path
      && PartFileName(r.intent.baseName, v.parts[i].number, Extension(r.intent.format)) == Some(v.parts[i].fileName)
  }

  /** A report on a running export: progress is shown, an end is shown and audited as what
      it is, and parts that do not fit, or an export that the coordinator has lost, call
      for recovery or count as a failure. */
  lemma ReportsAreTakenOver(x: Registry, id: Id, view: Option<CoordinatorView>, stored: bool)
    requires id in x.records && x.records[id].coordinatorId.Some? && !x.records[id].auditWritten
    ensures var y, r := Sync(x, id, view, stored), x.records[id];
            if view.None? then EndsAs(x, y, id, ExportState.Failed, stored)
            else if !PartsFit(r, view.value) then EndsAs(x, y, id, RecoveryRequired, stored)
            else match view.value.progress
              case PQueued => y == SetRecord(x, id, r.(state := Queued))
              case PRunning => y == SetRecord(x, id, r.(state := Running))
              case PSucceeded => EndsAs(x, y, id, ExportState.Succeeded, stored)
              case PFailed(recovery) =>
                EndsAs(x, y, id, if recovery then RecoveryRequired else ExportState.Failed, stored)
              case PCancelled => EndsAs(x, y, id, ExportState.Cancelled, stored)
  {
    var state := if view.None? then ExportState.Failed else StateFor(x.records[id], view.value);
    var y := SetRecord(x, id, x.records[id].(state := state));
    if !IsActive(state) { FinishingEnds(y, id, stored); }
    hide FinishTerminal;
  }

  /** Cancelling an export that awaits its approval ends it, and denies the approval. */
  lemma CancellingEnds(g: Guard, id: Id, view: Option<CoordinatorView>, stored: bool)
    requires id in g.x.records && g.x.records[id].state.AwaitingApproval? && !g.x.records[id].auditWritten
    ensures var h := Take(g, Cancels(id, view, stored));
            && EndsAs(g.x, h.x, id, ExportState.Cancelled, stored)
            && (g.x.records[id].approvalId.Some? && g.x.records[id].approvalId.value in g.ledger.book ==>
                  var aid := g.x.records[id].approvalId.value;
                  var p := g.ledger.book[aid];
                  aid in h.ledger.book
                  && h.ledger.book[aid].state
                     == if p.kind == Export(id) && p.state in {Pending, Approved} then Denied else p.state)
  {
    FinishingEnds(SetRecord(g.x, id, g.x.records[id].(state := Cancelled)), id, stored);
    hide FinishTerminal;
  }

  /** Only an export that has ended can be released, and then it is gone. */
  lemma ReleasingForgets(x: Registry, id: Id)
    ensures var y := ExportSteps.Release(x, id);
            if id in x.records && x.records[id].state !in {AwaitingApproval, Queued, Running}
            then y.records == x.records - {id} && id !in y.terminalOrder
            else y == x
  {
    WithoutDrops(x.terminalOrder, id);
  }

  // ---------------------------------------------------------------------
  // Cleanups.
  // ---------------------------------------------------------------------

  lemma {:induction false} AffectedAre(x: Registry, order: seq<Id>, reach: Reach, id: Id)
    ensures id in AffectedIds(x, order, reach) <==> id in order && Affected(x, id, reach)
  {
    if order != [] {
      AffectedAre(x, order[..|order| - 1], reach, id);
      assert order == order[..|order| - 1] + [order[|order| - 1]];
    }
  }

  lemma OthersStay(x: Registry, id: Id, view: Option<CoordinatorView>, stored: bool, i: Id)
    requires i != id
    ensures var y := FinishTerminal(x, id, stored); i in y.records ==> i in x.records && y.records[i] == x.records[i]
    ensures var y := Sync(x, id, view, stored); i in y.records ==> i in x.records && y.records[i] == x.records[i]
  {
    hide ManifestOk;
  }

  predicate Closed(x: Registry, id: Id) {
    id in x.records ==> x.records[id].auditWritten && x.records[id].state in {ExportState.Cancelled, RecoveryRequired}
  }

  lemma {:induction false} OthersAreSpared(x: Registry, before: Registry, ids: seq<Id>,
                                           views: map<Id, CoordinatorView>, unstored: set<Id>, id: Id)
    requires id !in ids
    ensures var y := FinishCancelled(x, before, ids, views, unstored);
            id in y.records ==> id in x.records && y.records[id] == x.records[id]
  {
    if ids != [] {
      var init, last := ids[..|ids| - 1], ids[|ids| - 1];
      OthersAreSpared(x, before, init, views, unstored, id);
      var y := FinishCancelled(x, before, init, views, unstored);
      assert last in ids;
      OthersStay(y, last, if last in views then Some(views[last]) else None, last !in unstored, id);
      hide Sync, FinishTerminal;
    }
  }

  /** What awaited its approval when the cleanup began is closed. */
  lemma {:induction false} AwaitingIsClosed(x: Registry, before: Registry, ids: seq<Id>,
                                            views: map<Id, CoordinatorView>, unstored: set<Id>, id: Id)
    requires id in before.records && before.records[id].state.AwaitingApproval?
             && before.records[id].coordinatorId.None?
    requires id in x.records ==> x.records[id].state.Cancelled?
    ensures var y := FinishCancelled(x, before, ids, views, unstored);
            && (id in ids ==> Closed(y, id))
            && (id in y.records ==> y.records[id].state in {ExportState.Cancelled, RecoveryRequired})
  {
    if ids != [] {
      var init, last := ids[..|ids| - 1], ids[|ids| - 1];
      assert ids == init + [last];
      AwaitingIsClosed(x, before, init, views, unstored, id);
      var y := FinishCancelled(x, before, init, views, unstored);
      if last != id {
        OthersStay(y, last, if last in views then Some(views[last]) else None, last !in unstored, id);
        hide Sync, FinishTerminal;
      } else {
        hide Sync;
      }
    }
  }

  predicate Reached(r: ExportRecord, reach: Reach) {
    match reach
    case ForConnection(c) => r.connection == c
    case ForClientProject(c, p) => r.client == c && r.project == p
    case ForProject(p) => r.project == p
    case ForDestination(d) => r.intent.destinationId == d
    case ForAll => true
  }

  lemma AwaitingHasNoCoordinator(moves: seq<Move>, g: Guard, id: Id)
    requires History(FRESH, moves, g) && id in g.x.records && g.x.records[id].state.AwaitingApproval?
    ensures g.x.records[id].coordinatorId.None?
  {
    HistoriesAreGuarded(FRESH, moves, g);
    assert RecordFits(g.x.records[id], g.proposals[id], HasArrived(g.arrivals, id), id in g.withdrawn);
  }

  /** Cleaning up after a connection, a client's grant, a project or a destination ends what
      awaits approval there, and leaves everything else as it is. */
  lemma CleanupEnds(moves: seq<Move>, g: Guard, order: seq<Id>, reach: Reach, views: map<Id, CoordinatorView>,
                    unstored: set<Id>, id: Id)
    requires History(FRESH, moves, g) && id in g.x.records && id in order
    ensures var y, r := Cleanup(g.x, order, reach, views, unstored), g.x.records[id];
            && (Reached(r, reach) && r.state.AwaitingApproval? ==> Closed(y, id))
            && (!Reached(r, reach) && id in y.records ==> y.records[id] == r)
  {
    var ids := AffectedIds(g.x, order, reach);
    AffectedAre(g.x, order, reach, id);
    assert Reached(g.x.records[id], reach) <==> Covers(reach, g.x.records[id]);
    hide History, MarkCancelled, FinishCancelled, AffectedIds, Closed, Reached, Covers;
    MarkedRecords(g.x, ids);
    var marked := MarkCancelled(g.x, ids);
    if id !in ids {
      OthersAreSpared(marked, g.x, ids, views, unstored, id);
    } else if g.x.records[id].state.AwaitingApproval? {
      AwaitingHasNoCoordinator(moves, g, id);
      AwaitingIsClosed(marked, g.x, ids, views, unstored, id);
    }
  }

  // ---------------------------------------------------------------------
  // How many exports are under way.
  // ---------------------------------------------------------------------

  ghost predicate FewActive(x: Registry) {
    && |ActiveIds(x)| <= 4
    && (forall i, j ::
          i in x.records && j in x.records && IsActive(x.records[i].state) && IsActive(x.records[j].state) ==>
          i == j || x.records[i].connection != x.records[j].connection)
  }

  /** A report that takes up an export again that had ended. */
  ghost predicate TakesUp(g: Guard, m: Move) {
    exists id :: id in g.x.records && id in Take(g, m).x.records
                 && !IsActive(g.x.records[id].state) && IsActive(Take(g, m).x.records[id].state)
  }

  lemma FewerActive(x: Registry, y: Registry)
    requires FewActive(x) && y.records.Keys <= x.records.Keys
    requires forall id :: id in y.records ==> y.records[id].connection == x.records[id].connection
    requires forall id :: id in y.records && IsActive(y.records[id].state) ==> IsActive(x.records[id].state)
    ensures FewActive(y)
  {
    assert ActiveIds(y) <= ActiveIds(x);
    NoMore(ActiveIds(y), ActiveIds(x));
  }

  lemma OneMoreActive(x: Registry, id: Id, r: ExportRecord)
    requires FewActive(x) && HasCapacity(x, r.connection)
    ensures FewActive(SetRecord(x, id, r))
  {
    var y := SetRecord(x, id, r);
    assert ActiveIds(y) <= ActiveIds(x) + {id};
    NoMore(ActiveIds(y), ActiveIds(x) + {id});
  }

  lemma FailKeys(x: Registry, id: Id, stored: bool)
    ensures FailBeforeStart(x, id, stored).records.Keys <= x.records.Keys
  {
    if id in x.records { FinishWinds(SetRecord(x, id, x.records[id].(state := ExportState.Failed)), id, stored); }
    hide FinishTerminal;
  }

  lemma SyncKeys(x: Registry, id: Id, view: Option<CoordinatorView>, stored: bool)
    ensures Sync(x, id, view, stored).records.Keys <= x.records.Keys
  {
    FailKeys(x, id, stored);
    if id in x.records && view.Some? {
      FinishWinds(SetRecord(x, id, x.records[id].(state := StateFor(x.records[id], view.value))), id, stored);
    }
    hide FinishTerminal, FailBeforeStart, StateFor;
  }

  lemma {:induction false} FinishCancelledKeys(x: Registry, before: Registry, ids: seq<Id>,
                                               views: map<Id, CoordinatorView>, unstored: set<Id>)
    ensures FinishCancelled(x, before, ids, views, unstored).records.Keys <= x.records.Keys
  {
    if ids != [] {
      var init, id := ids[..|ids| - 1], ids[|ids| - 1];
      FinishCancelledKeys(x, before, init, views, unstored);
      var y := FinishCancelled(x, before, init, views, unstored);
      SyncKeys(y, id, if id in views then Some(views[id]) else None, id !in unstored);
      FinishWinds(y, id, id !in unstored);
      hide Sync, FinishTerminal;
    }
  }

  lemma CancelKeys(x: Registry, id: Id, view: Option<CoordinatorView>, stored: bool)
    ensures CancelRecord(x, id, view, stored).records.Keys <= x.records.Keys
  {
    SyncKeys(x, id, view, stored);
    FinishWinds(x, id, stored);
    if id in x.records { FinishWinds(SetRecord(x, id, x.records[id].(state := Cancelled)), id, stored); }
    hide Sync, FinishTerminal;
  }

  lemma StartKeys(x: Registry, id: Id, a: Attempt, stored: bool)
    ensures StartOrFail(x, id, a, stored).records.Keys <= x.records.Keys
  {
    FailKeys(StartLocked(x, id, a), id, stored);
    hide FailBeforeStart, Reaches;
  }

  lemma TryKeys(x: Registry, book: Book, id: Id, looked: Millis, pruned: Millis, now: Millis, a: Attempt, stored: bool)
    ensures TryApproved(x, book, id, looked, pruned, now, a, stored).x.records.Keys <= x.records.Keys
  {
    FailKeys(x, id, stored);
    if id in x.records { StartKeys(SetRecord(x, id, x.records[id].(approvalClaimed := true)), id, a, stored); }
    hide FailBeforeStart, StartOrFail, Consume, PruneBook, Claims, Starts;
  }

  lemma NoNewRecords(g: Guard, m: Move)
    requires !m.Proposes?
    ensures Take(g, m).x.records.Keys <= g.x.records.Keys
  {
    match m
    case ApprovalMove(_, _, _) =>
    case StartsDelegated(id, a, stored) => StartKeys(g.x, id, a, stored);
    case TriesApproved(id, looked, pruned, now, a, stored) =>
      TryKeys(g.x, g.ledger.book, id, looked, pruned, now, a, stored);
    case GivesUp(id, stored) => FailKeys(g.x, id, stored);
    case Syncs(id, view, stored) => SyncKeys(g.x, id, view, stored);
    case Cancels(id, view, stored) => CancelKeys(g.x, id, view, stored);
    case CleansUp(order, reach, views, unstored) =>
      var ids := AffectedIds(g.x, order, reach);
      MarkedRecords(g.x, ids);
      FinishCancelledKeys(MarkCancelled(g.x, ids), g.x, ids, views, unstored);
    case Releases(id) =>
    hide StartOrFail, TryApproved, FailBeforeStart, Sync, CancelRecord, MarkCancelled, FinishCancelled, AffectedIds,
         Perform, TryLedger, Arrive, CancelApproval, CancelApprovals;
  }

  lemma ConnectionsStay(g: Guard, m: Move, done: set<Id>, id: Id)
    requires Telling(g, done) && Allowed(g, m) && !m.Proposes?
    requires id in g.x.records && id in Take(g, m).x.records
    ensures Take(g, m).x.records[id].connection == g.x.records[id].connection
  {
    assert Take(g, m).proposals == g.proposals;
    TakeTells(g, m, done);
    ProposedSo(g, done, id);
    ProposedSo(Take(g, m), done + Reported(g, m), id);
    hide Take, Telling;
  }

  lemma TakeKeepsFewActive(g: Guard, m: Move, done: set<Id>)
    requires Telling(g, done) && Allowed(g, m) && FewActive(g.x) && !TakesUp(g, m)
    ensures FewActive(Take(g, m).x)
  {
    var h := Take(g, m);
    if m.Proposes? {
      var ruling := Rule(m.destination, m.intent);
      hide FewActive, HasCapacity, Rule, Perform;
      if h.x != g.x { OneMoreActive(g.x, m.id, h.x.records[m.id]); }
    } else {
      NoNewRecords(g, m);
      hide Take, Telling, FewActive, Allowed;
      forall id | id in h.x.records ensures h.x.records[id].connection == g.x.records[id].connection {
        ConnectionsStay(g, m, done, id);
      }
      FewerActive(g.x, h.x);
    }
  }

  ghost predicate NeverTakesUp(g: Guard, moves: seq<Move>)
    decreases |moves|
  {
    moves == [] || (!TakesUp(g, moves[0]) && NeverTakesUp(Take(g, moves[0]), moves[1..]))
  }

  lemma {:induction false} HistoriesKeepFewActive(g: Guard, moves: seq<Move>, g': Guard, done: set<Id>)
    requires Telling(g, done) && FewActive(g.x) && History(g, moves, g') && NeverTakesUp(g, moves)
    ensures FewActive(g'.x)
    decreases |moves|
  {
    hide Telling, Take, Allowed, Reported, FewActive, TakesUp;
    if moves != [] {
      TakeTells(g, moves[0], done);
      TakeKeepsFewActive(g, moves[0], done);
      HistoriesKeepFewActive(Take(g, moves[0]), moves[1..], g', done + Reported(g, moves[0]));
    }
  }

  /** As long as no report takes up an export that had ended, at most four exports are under
      way, one of each connection. */
  lemma ActiveExportsAreBounded(moves: seq<Move>, g: Guard, i: Id, j: Id)
    requires History(FRESH, moves, g) && NeverTakesUp(FRESH, moves)
    ensures |ActiveIds(g.x)| <= 4
    ensures i in g.x.records && j in g.x.records && IsActive(g.x.records[i].state) && IsActive(g.x.records[j].state) ==>
              i == j || g.x.records[i].connection != g.x.records[j].connection
  {
    assert ActiveIds(FRESH.x) == {};
    HistoriesKeepFewActive(FRESH, moves, g, {});
    hide Guarded, AllAsked, History;
  }
}
