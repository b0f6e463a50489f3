/** The export registry, updated in place. Every method is proved to do exactly
    what its counterpart in ExportSteps says. */
module ExportRegistry {
  import opened Basics
  import opened Approvals
  import opened PartNames
  import opened ExportSteps

  class ExportTable {
    var records: map<Id, ExportRecord>
    var terminalOrder: seq<Id>
    var audits: seq<Audit>

    function State(): Registry
      reads this
    {
      Registry(records, terminalOrder, audits)
    }

    constructor ()
      ensures State() == Registry(map[], [], [])
    {
      records, terminalOrder, audits := map[], [], [];
    }

    method RememberTerminal(id: Id)
      modifies this`records, this`terminalOrder
      ensures State() == Remember(old(State()), id)
    {
      hide Without;
      var kept := Retained(terminalOrder, id);
      terminalOrder := kept + [id];
      ghost var order := terminalOrder;
      ghost var n := 0;
      var evicted := [];
      while |terminalOrder| > MAX_TERMINAL_AGENT_EXPORTS
        invariant n <= |order| && terminalOrder == order[n..] && evicted == order[..n]
        invariant n == 0 || |order| - n >= MAX_TERMINAL_AGENT_EXPORTS
        invariant records == old(records)
      {
        evicted := evicted + [terminalOrder[0]];
        terminalOrder := terminalOrder[1..];
        n := n + 1;
      }
      for i := 0 to |evicted|
        invariant records == old(records) - set j | j in evicted[..i]
        invariant terminalOrder == order[n..]
      {
        records := records - {evicted[i]};
        assert evicted[..i + 1] == evicted[..i] + [evicted[i]];
      }
      assert evicted[..|evicted|] == evicted;
    }

    method FinishExport(id: Id, stored: bool)
      modifies this
      ensures State() == FinishTerminal(old(State()), id, stored)
    {
      if id !in records || records[id].auditWritten { return; }
      var r := records[id];
      audits := audits + [AuditRow(id, r)];
      r := r.(auditWritten := true);
      if !stored { r := r.(state := RecoveryRequired); }
      records := records[id := r];
      RememberTerminal(id);
    }

    method FailExport(id: Id, stored: bool)
      modifies this
      ensures State() == FailBeforeStart(old(State()), id, stored)
    {
      if id in records {
        records := records[id := records[id].(state := ExportState.Failed)];
        FinishExport(id, stored);
      }
    }

    /** Takes the snapshot, rechecks statement, destination and policy, and asks the
        coordinator. */
    method StartExport(id: Id, a: Attempt) returns (started: bool)
      modifies this
      ensures State() == StartLocked(old(State()), id, a)
      ensures started <==> Starts(old(State()), id, a)
    {
      if id !in records { return false; }
      var r := records[id];
      if !r.state.Queued? && !r.state.AwaitingApproval? { return false; }
      if !r.hasSnapshot { return false; }
      records := records[id := r.(hasSnapshot := false)];
      if !a.revalidated || a.destination.None? { return false; }
      var d := a.destination.value;
      if d.revision != r.revision { return false; }
      var ruling := RuleOn(d, r.intent);
      if ruling.None? || ruling.value.decision != r.decision || ruling.value.overwrite != r.overwrite {
        return false;
      }
      if a.coordinator.None? { return false; }
      records := records[id := records[id].(coordinatorId := a.coordinator, state := Queued)];
      return true;
    }

    method TryStartApproved(book: ApprovalBook, id: Id, looked: Millis, pruned: Millis, now: Millis,
                            a: Attempt, stored: bool) returns (result: TryResult)
      modifies this, book
      ensures Try(result, State(), book.entries)
              == TryApproved(old(State()), old(book.entries), id, looked, pruned, now, a, stored)
    {
      if id !in records || !records[id].state.AwaitingApproval? { return NotAwaiting; }
      var r := records[id];
      if r.approvalId.None? { return LookupFailed; }
      var aid := r.approvalId.value;
      book.Prune(looked);
      if aid !in book.entries || book.entries[aid].connection != r.connection
         || book.entries[aid].kind != Export(id) {
        return LookupFailed;
      }
      match book.entries[aid].state
      case Approved =>
        var claim := book.ConsumeApproval(aid, Export(id), r.connection, r.client, pruned, now);
        if !claim.Claimed? { return LookupFailed; }
        records := records[id := r.(approvalClaimed := true)];
        var started := StartExport(id, a);
        if !started { FailExport(id, stored); }
        return Tried(started);
      case Pending => return StillPending;
      case Used => return StillPending;
      case _ =>
        FailExport(id, stored);
        return Refused;
    }

    method SyncExport(id: Id, view: Option<CoordinatorView>, stored: bool)
      modifies this
      ensures State() == Sync(old(State()), id, view, stored)
    {
      if id !in records || records[id].coordinatorId.None? { return; }
      if view.None? {
        FailExport(id, stored);
        return;
      }
      var r := records[id];
      r := r.(state := StateFor(r, view.value));
      records := records[id := r];
      if !IsActive(r.state) && !r.auditWritten { FinishExport(id, stored); }
    }

    method Cancel(book: ApprovalBook, id: Id, view: Option<CoordinatorView>, stored: bool)
      modifies this, book
      ensures State() == CancelRecord(old(State()), id, view, stored)
      ensures book.entries == if id in old(records) && old(records)[id].state.AwaitingApproval?
                              then CancelApproval(old(book.entries), old(records)[id], id) else old(book.entries)
    {
      if id !in records { return; }
      var r := records[id];
      if r.state.AwaitingApproval? {
        if r.approvalId.Some? { book.CancelExportApproval(r.approvalId.value, id); }
        records := records[id := r.(state := Cancelled)];
        FinishExport(id, stored);
      } else if (r.state.Queued? || r.state.Running?) && r.coordinatorId.Some? {
        SyncExport(id, view, stored);
      } else {
        FinishExport(id, stored);
      }
    }

    method SelectAffected(order: seq<Id>, reach: Reach) returns (ids: seq<Id>)
      ensures ids == AffectedIds(State(), order, reach)
    {
      ids := [];
      for i := 0 to |order|
        invariant ids == AffectedIds(State(), order[..i], reach)
      {
        assert order[..i + 1][..i] == order[..i];
        if Affected(State(), order[i], reach) { ids := ids + [order[i]]; }
      }
      assert order[..|order|] == order;
    }

    method WithdrawApprovals(book: ApprovalBook, ids: seq<Id>)
      modifies book
      ensures book.entries == CancelApprovals(old(book.entries), State(), ids)
    {
      for i := 0 to |ids|
        invariant book.entries == CancelApprovals(old(book.entries), State(), ids[..i])
      {
        assert ids[..i + 1][..i] == ids[..i];
        if ids[i] in records && records[ids[i]].approvalId.Some? {
          book.CancelExportApproval(records[ids[i]].approvalId.value, ids[i]);
        }
      }
      assert ids[..|ids|] == ids;
    }

    method CancelAwaiting(ids: seq<Id>)
      modifies this`records
      ensures State() == MarkCancelled(old(State()), ids)
    {
      for i := 0 to |ids|
        invariant State() == MarkCancelled(old(State()), ids[..i])
      {
        assert ids[..i + 1][..i] == ids[..i];
        if ids[i] in records && records[ids[i]].state.AwaitingApproval? {
          records := records[ids[i] := records[ids[i]].(state := Cancelled)];
        }
      }
      assert ids[..|ids|] == ids;
    }

    method CleanupMatching(book: ApprovalBook, order: seq<Id>, reach: Reach, views: map<Id, CoordinatorView>,
                           unstored: set<Id>)
      modifies this, book
      ensures State() == Cleanup(old(State()), order, reach, views, unstored)
      ensures book.entries == CancelApprovals(old(book.entries), old(State()), AffectedIds(old(State()), order, reach))
    {
      var before := State();
      var ids := SelectAffected(order, reach);
      WithdrawApprovals(book, ids);
      CancelAwaiting(ids);
      ghost var marked := State();
      for i := 0 to |ids|
        invariant State() == FinishCancelled(marked, before, ids[..i], views, unstored)
        invariant book.entries == CancelApprovals(old(book.entries), before, ids)
      {
        assert ids[..i + 1][..i] == ids[..i];
        var id := ids[i];
        if id in before.records {
          if before.records[id].coordinatorId.Some? {
            SyncExport(id, if id in views then Some(views[id]) else None, id !in unstored);
          } else if before.records[id].state.AwaitingApproval? {
            FinishExport(id, id !in unstored);
          }
        }
      }
      assert ids[..|ids|] == ids;
    }

    method ReleaseExport(id: Id) returns (released: bool)
      modifies this
      ensures State() == Release(old(State()), id)
      ensures released <==> id in old(records) && !IsActive(old(records)[id].state)
    {
      if id !in records || IsActive(records[id].state) { return false; }
      terminalOrder := Retained(terminalOrder, id);
      records := records - {id};
      return true;
    }
  }

  /** The ruling on an export, from the scan of the destination folder. */
  method RuleOn(d: Destination, intent: Intent) returns (ruling: Option<Ruling>)
    ensures ruling == Rule(d, intent)
  {
    var scan := HasCanonicalCollision(d.folder, intent.baseName, Extension(intent.format));
    match scan
    case Collision => return Some(Ruling(CriticalConfirmation, Replace));
    case Clear =>
      var formatAllowed := if intent.format.Csv? then d.allowCsv else d.allowParquet;
      if !formatAllowed || intent.rowsPerPart > d.maximumRowsPerPart {
        return Some(Ruling(ApprovalRequired, FailIfExists));
      }
      return Some(Ruling(Delegated, FailIfExists));
    case _ => return None;
  }

  // ---------------------------------------------------------------------
  // The window of remembered ends.
  // ---------------------------------------------------------------------

  /** The newest end is remembered, at most 256 ends are, and what is evicted leaves
      the registry too. */
  lemma RememberKeepsWindow(x: Registry, id: Id)
    requires |x.terminalOrder| <= 256
    ensures var y := Remember(x, id);
            && |y.terminalOrder| <= 256
            && y.terminalOrder[|y.terminalOrder| - 1] == id
            && (id in x.records ==> id in y.records && y.records[id] == x.records[id])
            && (forall i :: i in x.records && i !in y.records ==> x.terminalOrder != [] && i == x.terminalOrder[0])
  {
    WithoutDrops(x.terminalOrder, id);
    var others := Without(x.terminalOrder, id);
    if |others| == MAX_TERMINAL_AGENT_EXPORTS {
      assert (others + [id])[..1] == [others[0]] && others[0] in others;
    }
  }

  /** A scan that meets a name which some part could have does not come back clear. */
  lemma {:induction false} ScanMeetsCanonical(entries: seq<Entry>, from: nat, i: nat, base: string, extension: string)
    requires from <= i < |entries| && entries[i].Named? && Canonical(entries[i].name, base, extension)
    ensures ScanFrom(entries, from, base, extension) != Clear
    decreases |entries| - from
  {
    if !Stops(entries, from, base, extension) {
      ScanMeetsCanonical(entries, from + 1, i, base, extension);
    }
  }

  /** What an export reports as written, a later export of the same base name and format
      into the folder meets before it starts: it is refused or needs the user's critical
      confirmation, whatever the destination's policy. */
  lemma WrittenPartsAreFoundAgain(r: ExportRecord, v: CoordinatorView, k: nat, d: Destination, i: nat)
    requires StateFor(r, v) != RecoveryRequired && k < |v.parts| && v.parts[k].number <= U64_MAX
    requires d.folder.Some? && i < |d.folder.value| && d.folder.value[i] == Named(v.parts[k].fileName, RegularFile)
    ensures v.parts[k].directory == r.path
    ensures Rule(d, r.intent) in {None, Some(Ruling(CriticalConfirmation, Replace))}
  {
    var base, extension := r.intent.baseName, Extension(r.intent.format);
    RecogniserAgreesWithPrinter(v.parts[k].fileName, base, extension);
    ScanMeetsCanonical(d.folder.value, 0, i, base, extension);
  }

  /** In a folder that is small enough, and where everything with the name of a part is a
      regular file, meeting one is a collision. */
  lemma {:induction false} WrittenPartsCollide(entries: seq<Entry>, from: nat, i: nat, base: string, extension: string)
    requires from <= i < |entries| <= MAX_COLLISION_SCAN_ENTRIES
    requires entries[i].Named? && Canonical(entries[i].name, base, extension)
    requires forall j :: 0 <= j < |entries| ==>
               !entries[j].Broken?
               && (entries[j].Named? && Canonical(entries[j].name, base, extension) ==> entries[j].kind.RegularFile?)
    ensures ScanFrom(entries, from, base, extension) == Collision
    decreases |entries| - from
  {
    if !Stops(entries, from, base, extension) {
      WrittenPartsCollide(entries, from + 1, i, base, extension);
    }
  }
}
