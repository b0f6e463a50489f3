/** The policy of a granted folder: which exports run without asking, which ask, which make
    the user confirm by phrase, and that this is what the coordinator gets to see. */
module ExportPolicy {
  import opened Basics
  import opened Approvals
  import opened ApprovalEffects
  import opened PartNames
  import opened ExportSteps
  import opened GuardedExports

  // ---------------------------------------------------------------------
  // Rulings.
  // ---------------------------------------------------------------------

  /** The name of a file that the export could write. */
  ghost predicate IsPart(name: string, intent: Intent) {
    exists n: nat :: 1 <= n <= U64_MAX && PartFileName(intent.baseName, n, Extension(intent.format)) == Some(name)
  }

  /** What the grant allows without asking. */
  predicate Inside(d: Destination, intent: Intent) {
    && (intent.format == Csv ==> d.allowCsv)
    && (intent.format == Parquet ==> d.allowParquet)
    && intent.rowsPerPart <= d.maximumRowsPerPart
  }

  /** The scan sees nothing amiss before entry `k`. */
  ghost predicate ClearUpTo(entries: seq<Entry>, k: nat, intent: Intent)
    requires k <= |entries|
  {
    forall i :: 0 <= i < k ==> !entries[i].Broken? && (entries[i].Named? ==> !IsPart(entries[i].name, intent))
  }

  /** The folder is there, is readable and not too large, and holds no part. */
  ghost predicate Untouched(d: Destination, intent: Intent) {
    d.folder.Some? && |d.folder.value| <= 10_000 && ClearUpTo(d.folder.value, |d.folder.value|, intent)
  }

  /** The first thing that the scan meets is a part that is a regular file. */
  ghost predicate Replaces(d: Destination, intent: Intent) {
    d.folder.Some?
    && exists k :: 0 <= k < |d.folder.value| && ReplacesAt(d.folder.value, k, intent)
  }

  ghost predicate ReplacesAt(entries: seq<Entry>, k: nat, intent: Intent)
    requires k < |entries|
  {
    k < 10_000 && entries[k].Named? && entries[k].kind == RegularFile && IsPart(entries[k].name, intent)
    && ClearUpTo(entries, k, intent)
  }

  lemma PartsAreCanonical(name: string, intent: Intent)
    ensures Canonical(name, intent.baseName, Extension(intent.format)) <==> IsPart(name, intent)
  {
    RecogniserAgreesWithPrinter(name, intent.baseName, Extension(intent.format));
  }

  lemma StopIs(entries: seq<Entry>, i: nat, intent: Intent)
    requires i < |entries| && i <= 10_000 && ClearUpTo(entries, i, intent)
    requires Stops(entries, i, intent.baseName, Extension(intent.format))
    ensures StopReport(entries, i) != Clear
    ensures |entries| > 10_000 || !ClearUpTo(entries, |entries|, intent)
    ensures StopReport(entries, i) == Collision <==> ReplacesAt(entries, i, intent)
    ensures forall k :: 0 <= k < |entries| && ReplacesAt(entries, k, intent) ==> k == i
  {
    if entries[i].Named? { PartsAreCanonical(entries[i].name, intent); }
    hide IsPart, Canonical;
  }

  /** The scan from an entry on, as far as everything before it is clear. */
  lemma {:induction false} ScanIs(entries: seq<Entry>, from: nat, intent: Intent)
    requires from <= |entries| && from <= 10_000 && ClearUpTo(entries, from, intent)
    ensures var scan := ScanFrom(entries, from, intent.baseName, Extension(intent.format));
            && (scan == Clear <==> |entries| <= 10_000 && ClearUpTo(entries, |entries|, intent))
            && (scan == Collision <==> exists k :: 0 <= k < |entries| && ReplacesAt(entries, k, intent))
    decreases |entries| - from
  {
    var base, extension := intent.baseName, Extension(intent.format);
    if from < |entries| {
      if entries[from].Named? { PartsAreCanonical(entries[from].name, intent); }
      hide IsPart, Canonical;
      if Stops(entries, from, base, extension) {
        StopIs(entries, from, intent);
      } else {
        ScanIs(entries, from + 1, intent);
      }
    } else {
      hide IsPart;
    }
  }

  /** Three rulings and no other: an export inside the grant's policy that meets no part is
      delegated; outside it, it asks; and one that meets a part of its own name first makes
      the user confirm that files are replaced. Whatever else the folder holds is an error. */
  lemma RulingIsPolicy(d: Destination, intent: Intent)
    ensures Rule(d, intent) == Some(Ruling(Delegated, FailIfExists)) <==> Untouched(d, intent) && Inside(d, intent)
    ensures Rule(d, intent) == Some(Ruling(ApprovalRequired, FailIfExists))
            <==> Untouched(d, intent) && !Inside(d, intent)
    ensures Rule(d, intent) == Some(Ruling(CriticalConfirmation, Replace)) <==> Replaces(d, intent)
    ensures Rule(d, intent).Some? ==> Untouched(d, intent) || Replaces(d, intent)
  {
    if d.folder.Some? { ScanIs(d.folder.value, 0, intent); }
    hide ScanFrom, ClearUpTo, ReplacesAt;
  }

  lemma ExtensionsJoin(stem: string, format: ExportFormat)
    ensures stem + "." + Extension(format) == stem + if format == Csv then ".csv" else ".parquet"
  {
    assert "." + "csv" == ".csv" && "." + "parquet" == ".parquet";
    assert stem + "." + Extension(format) == stem + ("." + Extension(format));
  }

  /** Parts of a format have its extension. */
  lemma PartsHaveExtensions(name: string, intent: Intent) returns (stem: string)
    requires IsPart(name, intent)
    ensures name == stem + if intent.format == Csv then ".csv" else ".parquet"
  {
    var n: nat :| 1 <= n <= U64_MAX && PartFileName(intent.baseName, n, Extension(intent.format)) == Some(name);
    hide *;
    var digits := PartNameIsPrinted(intent.baseName, n, Extension(intent.format));
    stem := intent.baseName + "-part-" + digits;
    ExtensionsJoin(stem, intent.format);
  }

  // ---------------------------------------------------------------------
  // What the coordinator gets to see.
  // ---------------------------------------------------------------------

  /** Over every history, an export that comes to the coordinator without an approval is inside
      the policy of its destination as it is then, and meets no part of its own name. */
  lemma DelegatedStaysInsidePolicy(moves: seq<Move>, g: Guard, k: nat)
    requires History(FRESH, moves, g) && k < |g.arrivals|
    ensures var a := g.arrivals[k];
            a.id in g.proposals
            && (g.proposals[a.id].approvalId.None? ==>
                  Inside(a.destination, g.proposals[a.id].intent) && Untouched(a.destination, g.proposals[a.id].intent))
  {
    HistoriesAreGuarded(FRESH, moves, g);
    var a := g.arrivals[k];
    assert ArrivalOk(a, g);
    RulingIsPolicy(a.destination, g.proposals[a.id].intent);
    hide Rule, Inside, Untouched, Replaces;
  }

  /** What the approval of an export says, from its proposal on. */
  ghost predicate Asked(lives: map<Id, seq<Event>>, id: Id, p: ExportRecord) {
    p.approvalId.Some? ==>
      var aid := p.approvalId.value;
      && aid in lives && |lives[aid]| >= 1 && lives[aid][0].Proposed?
      && lives[aid][0].kind == Export(id)
      && lives[aid][0].connection == p.connection
      && lives[aid][0].profile == p.client
      && lives[aid][0].phrase == if p.decision.CriticalConfirmation? then Some(CriticalPhrase(aid)) else None
  }

  ghost predicate AllAsked(g: Guard) {
    forall id :: id in g.proposals ==> Asked(g.ledger.lives, id, g.proposals[id])
  }

  lemma LongerLivesStayAsked(lives: map<Id, seq<Event>>, lives': map<Id, seq<Event>>, id: Id, p: ExportRecord)
    requires Asked(lives, id, p) && Longer(lives, lives')
    ensures Asked(lives', id, p)
  {
  }

  lemma TryLengthensLives(g: Guard, id: Id, looked: Millis, pruned: Millis, now: Millis)
    ensures Longer(g.ledger.lives, TryLedger(g, id, looked, pruned, now).lives)
  {
    var seen := Perform(g.ledger, Looks, looked, looked);
    LivesGetLonger(g.ledger, Looks, looked, looked);
    if LooksUp(g.x, id) {
      var r := g.x.records[id];
      LivesGetLonger(seen, Uses(r.approvalId.value, Export(id), r.connection, r.client), pruned, now);
    }
    hide Perform;
  }

  lemma ProposalIsAsked(g: Guard, m: Move)
    requires m.Proposes? && AllAsked(g) && Allowed(g, m)
    ensures AllAsked(Take(g, m))
  {
    var ruling := Rule(m.destination, m.intent);
    if HasCapacity(g.x, m.conn) && ruling.Some? && !ruling.value.decision.Delegated? {
      var act := Act.Proposes(m.approvalId, Export(m.id), m.conn, m.client, m.project,
                              ruling.value.decision.CriticalConfirmation?);
      LivesGetLonger(g.ledger, act, m.pruned, m.now);
      forall id | id in g.proposals
        ensures Asked(Perform(g.ledger, act, m.pruned, m.now).lives, id, g.proposals[id])
      {
        LongerLivesStayAsked(g.ledger.lives, Perform(g.ledger, act, m.pruned, m.now).lives, id, g.proposals[id]);
      }
    }
    hide Rule, HasCapacity, CriticalPhrase, PruneBook, HasRoom;
  }

  lemma TakeKeepsAsked(g: Guard, m: Move)
    requires AllAsked(g) && Allowed(g, m)
    ensures AllAsked(Take(g, m))
  {
    if m.Proposes? {
      ProposalIsAsked(g, m);
    } else {
      var g' := Take(g, m);
      assert g'.proposals == g.proposals;
      OthersLengthenLives(g, m);
      hide Take;
      forall id | id in g'.proposals ensures Asked(g'.ledger.lives, id, g'.proposals[id]) {
        LongerLivesStayAsked(g.ledger.lives, g'.ledger.lives, id, g.proposals[id]);
      }
    }
  }

  lemma OthersLengthenLives(g: Guard, m: Move)
    requires !m.Proposes?
    ensures Longer(g.ledger.lives, Take(g, m).ledger.lives)
  {
    if m.ApprovalMove? { LivesGetLonger(g.ledger, m.act, m.pruned, m.now); }
    if m.TriesApproved? { TryLengthensLives(g, m.id, m.looked, m.pruned, m.now); }
    hide Perform, TryLedger, StartOrFail, TryApproved, Cleanup, CancelRecord, Sync, FailBeforeStart,
         ExportSteps.Release;
  }

  lemma {:induction false} HistoriesKeepAsked(g: Guard, moves: seq<Move>, g': Guard)
    requires AllAsked(g) && History(g, moves, g')
    ensures AllAsked(g')
    decreases |moves|
  {
    if moves != [] {
      TakeKeepsAsked(g, moves[0]);
      HistoriesKeepAsked(Take(g, moves[0]), moves[1..], g');
    }
  }

  /** Over every history, the coordinator may only replace files if the user has approved the
      export of this connection by typing its phrase. */
  lemma ReplacingIsConfirmed(moves: seq<Move>, g: Guard, k: nat)
    requires History(FRESH, moves, g) && k < |g.arrivals| && g.arrivals[k].ruling.overwrite.Replace?
    ensures var a := g.arrivals[k];
            a.id in g.proposals && g.proposals[a.id].approvalId.Some?
            && var aid := g.proposals[a.id].approvalId.value;
               aid in g.ledger.lives && |g.ledger.lives[aid]| == 3
               && g.ledger.lives[aid][0].Proposed? && g.ledger.lives[aid][0].kind == Export(a.id)
               && g.ledger.lives[aid][0].connection == g.proposals[a.id].connection
               && g.ledger.lives[aid][1].Decided? && g.ledger.lives[aid][1].approve
               && g.ledger.lives[aid][1].typed == Some(CriticalPhrase(aid))
  {
    HistoriesAreGuarded(FRESH, moves, g);
    HistoriesKeepAsked(FRESH, moves, g);
    var a := g.arrivals[k];
    assert ArrivalOk(a, g);
    StartsOnlyWhenApproved(moves, g, k) by { RulingIsPolicy(a.destination, g.proposals[a.id].intent); }
    RulingIsPolicy(a.destination, g.proposals[a.id].intent);
    assert Asked(g.ledger.lives, a.id, g.proposals[a.id]);
    hide Rule, Inside, Untouched, Replaces, CriticalPhrase;
  }

  // ---------------------------------------------------------------------
  // What proposals and starts achieve.
  // ---------------------------------------------------------------------

  /** No active export of the connection, and fewer than four in all. */
  predicate Free(x: Registry, conn: Id) {
    && (forall id :: id in x.records && x.records[id].connection == conn ==> !IsActive(x.records[id].state))
    && |set id | id in x.records && IsActive(x.records[id].state)| < 4
  }

  /** There is room for one more approval of the client's. */
  predicate CanAsk(l: Ledger, client: Id, pruned: Millis) {
    |PendingIds(PruneBook(l.book, pruned))| < 16 && |PendingOf(PruneBook(l.book, pruned), client)| < 4
  }

  /** The registry's entry for a new export. */
  predicate IsNew(r: ExportRecord, m: Move)
    requires m.Proposes?
  {
    && r.connection == m.conn && r.client == m.client && r.project == m.project && r.intent == m.intent
    && r.path == m.destination.path && r.revision == m.destination.revision
    && r.hasSnapshot && r.coordinatorId.None? && !r.approvalClaimed && !r.auditWritten
  }

  /** Inside the policy no approval is asked for. */
  lemma InsidePolicyNobodyIsAsked(g: Guard, m: Move)
    requires m.Proposes? && Allowed(g, m) && Free(g.x, m.conn)
    requires Untouched(m.destination, m.intent) && Inside(m.destination, m.intent)
    ensures var h := Take(g, m);
            && h.ledger == g.ledger
            && m.id in h.x.records && IsNew(h.x.records[m.id], m) && h.x.records[m.id].approvalId.None?
            && h.x.records[m.id].decision.Delegated? && h.x.records[m.id].overwrite.FailIfExists?
            && h.x.records[m.id].state.Queued?
  {
    RulingIsPolicy(m.destination, m.intent);
    assert ActiveIds(g.x) == set id | id in g.x.records && IsActive(g.x.records[id].state);
    hide Rule, Inside, Untouched, Replaces;
  }

  /** Outside it the user is asked, and by phrase where files would be replaced. */
  lemma OutsidePolicyTheUserIsAsked(g: Guard, m: Move)
    requires m.Proposes? && Allowed(g, m) && Free(g.x, m.conn) && CanAsk(g.ledger, m.client, m.pruned)
    requires (Untouched(m.destination, m.intent) && !Inside(m.destination, m.intent))
             || Replaces(m.destination, m.intent)
    ensures var h, critical := Take(g, m), Replaces(m.destination, m.intent);
            && m.id in h.x.records && IsNew(h.x.records[m.id], m) && h.x.records[m.id].approvalId == Some(m.approvalId)
            && h.x.records[m.id].decision == (if critical then CriticalConfirmation else ApprovalRequired)
            && h.x.records[m.id].overwrite == (if critical then Replace else FailIfExists)
            && h.x.records[m.id].state.AwaitingApproval?
            && m.approvalId in h.ledger.book
            && h.ledger.book[m.approvalId]
               == Approval(Export(m.id), m.conn, m.client, m.project,
                           if critical then Some(CriticalPhrase(m.approvalId)) else None, Pending, m.now)
  {
    RulingIsPolicy(m.destination, m.intent);
    assert ActiveIds(g.x) == set id | id in g.x.records && IsActive(g.x.records[id].state);
    hide Rule, Inside, Untouched, Replaces, PruneBook, CriticalPhrase, PendingIds, PendingOf;
  }

  /** Anything else about the folder refuses the proposal. */
  lemma OtherFoldersAreRefused(g: Guard, m: Move)
    requires m.Proposes? && !Untouched(m.destination, m.intent) && !Replaces(m.destination, m.intent)
    ensures Take(g, m) == g
  {
    RulingIsPolicy(m.destination, m.intent);
  }

  /** The destination is as it was: its revision, and what the policy says of the export. */
  predicate AsProposed(r: ExportRecord, a: Attempt) {
    a.revalidated && a.destination.Some? && a.destination.value.revision == r.revision
    && Rule(a.destination.value, r.intent) == Some(Ruling(r.decision, r.overwrite))
  }

  /** The export has come to the coordinator, which runs it under this identifier. */
  predicate Runs(g: Guard, h: Guard, id: Id, a: Attempt) {
    && |h.arrivals| == |g.arrivals| + 1 && h.arrivals[|g.arrivals|].id == id
    && id in h.x.records && h.x.records[id].coordinatorId == a.coordinator && h.x.records[id].state.Queued?
    && !h.x.records[id].hasSnapshot
  }

  /** A delegated export starts, if nothing has changed. */
  lemma DelegatedStarts(g: Guard, id: Id, a: Attempt, stored: bool)
    requires id in g.x.records && g.x.records[id].state.Queued? && g.x.records[id].hasSnapshot
    requires AsProposed(g.x.records[id], a) && a.coordinator.Some?
    ensures Runs(g, Take(g, StartsDelegated(id, a, stored)), id, a)
  {
    hide Rule;
  }

  /** So does one whose approval shows approved, in time; its approval is then used up. */
  lemma ApprovedStarts(g: Guard, id: Id, looked: Millis, pruned: Millis, now: Millis, a: Attempt, stored: bool)
    requires id in g.x.records && g.x.records[id].state.AwaitingApproval? && g.x.records[id].hasSnapshot
    requires g.x.records[id].approvalId.Some? && AsProposed(g.x.records[id], a) && a.coordinator.Some?
    requires g.ledger.clock <= looked <= pruned <= now
    requires var r := g.x.records[id];
             && r.approvalId.value in g.ledger.book
             && var p := g.ledger.book[r.approvalId.value];
                && p.kind == Export(id) && p.connection == r.connection && p.state.Approved?
                && now < p.createdAt + 120_000
    ensures var h := Take(g, TriesApproved(id, looked, pruned, now, a, stored));
            && Runs(g, h, id, a) && h.x.records[id].approvalClaimed
            && g.x.records[id].approvalId.value in h.ledger.book
            && h.ledger.book[g.x.records[id].approvalId.value].state.Used?
  {
    var r := g.x.records[id];
    var aid := r.approvalId.value;
    var seen := PruneBook(g.ledger.book, looked);
    assert seen[aid] == g.ledger.book[aid] && PruneBook(seen, pruned)[aid] == g.ledger.book[aid];
    TryWithUse(g, id, looked, pruned, now, a, stored);
    var x := SetRecord(g.x, id, r.(approvalClaimed := true));
    assert Starts(x, id, a);
    hide Rule, TryStart, Expire, CriticalPhrase;
  }

  /** What an attempt to start an export answers. */
  lemma AttemptsSayWhy(x: Registry, book: Book, id: Id, looked: Millis, pruned: Millis, now: Millis, a: Attempt,
                       stored: bool)
    ensures var t, b := TryApproved(x, book, id, looked, pruned, now, a, stored), PruneBook(book, looked);
            var awaits := id in x.records && x.records[id].state == AwaitingApproval;
            var found := awaits && x.records[id].approvalId.Some? && x.records[id].approvalId.value in b
                         && b[x.records[id].approvalId.value].connection == x.records[id].connection
                         && b[x.records[id].approvalId.value].kind == Export(id);
            && (t.result == NotAwaiting <==> !awaits)
            && (t.result == StillPending <==> found && b[x.records[id].approvalId.value].state in {Pending, Used})
            && (t.result == Refused <==>
                  found && b[x.records[id].approvalId.value].state in {Denied, Expired, ApprovalState.Failed})
            && (t.result.Tried? ==> found && b[x.records[id].approvalId.value].state == Approved)
            && (t.result in {NotAwaiting, StillPending, LookupFailed} ==> t.x == x)
  {
    hide Consume, Claims, Starts, StartOrFail, FailBeforeStart, PruneBook;
  }

  /** An export whose approval was refused, or is too old, ends without a start. */
  lemma RefusedEnds(g: Guard, id: Id, looked: Millis, pruned: Millis, now: Millis, a: Attempt, stored: bool)
    requires id in g.x.records && g.x.records[id].state.AwaitingApproval? && !g.x.records[id].auditWritten
    requires g.x.records[id].approvalId.Some?
    requires var r := g.x.records[id];
             && r.approvalId.value in g.ledger.book
             && var p := g.ledger.book[r.approvalId.value];
                && p.kind == Export(id) && p.connection == r.connection
                && (p.state in {Denied, Expired, ApprovalState.Failed}
                    || (Rank(p.state) < 2 && looked >= p.createdAt + 120_000))
    ensures var h := Take(g, TriesApproved(id, looked, pruned, now, a, stored));
            && h.arrivals == g.arrivals
            && id in h.x.records && h.x.records[id].state == (if stored then ExportState.Failed else RecoveryRequired)
            && h.x.records[id].auditWritten
  {
    FailingEnds(g.x, id, stored);
    var aid := g.x.records[id].approvalId.value;
    assert PruneBook(g.ledger.book, looked)[aid] == Expire(g.ledger.book[aid], looked);
    hide Rule, FailBeforeStart, Perform, PruneBook, Arrive, ClaimAndStart;
  }

  lemma FailingEnds(x: Registry, id: Id, stored: bool)
    requires id in x.records && !x.records[id].auditWritten
    ensures var y := FailBeforeStart(x, id, stored);
            && id in y.records && y.records[id].auditWritten
            && y.records[id].state == (if stored then ExportState.Failed else RecoveryRequired)
            && y.audits == x.audits + [AuditRow(id, x.records[id].(state := ExportState.Failed))]
  {
    var r := x.records[id].(state := ExportState.Failed);
    var r' := r.(auditWritten := true, state := if stored then r.state else RecoveryRequired);
    var z := SetRecord(SetRecord(x, id, r), id, r').(audits := x.audits + [AuditRow(id, r)]);
    RememberKeepsRecord(z, id);
    hide Remember, AuditRow;
  }
}
