/** Guarded exports: what each operation does to the export registry. */
module ExportSteps {
  import opened Basics
  import opened Approvals
  import opened PartNames

  const MAX_ACTIVE_AGENT_EXPORTS: nat := 4
  const MAX_TERMINAL_AGENT_EXPORTS: nat := 256

  datatype ExportFormat = Csv | Parquet

  function Extension(f: ExportFormat): string {
    if f.Csv? then "csv" else "parquet"
  }

  datatype ExportState =
    | AwaitingApproval | Queued | Running | Succeeded | Failed | Cancelled | RecoveryRequired

  datatype ExportDecision = Delegated | ApprovalRequired | CriticalConfirmation
  datatype Overwrite = FailIfExists | Replace

  datatype Intent = Intent(destinationId: Id, format: ExportFormat, baseName: string, rowsPerPart: nat)

  /** A granted destination as it is now: its policy and its folder's contents. */
  datatype Destination = Destination(
    path: string,
    revision: nat,
    allowCsv: bool,
    allowParquet: bool,
    maximumRowsPerPart: nat,
    folder: Option<seq<Entry>>)

  datatype ExportRecord = ExportRecord(
    connection: Id,
    client: Id,
    project: Id,
    path: string,
    revision: nat,
    hasSnapshot: bool,
    intent: Intent,
    decision: ExportDecision,
    approvalId: Option<Id>,
    approvalClaimed: bool,
    overwrite: Overwrite,
    state: ExportState,
    coordinatorId: Option<Id>,
    auditWritten: bool)

  predicate IsActive(s: ExportState) {
    s.AwaitingApproval? || s.Queued? || s.Running?
  }

  datatype AuditDecision = ByDelegation | ByApproval | ByCriticalApproval | ByDenial

  /** A row of the audit log. */
  datatype Audit = Audit(exportId: Id, decision: AuditDecision, outcome: ExportState)

  /** The registry, with the audit rows it has tried to store. */
  datatype Registry = Registry(records: map<Id, ExportRecord>, terminalOrder: seq<Id>, audits: seq<Audit>)

  // ---------------------------------------------------------------------
  // Policy.
  // ---------------------------------------------------------------------

  datatype Ruling = Ruling(decision: ExportDecision, overwrite: Overwrite)

  function Rule(d: Destination, intent: Intent): Option<Ruling> {
    match ScanFolder(d.folder, intent.baseName, Extension(intent.format))
    case Collision => Some(Ruling(CriticalConfirmation, Replace))
    case Clear =>
      if !(if intent.format.Csv? then d.allowCsv else d.allowParquet) || intent.rowsPerPart > d.maximumRowsPerPart
      then Some(Ruling(ApprovalRequired, FailIfExists))
      else Some(Ruling(Delegated, FailIfExists))
    case _ => None
  }

  // ---------------------------------------------------------------------
  // Ends of exports.
  // ---------------------------------------------------------------------

  function SetRecord(x: Registry, id: Id, r: ExportRecord): Registry {
    x.(records := x.records[id := r])
  }

  /** Moves an export to the back of the terminal order and evicts from the front. */
  function Remember(x: Registry, id: Id): Registry {
    var order := Without(x.terminalOrder, id) + [id];
    var excess := if |order| > MAX_TERMINAL_AGENT_EXPORTS then |order| - MAX_TERMINAL_AGENT_EXPORTS else 0;
    x.(terminalOrder := order[excess..], records := x.records - (set i | i in order[..excess]))
  }

  function AuditRow(id: Id, r: ExportRecord): Audit {
    Audit(id,
          match r.decision
          case Delegated => ByDelegation
          case ApprovalRequired => if r.approvalClaimed then ByApproval else ByDenial
          case CriticalConfirmation => if r.approvalClaimed then ByCriticalApproval else ByDenial,
          if r.state.Succeeded? || r.state.Cancelled? || r.state.RecoveryRequired? then r.state else ExportState.Failed)
  }

  /** `stored` tells whether the audit row could be stored. */
  function FinishTerminal(x: Registry, id: Id, stored: bool): Registry {
    if id !in x.records || x.records[id].auditWritten then x
    else
      var r := x.records[id];
      var row := AuditRow(id, r);
      var r' := r.(auditWritten := true, state := if stored then r.state else RecoveryRequired);
      Remember(SetRecord(x, id, r').(audits := x.audits + [row]), id)
  }

  function FailBeforeStart(x: Registry, id: Id, stored: bool): Registry {
    if id !in x.records then x
    else FinishTerminal(SetRecord(x, id, x.records[id].(state := ExportState.Failed)), id, stored)
  }

  // ---------------------------------------------------------------------
  // Starting.
  // ---------------------------------------------------------------------

  /** The world that a start meets: whether the statement is still a safe read of
      the same catalog, the destination as it is now, and the coordinator's answer. */
  datatype Attempt = Attempt(revalidated: bool, destination: Option<Destination>, coordinator: Option<Id>)

  predicate HoldsSnapshot(x: Registry, id: Id) {
    id in x.records && (x.records[id].state.Queued? || x.records[id].state.AwaitingApproval?)
    && x.records[id].hasSnapshot
  }

  /** The export reaches the coordinator. */
  predicate Reaches(x: Registry, id: Id, a: Attempt) {
    && HoldsSnapshot(x, id)
    && a.revalidated && a.destination.Some?
    && a.destination.value.revision == x.records[id].revision
    && Rule(a.destination.value, x.records[id].intent)
       == Some(Ruling(x.records[id].decision, x.records[id].overwrite))
  }

  predicate Starts(x: Registry, id: Id, a: Attempt) {
    Reaches(x, id, a) && a.coordinator.Some?
  }

  function StartLocked(x: Registry, id: Id, a: Attempt): Registry {
    if !HoldsSnapshot(x, id) then x
    else
      var taken := x.records[id].(hasSnapshot := false);
      SetRecord(x, id, if Starts(x, id, a) then taken.(coordinatorId := a.coordinator, state := Queued) else taken)
  }

  /** A start that is refused ends the export. */
  function StartOrFail(x: Registry, id: Id, a: Attempt, stored: bool): Registry {
    var s := StartLocked(x, id, a);
    if Starts(x, id, a) then s else FailBeforeStart(s, id, stored)
  }

  datatype TryResult = NotAwaiting | StillPending | Refused | LookupFailed | Tried(started: bool)

  /** What trying to start an awaiting export does to the registry and the approvals. */
  datatype Try = Try(result: TryResult, x: Registry, book: Book)

  function Claims(r: ExportRecord, id: Id, seen: Book, pruned: Millis, now: Millis): bool
    requires r.approvalId.Some?
  {
    ClaimVerdict(PruneBook(seen, pruned), r.approvalId.value, Export(id), r.connection, r.client, now).Claimed?
  }

  /** An approved approval is used up, and then the export starts or ends. */
  function ClaimAndStart(x: Registry, seen: Book, id: Id, pruned: Millis, now: Millis, a: Attempt, stored: bool): Try
    requires id in x.records && x.records[id].approvalId.Some?
  {
    var r := x.records[id];
    var used := Consume(seen, r.approvalId.value, Export(id), r.connection, r.client, pruned, now);
    if !Claims(r, id, seen, pruned, now) then Try(LookupFailed, x, used)
    else
      var claimed := SetRecord(x, id, r.(approvalClaimed := true));
      Try(Tried(Starts(claimed, id, a)), StartOrFail(claimed, id, a, stored), used)
  }

  /** The export's own approval is looked up; its state says what happens. */
  function TryApproved(x: Registry, book: Book, id: Id, looked: Millis, pruned: Millis, now: Millis,
                       a: Attempt, stored: bool): Try {
    if id !in x.records || !x.records[id].state.AwaitingApproval? then Try(NotAwaiting, x, book)
    else if x.records[id].approvalId.None? then Try(LookupFailed, x, book)
    else
      var r := x.records[id];
      var seen := PruneBook(book, looked);
      var aid := r.approvalId.value;
      if aid !in seen || seen[aid].connection != r.connection || seen[aid].kind != Export(id)
      then Try(LookupFailed, x, seen)
      else match seen[aid].state
        case Approved => ClaimAndStart(x, seen, id, pruned, now, a, stored)
        case Pending => Try(StillPending, x, seen)
        case Used => Try(StillPending, x, seen)
        case _ => Try(Refused, FailBeforeStart(x, id, stored), seen)
  }

  // ---------------------------------------------------------------------
  // Following the coordinator.
  // ---------------------------------------------------------------------

  datatype Part = Part(number: nat, directory: string, fileName: string)
  datatype Progress = PQueued | PRunning | PSucceeded | PFailed(recovery: bool) | PCancelled
  datatype CoordinatorView = CoordinatorView(progress: Progress, parts: seq<Part>)

  predicate ManifestOk(r: ExportRecord, parts: seq<Part>) {
    forall i :: 0 <= i < |parts| ==>
      parts[i].directory == r.path
      && PartFileName(r.intent.baseName, parts[i].number, Extension(r.intent.format)) == Some(parts[i].fileName)
  }

  function StateFor(r: ExportRecord, v: CoordinatorView): ExportState {
    if !ManifestOk(r, v.parts) then RecoveryRequired
    else match v.progress
      case PQueued => Queued
      case PRunning => Running
      case PSucceeded => Succeeded
      case PFailed(recovery) => if recovery then RecoveryRequired else ExportState.Failed
      case PCancelled => Cancelled
  }

  function Sync(x: Registry, id: Id, view: Option<CoordinatorView>, stored: bool): Registry {
    if id !in x.records || x.records[id].coordinatorId.None? then x
    else if view.None? then FailBeforeStart(x, id, stored)
    else
      var r := x.records[id].(state := StateFor(x.records[id], view.value));
      var y := SetRecord(x, id, r);
      if !IsActive(r.state) && !r.auditWritten then FinishTerminal(y, id, stored) else y
  }

  // ---------------------------------------------------------------------
  // Withdrawing.
  // ---------------------------------------------------------------------

  function CancelRecord(x: Registry, id: Id, view: Option<CoordinatorView>, stored: bool): Registry {
    if id !in x.records then x
    else
      var r := x.records[id];
      if r.state.AwaitingApproval? then FinishTerminal(SetRecord(x, id, r.(state := Cancelled)), id, stored)
      else if (r.state.Queued? || r.state.Running?) && r.coordinatorId.Some? then Sync(x, id, view, stored)
      else FinishTerminal(x, id, stored)
  }

  function CancelApproval(book: Book, r: ExportRecord, id: Id): Book {
    if r.approvalId.Some? then CancelExport(book, r.approvalId.value, id) else book
  }

  datatype Reach =
    | ForConnection(connection: Id)
    | ForClientProject(client: Id, project: Id)
    | ForProject(project: Id)
    | ForDestination(destinationId: Id)
    | ForAll

  predicate Covers(reach: Reach, r: ExportRecord) {
    match reach
    case ForConnection(c) => r.connection == c
    case ForClientProject(c, p) => r.client == c && r.project == p
    case ForProject(p) => r.project == p
    case ForDestination(d) => r.intent.destinationId == d
    case ForAll => true
  }

  predicate Affected(x: Registry, id: Id, reach: Reach) {
    id in x.records && Covers(reach, x.records[id]) && IsActive(x.records[id].state)
  }

  function AffectedIds(x: Registry, order: seq<Id>, reach: Reach): seq<Id> {
    if order == [] then []
    else
      var init := AffectedIds(x, order[..|order| - 1], reach);
      if Affected(x, order[|order| - 1], reach) then init + [order[|order| - 1]] else init
  }

  function CancelApprovals(book: Book, x: Registry, ids: seq<Id>): Book {
    if ids == [] then book
    else
      var init, id := CancelApprovals(book, x, ids[..|ids| - 1]), ids[|ids| - 1];
      if id in x.records then CancelApproval(init, x.records[id], id) else init
  }

  function MarkCancelled(x: Registry, ids: seq<Id>): Registry {
    if ids == [] then x
    else
      var init, id := MarkCancelled(x, ids[..|ids| - 1]), ids[|ids| - 1];
      if id in init.records && init.records[id].state.AwaitingApproval?
      then SetRecord(init, id, init.records[id].(state := Cancelled)) else init
  }

  /** Second half of a cleanup: `before` is the registry as the cleanup found it. */
  function FinishCancelled(x: Registry, before: Registry, ids: seq<Id>, views: map<Id, CoordinatorView>,
                           unstored: set<Id>): Registry {
    if ids == [] then x
    else
      var init := FinishCancelled(x, before, ids[..|ids| - 1], views, unstored);
      var id := ids[|ids| - 1];
      if id !in before.records then init
      else if before.records[id].coordinatorId.Some?
      then Sync(init, id, if id in views then Some(views[id]) else None, id !in unstored)
      else if before.records[id].state.AwaitingApproval? then FinishTerminal(init, id, id !in unstored)
      else init
  }

  function Cleanup(x: Registry, order: seq<Id>, reach: Reach, views: map<Id, CoordinatorView>, unstored: set<Id>)
    : Registry
  {
    var ids := AffectedIds(x, order, reach);
    FinishCancelled(MarkCancelled(x, ids), x, ids, views, unstored)
  }

  function Release(x: Registry, id: Id): Registry {
    if id !in x.records || IsActive(x.records[id].state) then x
    else x.(records := x.records - {id}, terminalOrder := Without(x.terminalOrder, id))
  }

  // ---------------------------------------------------------------------
  // Proposing.
  // ---------------------------------------------------------------------

  function ActiveIds(x: Registry): set<Id> {
    set id | id in x.records && IsActive(x.records[id].state)
  }

  predicate HasCapacity(x: Registry, conn: Id) {
    && (forall id :: id in x.records ==> !(x.records[id].connection == conn && IsActive(x.records[id].state)))
    && |ActiveIds(x)| < MAX_ACTIVE_AGENT_EXPORTS
  }

  function NewRecord(conn: Id, client: Id, project: Id, d: Destination, intent: Intent, ruling: Ruling,
                     approvalId: Option<Id>): ExportRecord {
    ExportRecord(conn, client, project, d.path, d.revision, true, intent, ruling.decision, approvalId, false,
                 ruling.overwrite, if approvalId.Some? then AwaitingApproval else Queued, None, false)
  }
}
