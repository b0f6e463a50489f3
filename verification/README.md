# Verification model of Tarik's agent access, guarded exports and quality checks

Tarik is a desktop SQL workbench that lets outside agents run queries, propose statements
for approval, start guarded exports and read quality checks. This project models the parts
of its Rust code that carry state, arithmetic or translation, and proves what they promise.

**Agent queries** (`AgentState`, `AgentSteps`, `AgentInvariant`, `AgentRuns`,
`AgentAcceptance`, `AgentMaintenance`, `AgentRequests`, `AgentResults`, `AgentReleases`,
`AgentAccess`, `Scheduler`, `SchedulerBudgets`, `SchedulerChecks`, `SchedulerRuns`). The query
tables are a map of queries, a map of SQL snapshots and a map of connections.
`AgentAccess.AccessTables` is the class that changes them in place; every method is proved
equal to a function on the tables in `AgentSteps`. `AgentRuns` proves safety over every run
of requests, maintenance passes, setting changes and engine progress. What the operations
achieve is proved apart from their definitions, with the times written out:
`AgentMaintenance` of a maintenance pass, `AgentRequests` of single requests,
`AgentAcceptance` of starting and accepting, `AgentResults` of the engine's reports, and
`AgentReleases` of results and their release. `Scheduler` takes the two locked sections of a
scheduling pass apart and interleaves them with everything else; `SchedulerBudgets` says which
sections of an interleaving can raise a budgeted total and bounds the excess,
`SchedulerChecks` says what keeps every interleaving within its budgets, and `SchedulerRuns`
holds runs that break them. Time is a number of milliseconds. The engine is an oracle: an
execution, once ended, stays ended, only a success has a result, its size is within the cap
of the query, and its identifier is the execution's. The iteration order of hash maps is
arbitrary; identifiers are fresh.

**Approvals** (`Approvals`, `ApprovalEffects`). The book of approvals with an observer that
records each approval's life, from proposal to use: what no course of events can do, and what
proposals, decisions and uses achieve.

**Guarded exports** (`PartNames`, `ExportSteps`, `ExportRegistry`, `GuardedExports`,
`ExportPolicy`, `ExportAudits`). The registry of exports with take-once snapshots and one
audit row each, the recogniser of part file names, and histories of moves over registry and
approvals together. The class `ExportRegistry.ExportTable` changes the registry in place, by
the functions of `ExportSteps`; the histories of `GuardedExports` are built from the same
functions. `ExportPolicy` says what a grant lets through and what an approved export comes
to, `ExportAudits` what the audit log says about it.

**Quality checks** (`SqlText`, `SqlStatements`, `SqlModel`, `SqlLemmas`, `QualityCompiler`,
`QualityChecks`, `QualityRelationships`, `QualityFreshness`, `QualityResults`, `QualityRuns`,
`QualityHistory`). Check definitions compile to a small SQL syntax with three-valued logic
and bag semantics (ISO/IEC 9075-2, sections 8.2 and 8.4) and are proved against a
row-by-row meaning. Identifiers are compared ignoring ASCII case. A hand-written check is
text: `SqlStatements` splits text as the engine does and says which statements survive being
pasted into a count query. The run coordinator is a class and a state machine of interleaved
pollers whose history is exactly-once.

**Catalog revision and framing** (`CatalogRevision`, `Framing`). The FNV-1a hash (section 2
of draft-eastlake-fnv) as modular arithmetic, and the newline reader with a carried buffer.

## What the proofs found

- Byte ceilings and "one query in the engine" hold when a scheduling pass is one step. The
  code has two locked sections for it, reads the engine outside the lock, and decides on
  cancellations and deadlines from earlier readings of the table; when these interleave, both
  can fail.
  - The busy test does not look at claimed queries: a second claim succeeds before the first
    has finished exactly if another query waits (`Scheduler.SecondClaimIsPossibleIff`), and
    then both are submitted (`SchedulerRuns.TwoReachTheEngine` is such a run, from empty
    tables).
  - Apart from admissions, a section raises a charge exactly if it is a report of more bytes
    than the entry is charged for, or a report or a withdrawal that finds an entry spent:
    ended, with nothing recorded (`SchedulerBudgets.WeightRisesIff`). Without such a section
    the byte ceilings hold in every interleaving (`SchedulerBudgets.ChargesStayWithinCeilings`);
    with n of them a ceiling is exceeded by at most n times 128 MiB, given an engine that
    honours the caps (`SchedulerBudgets.ExcessIsBounded`). The bounds on entries likewise
    (`SchedulerBudgets.EntriesStayBounded`).
  - Entries are spent while the engine has more to say for several reasons. A query can miss
    its deadline, be cancelled or lose its connection between its claim and its finish, and
    is accepted all the same (`SchedulerRuns.EndedBeforeAcceptanceBreaksTheCeiling`); the
    deadline (src-tauri/src/agent_access.rs:1408-1417 and 1658-1673) and both cancellations
    (lines 1894 and 2008) act on an earlier test of acceptance and can end an accepted query;
    and an older report can arrive after a report of the end
    (`SchedulerRuns.EndedAfterAcceptanceBreaksTheCeiling`). Withdrawing a query that failed,
    as mass invalidation does, charges it for its cap
    (`SchedulerRuns.WithdrawalBreaksTheCeiling`). Each is a run from empty tables that ends
    with 640 MiB charged to one profile.
  - These are all the reasons: if every section that ends a query tests under its lock that
    the query is neither claimed nor accepted, reports are up to date and only recorded
    results are withdrawn, then beside an engine that honours the caps and takes up no ended
    execution again all budgets hold in every interleaving
    (`SchedulerChecks.CheckedRunsStayWithinBudgets`), and if also no claims overlap, one
    query is in the engine (`SchedulerChecks.CheckedSerialRunsKeepOneInFlight`).
  - Each execution is submitted at most once under every interleaving, checked or not.
- Cancelling stops an export that could still start, unless it is a delegated one between
  its insertion and its start and its audit row is or was stored
  (`GuardedExports.CancelLeavesStartableIff`): that one is audited as ended and starts all
  the same. No agent can ask for this, because the identifier of a delegated export is made
  inside the proposal (src-tauri/src/agent_exports.rs:162) and handed out after the start
  (lines 221 and 227), and a start whose connection or destination went away is refused by
  revalidation. What protects the promise is that order of events, not the record's state.
- The catalog stream does not separate objects from columns. Catalogs of given shapes can
  have equal streams exactly if the shapes differ and have the same number of fields
  (`CatalogRevision.ShapesCollideIff`), also when every column belongs to a listed object
  (`CatalogRevision.ListedCatalogsCanCollide`). No two catalogs that the engine itself
  reports collide, because its objects are tables and views and a collision needs an object
  of kind "0" or "1" (`CatalogRevision.EngineCatalogsNeverCollide`).
- A relationship check is right for every table unless a parent key column is called
  `__tarik_match`, in any case of letters, and that name is taken to mean the marker
  (`QualityResults.RelationshipNeedsAClearMarker`).
- As the engine's splitter reads text, a hand-written check is counted exactly if its
  statement, trimmed and stripped of its last semicolons, ends outside line comments and has
  no semicolon of its own (`QualityResults.CustomIsCountedIff`). The check made when it is stored does not ensure
  that: `SELECT 1; ;` keeps its first semicolon and `SELECT 1 -- c` hides the closing
  parenthesis of its count query in its comment. Both are stored, and their runs end in error
  (`QualityResults.NotEveryStoredStatementIsCounted`).
- A run may show a pass or a failure for the moment its history row is being written, and
  change to an error if the row cannot be stored; over any run it changes for no other
  reason, and at most once (`QualityHistory.EndsChangeAtMostOnce`).

## Model

| member | source | states |
|---|---|---|
| AgentRuns.ChargedBytesStayWithinCeilings | src-tauri/src/agent_access.rs:1197-1227 | over every run, charged bytes are at most 512 MiB per profile and 1024 MiB overall |
| AgentRuns.LiveEntriesAreBounded | src-tauri/src/agent_access.rs:1206-1286 | at most 31 + 15 + 16 live entries, 16 outstanding, 8 outstanding per profile |
| AgentRuns.AtMostOneQueryInTheEngine | src-tauri/src/agent_access.rs:1544-1656 | with a pass as one step, two accepted unfinished queries are the same query |
| AgentRuns.ReservedSnapshotHasOneHolder | src-tauri/src/agent_access.rs:1287-1343 | a reserved snapshot has exactly one holder, a queued query the engine does not have |
| AgentRuns.LeavingTheQueueFreesTheSnapshot | src-tauri/src/agent_access.rs:1629-1673 | any step by which a query lets go of its snapshot leaves the snapshot deleted or free |
| AgentAcceptance.AcceptanceDeletesTheSnapshot | src-tauri/src/agent_access.rs:1629-1656 | whenever a step makes a query accepted, it is a start, a status request, a cancellation or a maintenance pass, and the snapshot the query was started from is gone |
| AgentAcceptance.StartsUseFreshSnapshots | src-tauri/src/agent_access.rs:1182-1305 | in every run a query only starts, for its connection's profile, from a safe read classified on that authenticated connection within two minutes and held by no other query |
| AgentRuns.StepAddsNoHolder | src-tauri/src/agent_access.rs:1287-1343 | only an admission makes a query hold a snapshot, and the snapshot was free |
| AgentRuns.ReachableStatesAreSafe | src-tauri/src/agent_access.rs:1177-1711 | budgets, reservations and entries are in order after every run from the empty tables |
| AgentRuns.StepKeepsInv | src-tauri/src/agent_access.rs:1177-2145 | each of the sixteen modelled steps (requests, setting changes, engine moves, disconnections, maintenance) keeps that order |
| AgentRuns.MaintainKeepsInv | src-tauri/src/agent_access.rs:1360-1542 | so does each maintenance pass, through its seven selections in turn |
| AgentInvariant.AdmitKeepsInv | src-tauri/src/agent_access.rs:1177-1354 | an admission within the metered budgets keeps budgets, entries and reservations |
| AgentInvariant.ApplyStatusKeepsInv | src-tauri/src/agent_access.rs:1675-1711 | a truthful report never raises a charge above what was set aside |
| AgentInvariant.DisconnectKeepsInv | src-tauri/src/agent_access.rs:2702-2775 | cutting off a connection keeps budgets, entries and reservations in order |
| AgentInvariant.ScheduleKeepsInv | src-tauri/src/agent_access.rs:1544-1656 | a whole scheduling pass keeps budgets, reservations and the single engine slot |
| AgentInvariant.PruneKeepsInv | src-tauri/src/agent_access.rs:3450-3468 | dropping old connections and snapshots keeps them too |
| AgentMaintenance.OverdueQueriesFail | src-tauri/src/agent_access.rs:1408-1493 | in every run, a queued query that the engine does not have fails by its queue deadline in a pass exactly if that many seconds have passed since its admission |
| AgentMaintenance.ExpiredResultsAreWithdrawn | src-tauri/src/agent_access.rs:1440-1541 | a result is withdrawn in a pass exactly if it was published 30 minutes ago or not looked at for 10; unread, it is then gone if the engine lets it go, and otherwise tried again after two seconds to a minute |
| AgentMaintenance.WithdrawnResultsAreTriedAgain | src-tauri/src/agent_access.rs:1448-1541 | a withdrawn, unread result is offered for release again exactly when its wait is over, if no more than sixteen are due; one that fails waits longer |
| AgentMaintenance.LateQueriesAreStopped | src-tauri/src/agent_access.rs:1421-1487 | a query in the engine is asked to stop by a pass exactly if it has been seen running for as many seconds as its execution deadline has, unless it was asked before or its connection leaves |
| AgentMaintenance.StaleConnectionsLeave | src-tauri/src/agent_access.rs:1370-1397 | a connection leaves in a pass exactly if it has been silent for 120 seconds and has no grace; the first pass after more than 35 seconds gives all of them 30 seconds of grace |
| AgentMaintenance.StaleConnectionsLeaveNothing | src-tauri/src/agent_access.rs:2702-2775 | with a connection that leaves go its snapshots, and what is unfinished of its queries is in the engine and asked to stop |
| AgentMaintenance.WakingUpDropsNobody | src-tauri/src/agent_access.rs:1370-1383 | the first pass after a gap in maintenance drops no connection |
| AgentMaintenance.BackOffDoubles | src-tauri/src/agent_access.rs:3289-3294 | each failed release doubles the wait, from two seconds up to a minute |
| AgentRequests.StartsIff | src-tauri/src/agent_access.rs:1177-1354 | in every run a query is started exactly if its connection is authenticated, its statement a free safe read of that connection less than 120 seconds old, and the table with the query in it within the user's settings; for that profile, admitted now |
| AgentRequests.RefusalsSayWhy | src-tauri/src/agent_access.rs:1197-1305 | each refusal of a start is given exactly if its limit is the first that the table with the query in it would break, or else its fault of the statement the first |
| AgentRequests.CancellationStops | src-tauri/src/agent_access.rs:1996-2031 | an entitled cancellation cancels a query that the engine does not have and marks one that it has; others go on or get their turn; without entitlement nothing changes |
| AgentRequests.CancellationIsAnswered | src-tauri/src/agent_access.rs:1996-2031 | of the whole request: what is cancelled is stopped and shows what the engine says of it; without entitlement no entry changes |
| AgentRequests.DesktopCancellationStops | src-tauri/src/agent_access.rs:1880-1917 | so does the desktop's, of a query that has not ended, and changes nothing else |
| AgentRequests.DisconnectionCutsItsOwn | src-tauri/src/agent_access.rs:2702-2775 | a disconnection takes away its connection and its snapshots and no other, and stops its unfinished queries and nobody else's |
| AgentRequests.BeatsHold | src-tauri/src/agent_access.rs:709-744 | a heartbeat or a new connection ends any grace, and no pass within 120 seconds drops the connection |
| AgentRequests.ClassificationIsKept | src-tauri/src/agent_access.rs:920-952 | a classified statement is kept, with its decision and owner, exactly if its connection is authenticated and fewer than 32 are younger than 120 seconds |
| AgentRequests.PruningIsExact | src-tauri/src/agent_access.rs:3450-3468 | pruning keeps exactly authenticated connections and those of the last 60 seconds, and statements of the last 120 |
| AgentRequests.TakingUsesUp | src-tauri/src/agent_access.rs:954-990 | proposing, explaining and exporting take a statement away and leave the other young ones |
| AgentRequests.PagesAreCounted | src-tauri/src/agent_access.rs:2033-2104 | exactly an entitled reader of a published result is counted as one |
| AgentRequests.ClosingUndoesOpening | src-tauri/src/agent_access.rs:2033-2104 | closing a page restores the count of readers and renews the result's idle time |
| AgentResults.ReportsAreTakenOver | src-tauri/src/agent_access.rs:1675-1711 | through every step of every run an accepted query's state is the last one reported, the first report of running and of a result sets its time for good, and the size of the result is the one reported |
| AgentReleases.EntryLeavesIff | src-tauri/src/agent_access.rs:2106-2145 | over every step of every run an entry leaves the table exactly if the step asks the engine for its release and the engine has released the result or does not have it |
| AgentReleases.ReadResultsStay | src-tauri/src/agent_access.rs:2118-2128 | no step takes away an entry that is being read |
| AgentReleases.GivingBackWithdraws | src-tauri/src/agent_access.rs:2106-2145 | giving a result back withdraws it; it is then gone, kept for its readers, or tried again after two seconds, and nothing else in the table changes |
| AgentReleases.OthersGiveNothingBack | src-tauri/src/agent_access.rs:2106-2117 | without entitlement, or without a result, giving back changes no entry |
| AgentReleases.NoResultIsLeftBehind | src-tauri/src/agent_access.rs:2939-2974 | in every run, whatever result the engine holds, and whatever execution goes on, has its entry in the table |
| AgentReleases.CacheStaysWithinCeilings | src-tauri/src/agent_access.rs:1197-1227 | over every run the results that the engine holds take at most 512 MiB of its cache for one profile and 1024 MiB in all |
| AgentState.Metered | src-tauri/src/agent_access.rs:1206-1286 | the metering loop computes the total of its quantity over the table |
| AgentState.TotalsAreCounts | src-tauri/src/agent_access.rs:1206-1286 | each count is the number of entries that are unfinished, retained, pending cleanup, live or in the engine, of one profile or of all |
| AgentState.BytesOfProfile | src-tauri/src/agent_access.rs:1197-1227 | a profile's bytes are the bytes of its entries |
| AgentState.ChargesAre | src-tauri/src/agent_access.rs:3296-3309 | a published result is charged at its size, an unfinished or pending query at its cap, anything else at nothing |
| AgentState.ShrinkingLowersTotals | src-tauri/src/agent_access.rs:3296-3309 | totals do not grow when no entry's charge grows and none is added |
| AgentAccess.AccessTables.StartQuery | src-tauri/src/agent_access.rs:1177-1354 | the tables become those of an admission followed by a scheduling pass, or the call is refused for exactly the reason that the start test gives; the view is the query's state |
| AgentAccess.AccessTables.CheckStart | src-tauri/src/agent_access.rs:1197-1305 | which of the seven refusals applies, in the order of the tests |
| AgentAccess.AccessTables.ClaimNext | src-tauri/src/agent_access.rs:1544-1600 | the next profile in turn and its earliest query are claimed, unless the engine is busy |
| AgentAccess.AccessTables.FinishQuery | src-tauri/src/agent_access.rs:1601-1656 | acceptance, a stale snapshot or an engine refusal, on the claimed query |
| AgentAccess.AccessTables.ScheduleNextQuery | src-tauri/src/agent_access.rs:1544-1656 | claim and finish as one step |
| AgentAccess.AccessTables.FailQueuedQuery | src-tauri/src/agent_access.rs:1658-1673 | the entry fails with its code and its snapshot is free again |
| AgentAccess.AccessTables.ApplyEngineStatus | src-tauri/src/agent_access.rs:1675-1711 | the report's state, first running time and result are taken over |
| AgentAccess.AccessTables.ReadStatus | src-tauri/src/agent_access.rs:1969-1994 | owner check, then a poll or a scheduling pass; a view comes back exactly if the owner asks and the engine, if it has the query, answers, and is the query's entry |
| AgentAccess.AccessTables.Cancel | src-tauri/src/agent_access.rs:1996-2031 | an unaccepted query is cancelled in the table, an accepted one in the engine; when a view comes back and which one |
| AgentAccess.AccessTables.DesktopCancelQuery | src-tauri/src/agent_access.rs:1880-1917 | the desktop's cancellation |
| AgentAccess.AccessTables.Release | src-tauri/src/agent_access.rs:2106-2145 | a result is withdrawn, then removed, put off or kept for its readers; the call succeeds exactly if the caller owns a published result |
| AgentAccess.AccessTables.RemoveResultAuthority | src-tauri/src/agent_access.rs:2939-2974 | the same on behalf of the desktop, with another retry count |
| AgentAccess.AccessTables.DisconnectClient | src-tauri/src/agent_access.rs:2702-2775 | the connection, its snapshots and its unfinished queries are cut off |
| AgentAccess.AccessTables.MaintainAt | src-tauri/src/agent_access.rs:1360-1542 | the passes in order: poll, fail overdue, cancel late, schedule, disconnect, withdraw, clean up |
| AgentAccess.WaitingMeansQuery | src-tauri/src/agent_access.rs:1560-1585 | a profile is in the sorted list exactly if it has a schedulable query |
| Scheduler.SubmittedAtMostOnce | src-tauri/src/agent_access.rs:1544-1673 | under every interleaving of locked sections an execution is sent to the engine at most once |
| Scheduler.TurnsAreFair | src-tauri/src/agent_access.rs:1560-1599 | while a profile waits, no other is picked twice before it, even as profiles come and go |
| Scheduler.NoneTwiceBeforeTheWaiting | src-tauri/src/agent_access.rs:1560-1599 | the same for any chain of passes |
| Scheduler.ClaimsTheEarliest | src-tauri/src/agent_access.rs:1586-1600 | within the profile picked, no schedulable query was admitted earlier |
| Scheduler.IdleEngineTakesWaitingQuery | src-tauri/src/agent_access.rs:1545-1600 | an idle engine never leaves a schedulable query unpicked |
| Scheduler.OverlappingClaimsBothSubmit | src-tauri/src/agent_access.rs:1550-1559 | two claims before any finish put two queries in the engine |
| SchedulerRuns.TwoReachTheEngine | src-tauri/src/agent_access.rs:1544-1656 | a run from empty tables, of nine locked sections, that ends with two queries in the engine |
| Scheduler.SecondClaimIsPossibleIff | src-tauri/src/agent_access.rs:1550-1559 | a second claim succeeds before the first has finished exactly if another query waits |
| Scheduler.OneInFlightWhenOneByOne | src-tauri/src/agent_access.rs:1544-1673 | in every interleaving from empty tables without overlapping claims and without revived entries, two accepted unfinished queries are the same query |
| SchedulerRuns.EndedBeforeAcceptanceBreaksTheCeiling | src-tauri/src/agent_access.rs:1544-1711 | for each of a missed deadline, a cancellation and a disconnection between claim and finish: a run from empty tables, without overlapping claims, that ends with 640 MiB charged to one profile and two queries in the engine |
| SchedulerRuns.EndedAfterAcceptanceBreaksTheCeiling | src-tauri/src/agent_access.rs:1408-1493 | the same for a deadline or a cancellation that ends an accepted query, and for a report that arrives after a later one |
| SchedulerRuns.WithdrawalBreaksTheCeiling | src-tauri/src/agent_access.rs:2939-2981 | the same charge by withdrawing an ended query that has no result |
| SchedulerBudgets.WeightRisesIff | src-tauri/src/agent_access.rs:1675-1711 | in every interleaving and for each budgeted measure, a section other than an admission makes an entry weigh more exactly if it is a report or a withdrawal of the kind described: of a spent entry, of more bytes than charged, or of an ended query as unfinished |
| SchedulerBudgets.ExcessIsBounded | src-tauri/src/agent_access.rs:1197-1286 | in every interleaving each total is above its ceiling by at most 128 MiB, or one entry, for each section that raised it |
| SchedulerBudgets.ChargesStayWithinCeilings | src-tauri/src/agent_access.rs:1197-1227 | in every interleaving in which no section raises a charge, charged bytes are at most 512 MiB per profile and 1024 MiB overall |
| SchedulerBudgets.EntriesStayBounded | src-tauri/src/agent_access.rs:1206-1286 | in every interleaving without entries made unfinished again at most 16 queries are unfinished, 8 per profile; without spent entries made live again at most 31 + 15 + 16 entries are live |
| SchedulerChecks.CheckedRunsStayWithinBudgets | src-tauri/src/agent_access.rs:1197-1286 | beside an engine that moves freely, all these bounds hold in every interleaving whose sections test claim and acceptance before ending a query, report where the execution is, and withdraw recorded results |
| SchedulerChecks.CheckedSerialRunsKeepOneInFlight | src-tauri/src/agent_access.rs:1544-1656 | if also no claims overlap, two accepted unfinished queries are the same query |
| Approvals.ApprovalsAreOneUse | src-tauri/src/agent_access.rs:2237-2280 | used at most once, by its proposer, after a decision while pending, within 120 seconds |
| Approvals.RanksOnlyRise | src-tauri/src/agent_access.rs:2670-2700 | no approval returns to Pending or Approved, over every course of events |
| Approvals.ActNeverGoesBack | src-tauri/src/agent_access.rs:2670-2700 | and it becomes Approved only by a decision on it while Pending |
| Approvals.ActKeepsLedger | src-tauri/src/agent_access.rs:2147-2937 | every event keeps each approval in step with its recorded life |
| Approvals.ApprovalBook.Prune | src-tauri/src/agent_access.rs:3450-3468 | unused approvals past their time expire |
| Approvals.ApprovalBook.ProposeApproval | src-tauri/src/agent_access.rs:2147-2216 | a pending approval is added if there is room, as a critical one if need be |
| Approvals.ApprovalBook.DecideApproval | src-tauri/src/agent_access.rs:2670-2700 | decided, refused for its phrase, or expired if no longer pending |
| Approvals.ApprovalBook.ConsumeApproval | src-tauri/src/agent_access.rs:1142-1175 | an approved one in time, of the caller and kind, is used; the claim says why not otherwise |
| Approvals.CancelledApprovalIsNeverUsed | src-tauri/src/agent_access.rs:1124-1140 | once an export's approval is cancelled, no later course of events decides it or uses it up |
| Approvals.WithdrawnApprovalIsNeverUsed | src-tauri/src/agent_access.rs:2857-2920 | the same of the approvals withdrawn with a connection, a client, the switch or a project |
| ApprovalEffects.DecisionsShow | src-tauri/src/agent_access.rs:2670-2700 | over every course, a decision on a pending approval less than 120 seconds old approves it if it is to approve and has the phrase asked for, denies it if it is to deny, and else leaves it pending |
| ApprovalEffects.ApprovedIsUsable | src-tauri/src/agent_access.rs:2237-2280 | what was approved in time is used by its proposer's next use in time, whatever happens meanwhile that does not end it |
| ApprovalEffects.FreshApprovalsShowTheirLives | src-tauri/src/agent_access.rs:2147-2280 | while fresh and not withdrawn, failed or decided again, an approval is pending, approved, denied or used exactly as its life says |
| ApprovalEffects.ProposalIsRecorded | src-tauri/src/agent_access.rs:2147-2216 | a proposal begins a pending approval in its proposer's name if fewer than 16 wait, and fewer than 4 of its client |
| ApprovalEffects.DecisionIsRecorded | src-tauri/src/agent_access.rs:2670-2700 | a decision in time counts exactly if it denies or has the phrase asked for |
| ApprovalEffects.UseIsRecorded | src-tauri/src/agent_access.rs:1142-1175 | a use of an approved approval in time counts exactly if it is of what was proposed, by the connection, and for statements the profile, that proposed it |
| ApprovalEffects.LateIsExpired | src-tauri/src/agent_access.rs:3450-3468 | what is pending or approved expires at the first look 120 seconds after its proposal, and not before |
| ApprovalEffects.LateActsExpire | src-tauri/src/agent_access.rs:2670-2700 | a use or a decision after 120 seconds finds the approval expired and adds nothing to its life |
| ApprovalEffects.AnswersSayWhy | src-tauri/src/agent_access.rs:1142-1175 | which answer a decision and a use get, by owner and kind, age and state |
| ApprovalEffects.WithdrawalsDeny | src-tauri/src/agent_access.rs:2857-2920 | a withdrawal denies what waits in its scope, of a project also what is approved, and nothing else |
| ApprovalEffects.PendingApprovalsAreBounded | src-tauri/src/agent_access.rs:2147-2216 | over every course at most 16 approvals are pending, 4 of one client |
| ApprovalEffects.PhraseNamesTheApproval | src-tauri/src/agent_access.rs:2147-2216 | two approvals have the same phrase exactly if the first eight characters of their identifiers agree, ignoring case |
| Approvals.ApprovalBook.WithdrawPending | src-tauri/src/agent_access.rs:2857-2920 | exactly the approvals in scope are denied: the pending ones, and of a project the approved ones too |
| GuardedExports.ReachesCoordinatorAtMostOnce | src-tauri/src/agent_exports.rs:352-431 | over every history, an export reaches the coordinator at most once |
| GuardedExports.ReachesCoordinatorUnchanged | src-tauri/src/agent_exports.rs:352-431 | and only with the destination revision, decision and overwrite policy it was proposed under |
| GuardedExports.StartsOnlyWhenApproved | src-tauri/src/agent_exports.rs:433-472 | a non-delegated one only after its own approval was approved and used |
| GuardedExports.WithdrawnNeverStarts | src-tauri/src/agent_exports.rs:249-288 | one cancelled or cleaned up while awaiting approval never starts |
| GuardedExports.AuditedAtMostOnce | src-tauri/src/agent_exports.rs:578-646 | an export has at most one audit row |
| GuardedExports.CancelLeavesStartableIff | src-tauri/src/agent_exports.rs:249-288 | after any history, cancelling an export that could still start leaves it able to start exactly if it is delegated and its audit row is stored or was there already |
| GuardedExports.CancelledDelegatedCanStart | src-tauri/src/agent_exports.rs:249-288 | a history of three moves in which an export is audited as failed and then reaches the coordinator |
| ExportPolicy.RulingIsPolicy | src-tauri/src/agent_exports.rs:768-851 | an export is delegated exactly if its format and part size are granted and its folder, readable and of at most 10000 entries, holds no part of its name; it asks exactly if only the grant is missing; it is critical exactly if the scan first meets such a part |
| ExportPolicy.DelegatedStaysInsidePolicy | src-tauri/src/agent_exports.rs:352-431 | over every history, an export that comes to the coordinator without an approval is inside the policy of its destination as it is then |
| ExportPolicy.ReplacingIsConfirmed | src-tauri/src/agent_exports.rs:352-472 | over every history, files are replaced only by an export whose own approval was approved by typing its phrase |
| ExportPolicy.InsidePolicyNobodyIsAsked | src-tauri/src/agent_exports.rs:141-230 | a proposal inside the policy makes a queued, delegated export and no approval |
| ExportPolicy.OutsidePolicyTheUserIsAsked | src-tauri/src/agent_exports.rs:141-230 | any other proposal on a usable folder makes an export that awaits a new pending approval, with a phrase if files would be replaced |
| ExportPolicy.OtherFoldersAreRefused | src-tauri/src/agent_exports.rs:798-851 | on any other folder nothing is proposed |
| ExportPolicy.DelegatedStarts | src-tauri/src/agent_exports.rs:352-431 | a delegated export starts if nothing has changed since its proposal |
| ExportPolicy.ApprovedStarts | src-tauri/src/agent_exports.rs:433-472 | so does one whose approval shows approved, in time, which is then used |
| ExportPolicy.RefusedEnds | src-tauri/src/agent_exports.rs:433-472 | one whose approval was refused or is too old ends as failed, audited, without a start |
| ExportPolicy.AttemptsSayWhy | src-tauri/src/agent_exports.rs:433-472 | which answer an attempt to start gets, by the state of the export and of its own approval, and that only a refusal or a try changes the registry |
| ExportAudits.AuditsAreTrue | src-tauri/src/agent_exports.rs:578-630 | over every history an audit row says delegated exactly if the export was, approved exactly if its own approval was used, and succeeded only if the coordinator reported so with parts that fit |
| ExportAudits.ReportsAreTakenOver | src-tauri/src/agent_exports.rs:530-566 | progress is shown, an end is shown and audited as what it is, parts that do not fit call for recovery, and a lost export has failed |
| ExportAudits.CancellingEnds | src-tauri/src/agent_exports.rs:249-288 | cancelling an export that awaits approval ends it and denies its approval |
| ExportAudits.CleanupEnds | src-tauri/src/agent_exports.rs:686-719 | a cleanup ends what awaits approval in its reach and leaves everything outside it as it is |
| ExportAudits.ReleasingForgets | src-tauri/src/agent_exports.rs:290-317 | only an ended export can be released, and then it is forgotten |
| ExportAudits.ActiveExportsAreBounded | src-tauri/src/agent_exports.rs:323-342 | over every history in which no report takes up an ended export again, at most four exports are active, one of each connection |
| GuardedExports.MoveKeepsGuard | src-tauri/src/agent_exports.rs:141-719 | every move keeps registry, audits, approvals and arrivals consistent |
| ExportRegistry.ExportTable.StartExport | src-tauri/src/agent_exports.rs:352-431 | takes the snapshot once, revalidates, starts, or fails the record |
| ExportRegistry.ExportTable.TryStartApproved | src-tauri/src/agent_exports.rs:433-472 | result, registry and approval book are those of looking the approval up, claiming it and starting, in every case |
| GuardedExports.TryLedgerHoldsBook | src-tauri/src/agent_exports.rs:433-472 | the observed lives of approvals go with the book that the attempt leaves: a look, and a use exactly if the approval is seen approved |
| ExportRegistry.ExportTable.SyncExport | src-tauri/src/agent_exports.rs:530-566 | takes the coordinator's report over and audits an end |
| ExportRegistry.ExportTable.Cancel | src-tauri/src/agent_exports.rs:249-288 | by state: withdraws, asks the coordinator, or audits |
| ExportRegistry.ExportTable.FinishExport | src-tauri/src/agent_exports.rs:578-646 | one audit row, or recovery if it cannot be stored |
| ExportRegistry.ExportTable.FailExport | src-tauri/src/agent_exports.rs:568-576 | a failure before the start is an audited end |
| ExportRegistry.ExportTable.RememberTerminal | src-tauri/src/agent_exports.rs:648-674 | to the back of the order, evicting from the front |
| ExportRegistry.ExportTable.CleanupMatching | src-tauri/src/agent_exports.rs:686-719 | withdraws approvals and ends every export in reach |
| ExportRegistry.ExportTable.ReleaseExport | src-tauri/src/agent_exports.rs:290-317 | an ended export leaves the registry |
| ExportRegistry.RuleOn | src-tauri/src/agent_exports.rs:768-796 | the decision and overwrite policy for an intent, or an error |
| ExportRegistry.RememberKeepsWindow | src-tauri/src/agent_exports.rs:648-674 | at most 256 ends are remembered, the newest stays, only the oldest leaves |
| ExportRegistry.WrittenPartsAreFoundAgain | src-tauri/src/agent_exports.rs:885-940 | a part that a report may show has the path of its record, and while its file is in the folder no later export of that name is ruled harmless: the ruling is refused, or critical and replacing |
| ExportRegistry.WrittenPartsCollide | src-tauri/src/agent_exports.rs:798-851 | in a folder within the limit where every part name is a regular file, meeting one is a collision |
| PartNames.RecogniserAgreesWithPrinter | src-tauri/src/agent_exports.rs:803-836 | a file name is recognised exactly if it is the printed name of a number in 1 to 2^64-1 |
| PartNames.PartNumberIsUnique | crates/engine-protocol/src/lib.rs:557-566 | and that number is unique |
| PartNames.PartNameIsPrinted | crates/engine-protocol/src/lib.rs:557-566 | a part's name is the base name, its number in five digits or as many as it takes, and the extension |
| ExportPolicy.PartsHaveExtensions | crates/engine-protocol/src/lib.rs:557-566 | parts of a format end in its extension |
| PartNames.NamesAreDistinct | crates/engine-protocol/src/lib.rs:557-566 | with one extension, equal names have equal base and number, past five digits too |
| PartNames.HasCanonicalCollision | src-tauri/src/agent_exports.rs:798-851 | the scan of a folder, with its limit and its error cases |
| PartNames.ScanReportsFirstStop | src-tauri/src/agent_exports.rs:798-851 | the scan reports the first entry that stops it, and is clear if there is none |
| PartNames.ClearMeansNothingToReplace | src-tauri/src/agent_exports.rs:798-851 | after a clear scan of a folder, no part that could be written exists in it |
| CatalogRevision.ComputeRevision | crates/engine-protocol/src/lib.rs:762-787 | the nested loops compute the printed fold of the byte stream |
| CatalogRevision.XorComparesBits | crates/engine-protocol/src/lib.rs:768 | a bit of the exclusive-or is set exactly if the bits of its arguments differ |
| CatalogRevision.XorWithZero | crates/engine-protocol/src/lib.rs:768 | exclusive-or with zero changes nothing |
| CatalogRevision.XorWithItself | crates/engine-protocol/src/lib.rs:768 | exclusive-or with itself is zero |
| CatalogRevision.HashOfA | crates/engine-protocol/src/lib.rs:763-770 | the hash of the one-byte text "a" is the published one |
| CatalogRevision.StreamOfOne | crates/engine-protocol/src/lib.rs:772-785 | the fields of an object and of a column in their order, each ended by a zero byte |
| CatalogRevision.RevisionIsTheHash | crates/engine-protocol/src/lib.rs:786 | a revision has sixteen digits, which read in base sixteen are the hash of the stream |
| CatalogRevision.OneByteChangesTheRevision | crates/engine-protocol/src/lib.rs:762-787 | streams of equal length that differ in one byte have different revisions |
| CatalogRevision.NullabilityChangesTheRevision | crates/engine-protocol/src/lib.rs:778-785 | changing one column's nullability always changes the revision |
| CatalogRevision.MixIsInjective | crates/engine-protocol/src/lib.rs:767-770 | one round is injective in the hash and in the byte |
| CatalogRevision.PrimeIsInvertible | crates/engine-protocol/src/lib.rs:769 | multiplication by the prime is injective modulo 2^64 |
| CatalogRevision.StreamDeterminesCatalog | crates/engine-protocol/src/lib.rs:762-787 | for given counts and names without NUL, the stream determines the catalog |
| CatalogRevision.ShapesCollideIff | crates/engine-protocol/src/lib.rs:772-785 | catalogs of m objects and n columns and of m' and n' can have equal streams exactly if the shapes differ and 4m+6n = 4m'+6n' |
| CatalogRevision.ListedCatalogsCanCollide | crates/engine-protocol/src/lib.rs:772-785 | two such catalogs in which every column belongs to a listed object |
| CatalogRevision.CollisionPutsFlagForKind | crates/engine-protocol/src/lib.rs:772-785 | in every collision an object's kind is the flag "0" or "1" of a column |
| CatalogRevision.EngineCatalogsNeverCollide | engines/duckdb/src/catalog.rs:6-51 | no two catalogs of tables and views, of whatever shapes, have equal streams |
| Framing.Reader.ReadFrame | src-tauri/src/agent_bridge.rs:388-451 | the next frame is the next line of all bytes ahead, however they arrive; the buffer stays within the limit plus one byte |
| Framing.Reader.HandleConnection | src-tauri/src/agent_bridge.rs:333-385 | serves what the bytes alone determine, or a beginning of it when stopped |
| Framing.ServedAlike | src-tauri/src/agent_bridge.rs:388-451 | two chunkings of the same bytes serve the same frames and end alike |
| Framing.SentIsServed | src-tauri/src/agent_bridge.rs:333-385 | messages sent as lines, ended by a newline with a carriage return or without, are served back as sent |
| Framing.FailsExactlyOnOverlongLines | src-tauri/src/agent_bridge.rs:333-338 | a connection fails exactly if some line has no newline in its first mebibyte and goes on |
| SqlText.QuotedIsScannedBack | src-tauri/src/quality.rs:1090-1096 | scanning a quoted identifier and what follows gives the trimmed identifier and what follows |
| SqlText.LiteralIsScannedBack | src-tauri/src/quality.rs:1098-1106 | string literals likewise, untrimmed |
| SqlText.LiteralsAreReadBack | src-tauri/src/quality.rs:1098-1106 | exactly scalars have a literal, and read back it stands for the scalar: words, numbers by their digits, texts by scanning |
| SqlText.NumbersAreRead | src-tauri/src/quality.rs:1102 | the reading of numbers that this rests on is that of base ten, with fractions and exponents |
| SqlText.NamesAgreeIff | src-tauri/src/metadata/quality.rs:867-879 | names are compared as equal exactly if, trimmed, they agree up to the case of ASCII letters |
| SqlText.QualifiedIsInjective | src-tauri/src/quality.rs:1072-1079 | equal three-part names have equal trimmed parts |
| SqlText.TrimTrims | src-tauri/src/quality.rs:1091 | trimming leaves no white space at either end and changes nothing else without any |
| QualityCompiler.CompilesIffCompilable | src-tauri/src/quality.rs:878-1062 | a definition compiles exactly if its names are not blank, its column is there and its literals are scalars |
| QualityCompiler.NamesAreReadBack | src-tauri/src/quality.rs:1072-1079 | a target's printed name is an error exactly if a part is blank, and otherwise scans back to the name in the syntax tree |
| QualityResults.CompiledForm | src-tauri/src/metadata/quality.rs:600-694 | what each validated kind compiles to, with trimmed names |
| QualityResults.PreviewIsTheFailingRows | src-tauri/src/quality.rs:878-1062 | the preview returns exactly the bag of failing rows, for every kind but hand-written ones, table and null policy |
| QualityResults.OutcomeIsTheNumberOfFailingRows | src-tauri/src/quality.rs:641-673 | the count is the size of the preview, and the run passes exactly if no row fails |
| QualityResults.FreshnessCountAndPreviewAgree | src-tauri/src/quality.rs:1019-1043 | the preview is non-empty iff the count is 1, the count is NULL iff no value is non-null, and then the run ends in error |
| QualityResults.NotEmptyIsDecided | src-tauri/src/quality.rs:884-890 | a run passes iff the table has a row; the preview is always empty |
| QualityResults.CustomCountsItsRows | src-tauri/src/quality.rs:1044-1053 | the count is the number of rows of the hand-written query, if its statement is closed in itself, ends outside line comments and has no semicolon |
| QualityResults.CustomIsCountedIff | src-tauri/src/quality.rs:1044-1053 | as the engine's splitter reads quotes and comments: of a statement closed in itself, the count query holds it as one statement exactly under that condition, and is otherwise no single statement or leaves a parenthesis open |
| QualityResults.NotEveryStoredStatementIsCounted | src-tauri/src/metadata/quality.rs:697-701 | two statements that may be stored and are not counted: one ends twice, one ends in a comment |
| SqlStatements.SplitStatements | engines/duckdb/src/sql.rs:6-82 | the splitting loop, with its loops over quotes and nested comments, computes the statements that a character-by-character reader finds |
| SqlStatements.SemicolonsSplit | engines/duckdb/src/sql.rs:55-75 | a semicolon between two plain texts with content makes them two statements, trimmed |
| SqlStatements.TextsAreOneStatement | engines/duckdb/src/sql.rs:15-30 | whatever a text literal holds, it stays one statement |
| SqlStatements.LineCommentsAreNoStatement | engines/duckdb/src/sql.rs:31-39 | whatever follows two dashes on a line is no statement |
| SqlStatements.TextsAndCommentsAreStoredAsOne | src-tauri/src/metadata/quality.rs:747-790 | the check made when a definition is stored takes a text literal, and also a comment, for one statement |
| SqlStatements.StoredSemicolonsSplit | src-tauri/src/metadata/quality.rs:747-790 | and two plain texts around a semicolon for as many statements as have content |
| SqlStatements.HeldIff | src-tauri/src/quality.rs:1044-1053 | between the count query's parentheses a text stays one statement, enclosed by them, exactly if it is closed in itself, ends outside line comments and has no semicolon |
| SqlStatements.RefusedUnlessHeld | engines/duckdb/src/sql.rs:93-97 | of a statement closed in itself, a count query that does not hold it is not one statement or leaves its parenthesis open |
| QualityResults.NullAmongAcceptedIsBlind | src-tauri/src/quality.rs:934-941 | with a NULL in the list NOT IN is never true; only the null policy remains |
| QualityResults.RelationshipNeedsAClearMarker | src-tauri/src/quality.rs:985-1005 | right for all tables iff no parent key column has the marker's name, ignoring case, when that name means the marker |
| QualityResults.StatementKeepsATerminator | src-tauri/src/quality.rs:1044-1053 | the statement keeps a semicolon iff the text ends in one, white space and semicolons again |
| QualityChecks.UniqueSelects | src-tauri/src/quality.rs:892-933 | the grouped EXISTS condition holds of a row iff its key has a null and nulls fail, or occurs more than once in the bag |
| QualityChecks.DuplicateHolds | src-tauri/src/quality.rs:911-921 | a key without nulls has a null-safe equal group iff it occurs more than once |
| QualityChecks.AcceptedSelects | src-tauri/src/quality.rs:934-941 | under three-valued logic the condition selects the values outside the list and the nulls the policy fails |
| QualityChecks.RangeSelects | src-tauri/src/quality.rs:943-966 | likewise for intervals with each end inclusive or not |
| QualityChecks.NullPredicateHolds | src-tauri/src/quality.rs:1064-1070 | the null policy decides on nulls and the failure condition on everything else |
| QualityRelationships.RelationshipIsRight | src-tauri/src/quality.rs:967-1018 | the preview is the bag of child rows without a parent of equal key, or with a null key if nulls fail |
| QualityRelationships.JoinIsOneToOne | src-tauri/src/quality.rs:1006 | with at most one partner each, the left join has each child row exactly once |
| QualityRelationships.PartnerHasKey | src-tauri/src/quality.rs:985-1003 | a child row's only partner is the distinct parent key equal to its own, whatever the parent's duplicates |
| QualityRelationships.ParentRowsAreKeys | src-tauri/src/quality.rs:983-987 | the projection has exactly the parent's keys, and a null marker only beside a null key |
| QualityRelationships.AmbiguousMarkerMisreports | src-tauri/src/quality.rs:985-1005 | a concrete table on which an ambiguous marker reports a row that has its parent |
| QualityFreshness.CountIsThreeWay | src-tauri/src/quality.rs:1019-1035 | NULL without a value, 1 if all values are old or a null fails, 0 otherwise |
| QualityFreshness.FreshnessIsRight | src-tauri/src/quality.rs:1036-1041 | the preview is the bag of null and old rows of a stale table, and empty otherwise |
| QualityRuns.QualityCoordinator.Submit | src-tauri/src/quality.rs:308-389 | a fresh record, ended at once if the check was refused |
| QualityRuns.QualityCoordinator.Mark | src-tauri/src/quality.rs:675-731 | closes a record once, stores its row, remembers it, or shows that it could not be stored |
| QualityRuns.QualityCoordinator.RememberRun | src-tauri/src/quality.rs:733-759 | to the back of the order; whatever falls out of the window leaves the registry if it has ended |
| QualityRuns.QualityCoordinator.PollUntilTerminal | src-tauri/src/quality.rs:571-673 | the loop folds the engine's answers up to the first that ends the run |
| QualityHistory.HistoryIsExactlyOnce | src-tauri/src/quality.rs:571-731 | at most one row per run, saying what the run's answers called for, and the tracked record agrees |
| QualityHistory.ShownEndsAreStored | src-tauri/src/quality.rs:675-731 | an end on show is stored, being stored, or an error that says it could not be |
| QualityHistory.NewestEndsStayTracked | src-tauri/src/quality.rs:733-759 | exactly the 256 most recently remembered ends are tracked; runs not stored are never evicted |
| QualityHistory.ProgressIsShown | src-tauri/src/quality.rs:571-639 | a run that is being polled shows the progress and the duration reported last, and nothing of an end |
| QualityHistory.RowsNameTheirChecks | src-tauri/src/quality.rs:308-389 | every stored row is of the project, check and revision that were submitted under its run |
| QualityHistory.EndsAreFinalUnlessUnstored | src-tauri/src/quality.rs:675-731 | one step changes a closed record only by a failed write |
| QualityHistory.EndsChangeAtMostOnce | src-tauri/src/quality.rs:675-731 | over the rest of any run an end on show changes at most once, while its row is being written, to say that it was lost; stored and lost ends never change |
| QualityHistory.PollerLoopIsARun | src-tauri/src/quality.rs:571-639 | the poller's loop is one of the interleavings and stops exactly when a verdict is due |
| QualityHistory.StepKeepsInv | src-tauri/src/quality.rs:308-759 | every step of every run keeps records, rows and registry in agreement |

## Left out

- `AgentRuns.StepKeepsInv`: the steps do not include the mass invalidation of queries (src-tauri/src/agent_access.rs:2976-2981), the revocation of a client or switching access off: invalidation marks entries that had failed for cleanup, which raises their charge from nothing, and revocation leaves snapshots reserved. Their effect on approvals is in `Approvals`.
- `AgentAccess.AccessTables.StartQuery`: the catalog recheck, the grant check and the read-only classification at submission are one oracle answer; the SQL text, the row counts and the other fields that only views show are not modelled.
- `AgentMaintenance.ExpiredResultsAreWithdrawn`: the pass counts its waits from the time it began; the code reads the clock again for each failed release.
- `AgentMaintenance.WithdrawnResultsAreTriedAgain`: of more than sixteen results that are due, the pass tries the first sixteen in the table's iteration order.
- `ExportAudits.ActiveExportsAreBounded`: a report of progress on an export that had ended makes it active again without asking for room; the bound is for histories without such reports.
- `Scheduler.SubmittedAtMostOnce`: locks and threads are atomic sections; a thread that cannot be started is not modelled.
- `SchedulerChecks.CheckedRunsStayWithinBudgets`: the tests it asks for are not in the code; whether an unchecked run exceeds a ceiling depends on the sections that follow.
- `GuardedExports.AuditedAtMostOnce`: final export states are not claimed to be stable; a later report can replace one that calls for recovery.
- `Framing.Reader.ReadFrame`: only the reader that carries its buffer over; the Unix reader (src-tauri/src/agent_bridge.rs:301-321) rebuilds its buffer after a timeout.
- `CatalogRevision.ComputeRevision`: strings are sequences of bytes; row counts and column positions are not hashed by the code either.
- `QualityResults.PreviewIsTheFailingRows`: queries are syntax trees, not text; keywords, spacing and operator precedence of the printed SQL are not modelled. A text literal denotes one value given from outside, in the type of the column it is compared with. Ordering of rows is not promised.
- `QualityResults.CustomCountsItsRows`: what a statement closed in itself returns is a table given from outside, and so is whether the engine can prepare it; the first word of a statement and its forbidden words are not modelled. Parentheses are the only nesting; dollar-quoted strings are not special, as in the engine's splitter.
- `QualityResults.CustomIsCountedIff`: DuckDB's own parser has the last word (engines/duckdb/src/main.rs:343-350) and is not modelled: `SELECT $$ -- $$ AS x` ends in a comment for the splitter, while DuckDB takes it by itself and inside the count query.
- `GuardedExports.ReachesCoordinatorAtMostOnce`: a start is one step; the code drops the registry's lock between taking the snapshot and recording the coordinator's identifier (src-tauri/src/agent_exports.rs:352-431), and a failure before the start (lines 568-576), which takes no start lane, could fall in between.
- `QualityRuns.QualityCoordinator.Mark`: the history store takes a row or fails, as an answer given from outside; its own protection against a repeated identifier is not needed by the proofs and not modelled. Error messages are codes only.
- `QualityRuns.QualityCoordinator.PollUntilTerminal`: the decoding of the result page is one optional number.
- Approvals for SQL and exports take even reserved snapshots; what the engine then does with the statement is not modelled.
- Pairing, authentication and its proofs, heartbeats' key checks, cursors and size budgets of responses.
- Cryptography, random identifiers and serialization: identifiers are fresh, hashes other than the catalog revision are not modelled.
- The engine, DuckDB, the export coordinator and the metadata repositories: their answers are parameters.
- Failure previews of quality runs, profiles, saved queries, the desktop's lists, file-system setup, the process manager, the TypeScript user interface and the benchmark scripts: little state, or easy members only.
