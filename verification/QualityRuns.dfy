/** Quality-check runs: how the engine's answers become an outcome, and how an outcome
    becomes one row of history. A run's poller, the history store and the registry of
    tracked runs interleave with those of every other run. */
module QualityRuns {
  import opened Basics

  const MAX_POLL_FAILURES: nat := 3
  const MAX_TERMINAL_EXECUTIONS: nat := 256

  datatype RunState = Queued | Running | Passed | Failed | Error | Cancelled

  datatype Outcome = Pass | Fail | Mistake | Stopped

  datatype RunRecord = RunRecord(
    project: Id,
    check: Id,
    revision: Id,
    state: RunState,
    failureCount: Option<nat>,
    durationMs: nat,
    error: Option<string>,
    historyWritten: bool)

  /** One row of run history. */
  datatype Row = Row(
    run: Id,
    project: Id,
    check: Id,
    revision: Id,
    outcome: Outcome,
    failureCount: Option<nat>,
    durationMs: nat,
    errorCode: Option<string>)

  datatype Book = Book(executions: map<Id, RunRecord>, terminalOrder: seq<Id>, history: seq<Row>)

  /** What one status request to the engine can come back with; a success brings the
      first cell of the result's first row, if that is a non-negative number. */
  datatype Answer =
    | StillQueued(ms: nat)
    | StillRunning(ms: nat)
    | Succeeded(ms: nat, count: Option<nat>)
    | EngineFailed(code: Option<string>)
    | EngineCancelled
    | Forgotten
    | Unreachable

  /** How a run ends. */
  datatype End = End(state: RunState, count: Option<nat>, error: Option<string>)

  predicate Active(s: RunState) {
    s.Queued? || s.Running?
  }

  function OutcomeOf(s: RunState): Option<Outcome> {
    match s
    case Passed => Some(Pass)
    case Failed => Some(Fail)
    case Error => Some(Mistake)
    case Cancelled => Some(Stopped)
    case _ => None
  }

  // ---------------------------------------------------------------------
  // The sections of mark_terminal and remember_terminal.
  // ---------------------------------------------------------------------

  function FreshRecord(project: Id, check: Id, revision: Id): RunRecord {
    RunRecord(project, check, revision, RunState.Queued, None, 0, None, false)
  }

  function Insert(b: Book, id: Id, project: Id, check: Id, revision: Id): Book {
    b.(executions := b.executions[id := FreshRecord(project, check, revision)])
  }

  function RowOf(id: Id, r: RunRecord, outcome: Outcome): Row {
    Row(id, r.project, r.check, r.revision, outcome, r.failureCount,
        if r.durationMs == 0 then 1 else r.durationMs, r.error)
  }

  function Ended(r: RunRecord, end: End): RunRecord {
    r.(state := end.state, failureCount := end.count, error := end.error, historyWritten := true)
  }

  /** Under the registry lock: the record takes its end, once, and yields the row to store. */
  function Close(b: Book, id: Id, end: End): (Book, Option<Row>) {
    if id !in b.executions || b.executions[id].historyWritten then (b, None)
    else
      var r := Ended(b.executions[id], end);
      (b.(executions := b.executions[id := r]),
       if OutcomeOf(end.state).None? then None else Some(RowOf(id, r, OutcomeOf(end.state).value)))
  }

  function Unstored(r: RunRecord): RunRecord {
    r.(state := RunState.Error, historyWritten := false, error := Some("quality.history"))
  }

  /** The store takes the row, or fails and the record says so. */
  function Store(b: Book, row: Row, ok: bool): Book {
    if ok then b.(history := b.history + [row])
    else if row.run !in b.executions then b
    else b.(executions := b.executions[row.run := Unstored(b.executions[row.run])])
  }

  function Excess(order: seq<Id>): nat {
    if |order| > MAX_TERMINAL_EXECUTIONS then |order| - MAX_TERMINAL_EXECUTIONS else 0
  }

  function Evictable(b: Book, stale: seq<Id>): set<Id> {
    set i | i in stale && i in b.executions && !Active(b.executions[i].state)
  }

  function Remember(b: Book, id: Id): Book {
    var order := Without(b.terminalOrder, id) + [id];
    b.(terminalOrder := order[Excess(order)..],
       executions := b.executions - Evictable(b, order[..Excess(order)]))
  }

  function MarkTerminal(b: Book, id: Id, end: End, ok: bool): Book {
    var (closed, row) := Close(b, id, end);
    if row.None? then closed
    else if ok then Remember(Store(closed, row.value, ok), id)
    else Store(closed, row.value, ok)
  }

  // ---------------------------------------------------------------------
  // The poller.
  // ---------------------------------------------------------------------

  function EndOfCount(count: Option<nat>): End {
    match count
    case Some(n) => End(if n == 0 then Passed else RunState.Failed, Some(n), None)
    case None => End(RunState.Error, None, Some("quality.count_decode"))
  }

  const OUTAGE := End(RunState.Error, None, Some("engine.unreachable"))

  /** The end one answer brings, after `failures` failed requests in a row. */
  function EndOfAnswer(a: Answer, failures: nat): Option<End> {
    match a
    case StillQueued(_) => None
    case StillRunning(_) => None
    case Succeeded(_, count) => Some(EndOfCount(count))
    case EngineFailed(code) => Some(End(RunState.Error, None, code))
    case EngineCancelled => Some(End(RunState.Cancelled, None, None))
    case Forgotten => Some(End(RunState.Error, None, Some("quality.lost")))
    case Unreachable => if failures + 1 >= MAX_POLL_FAILURES then Some(OUTAGE) else None
  }

  function Count(a: Answer, failures: nat): nat {
    if a.Unreachable? then failures + 1 else 0
  }

  function Shown(r: RunRecord, a: Answer): RunRecord {
    match a
    case StillQueued(ms) => r.(state := RunState.Queued, durationMs := ms)
    case StillRunning(ms) => r.(state := RunState.Running, durationMs := ms)
    case Succeeded(ms, _) => r.(durationMs := ms)
    case _ => r
  }

  /** What the tracked record shows of an answer, before any end. */
  function Observe(b: Book, id: Id, a: Answer): Book {
    if id in b.executions then b.(executions := b.executions[id := Shown(b.executions[id], a)]) else b
  }

  datatype Polled = Polled(book: Book, failures: nat, done: bool)

  function Poll(b: Book, id: Id, a: Answer, failures: nat, ok: bool): Polled {
    var seen := Observe(b, id, a);
    var end := EndOfAnswer(a, failures);
    if end.None? then Polled(seen, Count(a, failures), false)
    else Polled(MarkTerminal(seen, id, end.value, ok), Count(a, failures), true)
  }

  /** The poller over a sequence of answers: it stops at the first end. */
  function PollAll(b: Book, id: Id, answers: seq<Answer>, ok: bool): Polled {
    if answers == [] then Polled(b, 0, false)
    else
      var p := PollAll(b, id, answers[..|answers| - 1], ok);
      if p.done then p else Poll(p.book, id, answers[|answers| - 1], p.failures, ok)
  }

  // ---------------------------------------------------------------------
  // The registry, updated in place.
  // ---------------------------------------------------------------------

  class QualityCoordinator {
    var executions: map<Id, RunRecord>
    var terminalOrder: seq<Id>
    /** The history store behind the coordinator. */
    var history: seq<Row>

    function State(): Book
      reads this
    {
      Book(executions, terminalOrder, history)
    }

    constructor ()
      ensures State() == Book(map[], [], [])
    {
      executions, terminalOrder, history := map[], [], [];
    }

    method Submit(id: Id, project: Id, check: Id, revision: Id, refusal: Option<string>, ok: bool)
      modifies this
      ensures var queued := Insert(old(State()), id, project, check, revision);
              State() == if refusal.None? then queued
                         else MarkTerminal(queued, id, End(RunState.Error, None, refusal), ok)
    {
      executions := executions[id := FreshRecord(project, check, revision)];
      if refusal.Some? { Mark(id, End(RunState.Error, None, refusal), ok); }
    }

    method Mark(id: Id, end: End, ok: bool)
      modifies this
      ensures State() == MarkTerminal(old(State()), id, end, ok)
    {
      if id !in executions || executions[id].historyWritten { return; }
      var r := Ended(executions[id], end);
      executions := executions[id := r];
      if OutcomeOf(end.state).None? { return; }
      var row := RowOf(id, r, OutcomeOf(end.state).value);
      if !ok {
        executions := executions[id := Unstored(executions[id])];
        return;
      }
      history := history + [row];
      RememberRun(id);
    }

    method RememberRun(id: Id)
      modifies this`executions, this`terminalOrder
      ensures State() == Remember(old(State()), id)
    {
      hide Without;
      var kept := Retained(terminalOrder, id);
      var order := kept + [id];
      var excess := Excess(order);
      var stale := order[..excess];
      terminalOrder := order[excess..];
      for i := 0 to |stale|
        invariant executions == old(executions) - Evictable(old(State()), stale[..i])
        invariant terminalOrder == order[excess..]
      {
        assert stale[..i + 1] == stale[..i] + [stale[i]];
        if stale[i] in executions && !Active(executions[stale[i]].state) {
          executions := executions - {stale[i]};
        }
      }
      assert stale[..|stale|] == stale;
    }

    method PollUntilTerminal(id: Id, answers: seq<Answer>, ok: bool) returns (done: bool)
      modifies this
      ensures var p := PollAll(old(State()), id, answers, ok);
              State() == p.book && done == p.done
    {
      var failures := 0;
      for i := 0 to |answers|
        invariant PollAll(old(State()), id, answers[..i], ok) == Polled(State(), failures, false)
      {
        assert answers[..i + 1][..i] == answers[..i];
        if id in executions { executions := executions[id := Shown(executions[id], answers[i])]; }
        var end := EndOfAnswer(answers[i], failures);
        failures := Count(answers[i], failures);
        if end.Some? {
          Mark(id, end.value, ok);
          PollingStops(old(State()), id, answers, i + 1, ok);
          return true;
        }
      }
      assert answers[..|answers|] == answers;
      return false;
    }
  }

  /** Once the poller has stopped, further answers are never asked for. */
  lemma {:induction false} PollingStops(b: Book, id: Id, answers: seq<Answer>, n: nat, ok: bool)
    requires n <= |answers| && PollAll(b, id, answers[..n], ok).done
    ensures PollAll(b, id, answers, ok) == PollAll(b, id, answers[..n], ok)
  {
    if n == |answers| {
      assert answers[..n] == answers;
    } else {
      var init := answers[..|answers| - 1];
      assert init[..n] == answers[..n];
      PollingStops(b, id, init, n, ok);
    }
  }
}
