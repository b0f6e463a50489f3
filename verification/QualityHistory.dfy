/** Exactly-once history over whole runs of the coordinator: every run's poller, its
    write to the store and its entry in the registry interleave freely with those of
    all the other runs. */
module QualityHistory {
  import opened Basics
  import opened QualityRuns

  /** Where a run's own thread of control stands. */
  datatype Phase =
    | Submitting
    | Polling(failures: nat)
    | Writing(row: Row)
    | Remembering
    | Kept
    | Lost

  /** A run, with what the engine has told its poller so far, or why it was refused. */
  datatype Life = Life(phase: Phase, heard: seq<Answer>, refusal: Option<string>)

  /** `remembered` lists the runs with a stored end in the order they were remembered. */
  datatype World = World(book: Book, lives: map<Id, Life>, remembered: seq<Id>)

  datatype Step =
    | Submits(id: Id, project: Id, check: Id, revision: Id)
    | Refuses(id: Id, code: string)
    | Accepts(id: Id)
    | Hears(id: Id, answer: Answer)
    | Stores(id: Id, ok: bool)
    | Remembers(id: Id)

  /** Run ids are fresh; every other step belongs to a run that has reached it. */
  predicate Enabled(w: World, s: Step) {
    match s
    case Submits(id, _, _, _) => id !in w.lives
    case Refuses(id, _) => id in w.lives && w.lives[id].phase.Submitting?
    case Accepts(id) => id in w.lives && w.lives[id].phase.Submitting?
    case Hears(id, _) => id in w.lives && w.lives[id].phase.Polling?
    case Stores(id, _) => id in w.lives && w.lives[id].phase.Writing?
    case Remembers(id) => id in w.lives && w.lives[id].phase.Remembering?
  }

  function SetPhase(w: World, id: Id, b: Book, l: Life): World {
    w.(book := b, lives := w.lives[id := l])
  }

  /** The first section of an end: the record is closed and a row waits to be stored. */
  function Shut(w: World, id: Id, b: Book, l: Life, end: End): World {
    var (closed, row) := Close(b, id, end);
    SetPhase(w, id, closed, l.(phase := if row.None? then Lost else Writing(row.value)))
  }

  function Apply(w: World, s: Step): World
    requires Enabled(w, s)
  {
    match s
    case Submits(id, project, check, revision) =>
      SetPhase(w, id, Insert(w.book, id, project, check, revision), Life(Submitting, [], None))
    case Refuses(id, code) =>
      Shut(w, id, w.book, w.lives[id].(refusal := Some(code)), End(RunState.Error, None, Some(code)))
    case Accepts(id) => SetPhase(w, id, w.book, w.lives[id].(phase := Polling(0)))
    case Hears(id, a) =>
      var l := w.lives[id];
      var l' := l.(heard := l.heard + [a], phase := Polling(Count(a, l.phase.failures)));
      var seen := Observe(w.book, id, a);
      var end := EndOfAnswer(a, l.phase.failures);
      if end.None? then SetPhase(w, id, seen, l') else Shut(w, id, seen, l', end.value)
    case Stores(id, ok) =>
      SetPhase(w, id, Store(w.book, w.lives[id].phase.row, ok),
               w.lives[id].(phase := if ok then Remembering else Lost))
    case Remembers(id) =>
      SetPhase(w, id, Remember(w.book, id), w.lives[id].(phase := Kept)).(remembered := w.remembered + [id])
  }

  /** The world after a sequence of steps, if each was possible when it was taken. */
  function Run(w: World, steps: seq<Step>): Option<World> {
    if steps == [] then Some(w)
    else
      var before := Run(w, steps[..|steps| - 1]);
      var s := steps[|steps| - 1];
      if before.None? || !Enabled(before.value, s) then None else Some(Apply(before.value, s))
  }

  const EMPTY := World(Book(map[], [], []), map[], [])

  // ---------------------------------------------------------------------
  // What an outcome must be, from the engine's answers alone.
  // ---------------------------------------------------------------------

  predicate Outage(heard: seq<Answer>) {
    && |heard| >= 3
    && heard[|heard| - 1].Unreachable? && heard[|heard| - 2].Unreachable? && heard[|heard| - 3].Unreachable?
  }

  /** The end that a run's answers call for when the last of them has just come in: what
      that answer says, or an outage of three failed requests in a row. */
  function Verdict(heard: seq<Answer>): Option<End> {
    if heard == [] then None
    else match heard[|heard| - 1]
      case Succeeded(_, None) => Some(End(RunState.Error, None, Some("quality.count_decode")))
      case Succeeded(_, Some(n)) => Some(End(if n == 0 then Passed else RunState.Failed, Some(n), None))
      case EngineFailed(code) => Some(End(RunState.Error, None, code))
      case EngineCancelled => Some(End(RunState.Cancelled, None, None))
      case Forgotten => Some(End(RunState.Error, None, Some("quality.lost")))
      case _ => if Outage(heard) then Some(OUTAGE) else None
  }

  predicate Undecided(heard: seq<Answer>) {
    forall n :: 0 <= n <= |heard| ==> Verdict(heard[..n]).None?
  }

  /** The last duration the engine reported. */
  function LastMs(heard: seq<Answer>): nat {
    if heard == [] then 0
    else match heard[|heard| - 1]
      case StillQueued(ms) => ms
      case StillRunning(ms) => ms
      case Succeeded(ms, _) => ms
      case _ => LastMs(heard[..|heard| - 1])
  }

  /** The progress the engine reported last. */
  function LastProgress(heard: seq<Answer>): RunState {
    if heard == [] then RunState.Queued
    else match heard[|heard| - 1]
      case StillQueued(_) => RunState.Queued
      case StillRunning(_) => RunState.Running
      case _ => LastProgress(heard[..|heard| - 1])
  }

  function TrailingFailures(heard: seq<Answer>): nat {
    if heard == [] || !heard[|heard| - 1].Unreachable? then 0
    else 1 + TrailingFailures(heard[..|heard| - 1])
  }

  /** A run's due end: its refusal, or the verdict of its answers. */
  function Due(l: Life): Option<End> {
    if l.refusal.Some? then Some(End(RunState.Error, None, l.refusal)) else Verdict(l.heard)
  }

  /** The row says what the engine's answers called for, no sooner and no later. */
  predicate RowIsDue(row: Row, l: Life) {
    && Due(l).Some?
    && (l.refusal.Some? ==> l.heard == [])
    && (forall n :: 0 <= n < |l.heard| ==> Verdict(l.heard[..n]).None?)
    && Some(row.outcome) == OutcomeOf(Due(l).value.state)
    && row.failureCount == Due(l).value.count
    && row.errorCode == Due(l).value.error
    && row.durationMs == if LastMs(l.heard) == 0 then 1 else LastMs(l.heard)
  }

  /** The tracked record shows the stored end. */
  predicate Agrees(r: RunRecord, row: Row) {
    && r.historyWritten
    && OutcomeOf(r.state) == Some(row.outcome)
    && r.failureCount == row.failureCount
    && r.error == row.errorCode
    && row.project == r.project && row.check == r.check && row.revision == r.revision
  }

  // ---------------------------------------------------------------------
  // The invariant.
  // ---------------------------------------------------------------------

  ghost predicate Stored(history: seq<Row>, id: Id) {
    exists row :: row in history && row.run == id
  }

  predicate Waiting(r: RunRecord) {
    Active(r.state) && !r.historyWritten && r.failureCount.None? && r.error.None?
  }

  predicate LifeOk(id: Id, l: Life, m: map<Id, RunRecord>) {
    match l.phase
    case Submitting =>
      id in m && Waiting(m[id]) && m[id].state.Queued? && m[id].durationMs == 0 && l.heard == [] && l.refusal.None?
    case Polling(failures) =>
      id in m && Waiting(m[id]) && m[id].durationMs == LastMs(l.heard) && l.refusal.None?
      && failures == TrailingFailures(l.heard) && Undecided(l.heard) && m[id].state == LastProgress(l.heard)
    case Writing(row) => id in m && Agrees(m[id], row) && row.run == id && RowIsDue(row, l)
    case Remembering => id in m && m[id].historyWritten
    case Kept => id in m ==> !Active(m[id].state)
    case Lost => id in m && m[id].state.Error? && !m[id].historyWritten && m[id].error == Some("quality.history")
  }

  predicate RowOk(row: Row, w: World) {
    && Ending(w, row.run)
    && RowIsDue(row, w.lives[row.run])
    && (row.run in w.book.executions ==> Agrees(w.book.executions[row.run], row))
  }

  predicate Distinct(ids: seq<Id>) {
    forall i, j :: 0 <= i < j < |ids| ==> ids[i] != ids[j]
  }

  ghost predicate RowsDistinct(history: seq<Row>) {
    forall i, j :: 0 <= i < j < |history| ==> history[i].run != history[j].run
  }

  function LastOf(ids: seq<Id>, n: nat): seq<Id> {
    if |ids| <= n then ids else ids[|ids| - n..]
  }

  ghost predicate Registered(w: World) {
    && Distinct(w.remembered)
    && w.book.terminalOrder == LastOf(w.remembered, MAX_TERMINAL_EXECUTIONS)
    && (forall id :: id in w.remembered <==> id in w.lives && w.lives[id].phase.Kept?)
    && (forall id :: id in w.remembered ==> (id in w.book.executions <==> id in w.book.terminalOrder))
  }

  ghost predicate LivesOk(w: World) {
    && (forall id :: id in w.book.executions ==> id in w.lives)
    && (forall id :: id in w.lives ==> LifeOk(id, w.lives[id], w.book.executions))
  }

  ghost predicate RowsOk(w: World) {
    && RowsDistinct(w.book.history)
    && (forall row :: row in w.book.history ==> RowOk(row, w))
  }

  /** The run's end is in the store. */
  predicate Ending(w: World, id: Id) {
    id in w.lives && (w.lives[id].phase.Remembering? || w.lives[id].phase.Kept?)
  }

  ghost predicate EndsStored(w: World) {
    forall id :: Ending(w, id) ==> Stored(w.book.history, id)
  }

  ghost predicate Inv(w: World) {
    LivesOk(w) && RowsOk(w) && EndsStored(w) && Registered(w)
  }

  // ---------------------------------------------------------------------
  // Every step keeps it.
  // ---------------------------------------------------------------------

  /** Only run `id` and its record differ; the store and the terminal order do not. */
  ghost predicate OnlyTouches(w: World, v: World, id: Id) {
    && v.remembered == w.remembered
    && v.book.terminalOrder == w.book.terminalOrder
    && id in v.book.executions && v.book.executions == w.book.executions[id := v.book.executions[id]]
    && id in v.lives && v.lives == w.lives[id := v.lives[id]]
  }

  lemma TouchKeepsRegistered(w: World, v: World, id: Id)
    requires Registered(w) && OnlyTouches(w, v, id)
    requires id in w.lives ==> !w.lives[id].phase.Kept?
    requires !v.lives[id].phase.Kept?
    ensures Registered(v)
  {
    hide Distinct, LastOf;
    forall i ensures i in v.remembered <==> i in v.lives && v.lives[i].phase.Kept? {
      if i != id { assert i in v.lives <==> i in w.lives; }
    }
    forall i | i in v.remembered ensures i in v.book.executions <==> i in v.book.terminalOrder {
      assert i != id;
    }
  }

  /** What a run owes of the registry depends on its own record only. */
  lemma LifeFrame(id: Id, l: Life, m: map<Id, RunRecord>, m': map<Id, RunRecord>)
    requires LifeOk(id, l, m)
    requires id in m' ==> id in m && m'[id] == m[id]
    requires id in m && id !in m' ==> l.phase.Kept?
    ensures LifeOk(id, l, m')
  {
    hide RowIsDue, Agrees, Undecided, Waiting, LastMs, TrailingFailures;
  }

  lemma RowFrame(row: Row, w: World, v: World)
    requires RowOk(row, w)
    requires row.run in v.lives
    requires v.lives[row.run] == w.lives[row.run]
             || (w.lives[row.run].phase.Remembering? && v.lives[row.run] == w.lives[row.run].(phase := Kept))
    requires row.run in v.book.executions ==>
               row.run in w.book.executions && v.book.executions[row.run] == w.book.executions[row.run]
    ensures RowOk(row, v)
  {
    hide Agrees, Undecided, Waiting, LastMs;
  }

  lemma TouchKeepsLives(w: World, v: World, id: Id)
    requires LivesOk(w) && OnlyTouches(w, v, id)
    requires LifeOk(id, v.lives[id], v.book.executions)
    ensures LivesOk(v)
  {
    hide LifeOk;
    forall i | i in v.lives ensures LifeOk(i, v.lives[i], v.book.executions) {
      if i != id { LifeFrame(i, w.lives[i], w.book.executions, v.book.executions); }
    }
  }

  lemma TouchKeepsRows(w: World, v: World, id: Id)
    requires RowsOk(w) && OnlyTouches(w, v, id) && v.book.history == w.book.history
    requires !Ending(w, id)
    ensures RowsOk(v)
  {
    forall row | row in v.book.history ensures RowOk(row, v) {
      assert RowOk(row, w) && Ending(w, row.run);
      hide RowOk;
      RowFrame(row, w, v);
    }
  }

  lemma TouchKeepsInv(w: World, v: World, id: Id)
    requires Inv(w) && OnlyTouches(w, v, id) && v.book.history == w.book.history
    requires !Ending(w, id) && !Ending(v, id)
    requires LifeOk(id, v.lives[id], v.book.executions)
    ensures Inv(v)
  {
    TouchKeepsRegistered(w, v, id);
    TouchKeepsLives(w, v, id);
    TouchKeepsRows(w, v, id);
    hide Registered, LivesOk, RowsOk, Stored, LifeOk;
    assert EndsStored(v);
  }

  lemma CountIsTrailing(heard: seq<Answer>, a: Answer)
    ensures TrailingFailures(heard + [a]) == Count(a, TrailingFailures(heard))
    ensures LastMs(heard + [a]) == match a
                                   case StillQueued(ms) => ms
                                   case StillRunning(ms) => ms
                                   case Succeeded(ms, _) => ms
                                   case _ => LastMs(heard)
  {
    assert (heard + [a])[..|heard|] == heard;
  }

  lemma {:induction false} TrailingAreFailures(heard: seq<Answer>)
    ensures TrailingFailures(heard) <= |heard|
    ensures forall i :: |heard| - TrailingFailures(heard) <= i < |heard| ==> heard[i].Unreachable?
    ensures TrailingFailures(heard) < |heard| ==> !heard[|heard| - 1 - TrailingFailures(heard)].Unreachable?
  {
    if heard != [] && heard[|heard| - 1].Unreachable? {
      TrailingAreFailures(heard[..|heard| - 1]);
    }
  }

  lemma UndecidedEndsShort(heard: seq<Answer>)
    requires Undecided(heard)
    ensures TrailingFailures(heard) < MAX_POLL_FAILURES
    ensures forall a :: EndOfAnswer(a, TrailingFailures(heard)) == Verdict(heard + [a])
  {
    assert heard[..|heard|] == heard;
    TrailingAreFailures(heard);
    var n, t := |heard|, TrailingFailures(heard);
    assert t >= 3 ==> Outage(heard);
    forall a ensures EndOfAnswer(a, t) == Verdict(heard + [a]) {
      var more := heard + [a];
      assert more[n] == a;
      assert n >= 1 ==> more[n - 1] == heard[n - 1];
      assert n >= 2 ==> more[n - 2] == heard[n - 2];
    }
  }

  lemma UndecidedExtends(heard: seq<Answer>, a: Answer)
    requires Undecided(heard)
    ensures forall n :: 0 <= n <= |heard| ==> Verdict((heard + [a])[..n]).None?
    ensures Verdict(heard + [a]).None? ==> Undecided(heard + [a])
  {
    forall n | 0 <= n <= |heard| ensures Verdict((heard + [a])[..n]).None? {
      assert (heard + [a])[..n] == heard[..n];
    }
    assert (heard + [a])[..|heard| + 1] == heard + [a];
  }

  /** A run that gets its end is closed, and its row is next to be written. */
  lemma ShutLifeIsOk(w: World, id: Id, b: Book, l: Life, end: End)
    requires id in w.lives && (w.lives[id].phase.Submitting? || w.lives[id].phase.Polling?)
    requires id in b.executions && b == w.book.(executions := w.book.executions[id := b.executions[id]])
    requires Waiting(b.executions[id]) && b.executions[id].durationMs == LastMs(l.heard)
    requires Due(l) == Some(end) && OutcomeOf(end.state).Some?
    requires l.refusal.Some? ==> l.heard == []
    requires forall n :: 0 <= n < |l.heard| ==> Verdict(l.heard[..n]).None?
    ensures var v := Shut(w, id, b, l, end);
            && LifeOk(id, v.lives[id], v.book.executions) && OnlyTouches(w, v, id)
            && v.book.history == w.book.history && !Ending(v, id)
  {
    var v := Shut(w, id, b, l, end);
    assert v.book.executions == w.book.executions[id := Ended(b.executions[id], end)];
  }

  lemma ShutKeepsInv(w: World, id: Id, b: Book, l: Life, end: End)
    requires Inv(w) && id in w.lives && (w.lives[id].phase.Submitting? || w.lives[id].phase.Polling?)
    requires id in b.executions && b == w.book.(executions := w.book.executions[id := b.executions[id]])
    requires Waiting(b.executions[id]) && b.executions[id].durationMs == LastMs(l.heard)
    requires Due(l) == Some(end) && OutcomeOf(end.state).Some?
    requires l.refusal.Some? ==> l.heard == []
    requires forall n :: 0 <= n < |l.heard| ==> Verdict(l.heard[..n]).None?
    ensures Inv(Shut(w, id, b, l, end))
  {
    ShutLifeIsOk(w, id, b, l, end);
    assert !Ending(w, id);
    hide Inv, LifeOk, OnlyTouches, Shut, Ending, Waiting, Due, OutcomeOf, Verdict;
    TouchKeepsInv(w, Shut(w, id, b, l, end), id);
  }

  lemma HearsKeepsInv(w: World, id: Id, a: Answer)
    requires Inv(w) && Enabled(w, Hears(id, a))
    ensures Inv(Apply(w, Hears(id, a)))
  {
    var l := w.lives[id];
    assert LifeOk(id, l, w.book.executions);
    CountIsTrailing(l.heard, a);
    UndecidedEndsShort(l.heard);
    UndecidedExtends(l.heard, a);
    var l' := l.(heard := l.heard + [a], phase := Polling(Count(a, l.phase.failures)));
    var seen := Observe(w.book, id, a);
    var end := EndOfAnswer(a, l.phase.failures);
    assert seen.executions[id] == Shown(w.book.executions[id], a);
    hide Inv, Undecided;
    if end.None? {
      TouchKeepsInv(w, Apply(w, Hears(id, a)), id);
    } else {
      ShutKeepsInv(w, id, seen, l', end.value);
    }
  }

  lemma RowIsStored(w: World, id: Id)
    requires Inv(w) && Enabled(w, Stores(id, true))
    ensures RowsOk(Apply(w, Stores(id, true)))
  {
    hide Registered, EndsStored, RowIsDue, Agrees, Undecided, Waiting;
    var v := Apply(w, Stores(id, true));
    var new_ := w.lives[id].phase.row;
    assert LifeOk(id, w.lives[id], w.book.executions);
    assert RowIsDue(new_, v.lives[id]) by { SameDue(new_, w.lives[id], v.lives[id]); }
    forall row | row in w.book.history ensures RowOk(row, v) && row.run != id {
      assert RowOk(row, w);
    }
    hide LifeOk, LivesOk;
    assert RowOk(new_, v);
    hide RowOk;
    forall row | row in v.book.history ensures RowOk(row, v) {
      assert row in w.book.history || row == new_;
    }
  }

  lemma SameDue(row: Row, l: Life, l': Life)
    requires RowIsDue(row, l) && l'.heard == l.heard && l'.refusal == l.refusal
    ensures RowIsDue(row, l')
  {
  }

  lemma StoresKeepsInv(w: World, id: Id, ok: bool)
    requires Inv(w) && Enabled(w, Stores(id, ok))
    ensures Inv(Apply(w, Stores(id, ok)))
  {
    var v := Apply(w, Stores(id, ok));
    var row := w.lives[id].phase.row;
    assert LifeOk(id, w.lives[id], w.book.executions);
    if !ok {
      TouchKeepsInv(w, v, id);
    } else {
      assert v.book.executions == w.book.executions[id := w.book.executions[id]];
      RowIsStored(w, id);
      TouchKeepsRegistered(w, v, id);
      TouchKeepsLives(w, v, id);
      hide LivesOk, LifeOk, RowsOk, Registered;
      assert row in v.book.history;
      forall i | Ending(v, i) ensures Stored(v.book.history, i) {
        if i != id {
          assert Ending(w, i);
          var other :| other in w.book.history && other.run == i;
          assert other in v.book.history;
        }
      }
    }
  }

  /** Remembering one more run slides the window by at most one. */
  lemma WindowSlides(ids: seq<Id>, id: Id)
    requires Distinct(ids) && id !in ids
    ensures Distinct(ids + [id])
    ensures var order := LastOf(ids, MAX_TERMINAL_EXECUTIONS) + [id];
            && order[Excess(order)..] == LastOf(ids + [id], MAX_TERMINAL_EXECUTIONS)
            && (forall i :: i in ids + [id] ==>
                  (i in order[Excess(order)..] <==> i in order && i !in order[..Excess(order)]))
            && (forall i :: i in order[..Excess(order)] ==> i in ids)
  {
    var order := LastOf(ids, MAX_TERMINAL_EXECUTIONS) + [id];
    assert order[|order| - 1] == id;
    if |ids| >= MAX_TERMINAL_EXECUTIONS {
      assert order[..1] == [order[0]] && order == [order[0]] + order[1..];
      forall i | 1 <= i < |order| ensures order[i] != order[0] {}
    }
  }

  lemma StaleRunsHaveEnded(w: World, stale: seq<Id>)
    requires Inv(w) && (forall i :: i in stale ==> i in w.remembered)
    ensures Evictable(w.book, stale) == set i | i in stale && i in w.book.executions
  {
    hide RowIsDue, Agrees, Undecided, Waiting, RowsOk, EndsStored, LastOf;
    forall i | i in stale && i in w.book.executions ensures !Active(w.book.executions[i].state) {
      assert i in w.lives && LifeOk(i, w.lives[i], w.book.executions);
    }
  }

  /** Run `id` is kept; only kept runs leave the registry, and no record changes. */
  ghost predicate Sheds(w: World, v: World, id: Id) {
    && v.book.history == w.book.history
    && id in w.lives && v.lives == w.lives[id := w.lives[id].(phase := Kept)]
    && id in v.book.executions
    && (forall i :: i in v.book.executions ==> i in w.book.executions && v.book.executions[i] == w.book.executions[i])
    && (forall i :: i in w.book.executions && i !in v.book.executions ==> i in w.lives && w.lives[i].phase.Kept?)
  }

  lemma RegistrySlides(w: World, id: Id, order: seq<Id>, v: World)
    requires LivesOk(w) && RowsOk(w) && EndsStored(w) && Registered(w)
    requires id in w.lives && w.lives[id].phase.Remembering?
    requires order == w.book.terminalOrder + [id]
    requires v == World(Book(w.book.executions - Evictable(w.book, order[..Excess(order)]), order[Excess(order)..],
                             w.book.history),
                        w.lives[id := w.lives[id].(phase := Kept)], w.remembered + [id])
    ensures Registered(v) && Sheds(w, v, id)
  {
    var stale := order[..Excess(order)];
    assert id in w.book.executions && id !in w.remembered by {
      assert LifeOk(id, w.lives[id], w.book.executions);
    }
    WindowSlides(w.remembered, id);
    StaleRunsHaveEnded(w, stale);
    hide LivesOk, RowsOk, EndsStored, LastOf, Excess, Distinct, Evictable, LifeOk;
    assert forall i :: i in stale ==> i in w.remembered;
    ShedsStale(w, id, v, stale);
    RegisteredSlides(w, id, v);
    hide Registered, Sheds;
  }

  lemma ShedsStale(w: World, id: Id, v: World, stale: seq<Id>)
    requires v.book.executions == w.book.executions - (set i | i in stale && i in w.book.executions)
    requires v.book.history == w.book.history && id in w.lives && v.lives == w.lives[id := w.lives[id].(phase := Kept)]
    requires Registered(w) && (forall i :: i in stale ==> i in w.remembered)
    requires id in w.book.executions && id !in w.remembered
    ensures Sheds(w, v, id)
  {
    hide LastOf, Distinct;
  }

  lemma RegisteredSlides(w: World, id: Id, v: World)
    requires Registered(w) && id !in w.remembered && id in v.book.executions
    requires id in w.lives && v.remembered == w.remembered + [id]
             && v.lives == w.lives[id := w.lives[id].(phase := Kept)]
    requires Distinct(v.remembered) && v.book.terminalOrder == LastOf(v.remembered, MAX_TERMINAL_EXECUTIONS)
    requires id in v.book.terminalOrder
    requires forall i :: i in w.remembered ==> (i in v.book.executions <==> i in v.book.terminalOrder)
    ensures Registered(v)
  {
    hide Distinct, LastOf;
    forall i ensures i in v.remembered <==> i in v.lives && v.lives[i].phase.Kept? {}
  }

  lemma ShedKeepsLives(w: World, v: World, id: Id)
    requires LivesOk(w) && RowsOk(w) && Sheds(w, v, id)
    requires w.lives[id].phase.Remembering? && Stored(w.book.history, id)
    ensures LivesOk(v)
  {
    var row :| row in w.book.history && row.run == id;
    assert RowOk(row, w);
    assert LifeOk(id, v.lives[id], v.book.executions);
    hide LifeOk, Agrees, RowOk, RowsOk;
    forall i | i in v.lives ensures LifeOk(i, v.lives[i], v.book.executions) {
      if i != id { LifeFrame(i, w.lives[i], w.book.executions, v.book.executions); }
    }
  }

  lemma ShedKeepsRows(w: World, v: World, id: Id)
    requires RowsOk(w) && Sheds(w, v, id) && w.lives[id].phase.Remembering?
    ensures RowsOk(v)
  {
    forall row | row in v.book.history ensures RowOk(row, v) {
      assert RowOk(row, w) && Ending(w, row.run);
      hide RowOk;
      RowFrame(row, w, v);
    }
  }

  lemma RemembersSlides(w: World, id: Id)
    requires Inv(w) && Enabled(w, Remembers(id))
    ensures Registered(Apply(w, Remembers(id))) && Sheds(w, Apply(w, Remembers(id)), id)
  {
    hide LivesOk, RowsOk, EndsStored, Sheds;
    var order := w.book.terminalOrder + [id];
    assert id !in w.book.terminalOrder;
    WithoutDrops(w.book.terminalOrder, id);
    RegistrySlides(w, id, order,
      World(Book(w.book.executions - Evictable(w.book, order[..Excess(order)]), order[Excess(order)..], w.book.history),
            w.lives[id := w.lives[id].(phase := Kept)], w.remembered + [id]));
  }

  lemma RemembersKeepsInv(w: World, id: Id)
    requires Inv(w) && Enabled(w, Remembers(id))
    ensures Inv(Apply(w, Remembers(id)))
  {
    RemembersSlides(w, id);
    var v := Apply(w, Remembers(id));
    hide Apply, Registered, LivesOk, RowsOk, Stored;
    assert Ending(w, id);
    ShedKeepsLives(w, v, id);
    ShedKeepsRows(w, v, id);
    forall i | Ending(v, i) ensures Stored(v.book.history, i) {
      assert Ending(w, i);
    }
  }

  lemma StepKeepsInv(w: World, s: Step)
    requires Inv(w) && Enabled(w, s)
    ensures Inv(Apply(w, s))
  {
    match s
    case Submits(id, _, _, _) => TouchKeepsInv(w, Apply(w, s), id);
    case Refuses(id, code) =>
      assert LifeOk(id, w.lives[id], w.book.executions);
      assert w.book == w.book.(executions := w.book.executions[id := w.book.executions[id]]);
      ShutKeepsInv(w, id, w.book, w.lives[id].(refusal := Some(code)), End(RunState.Error, None, Some(code)));
    case Accepts(id) =>
      assert LifeOk(id, w.lives[id], w.book.executions);
      assert w.book.executions == w.book.executions[id := w.book.executions[id]];
      TouchKeepsInv(w, Apply(w, s), id);
    case Hears(id, a) => HearsKeepsInv(w, id, a);
    case Stores(id, ok) => StoresKeepsInv(w, id, ok);
    case Remembers(id) => RemembersKeepsInv(w, id);
  }

  lemma {:induction false} RunKeepsInv(steps: seq<Step>)
    requires Run(EMPTY, steps).Some?
    ensures Inv(Run(EMPTY, steps).value)
  {
    if steps != [] {
      RunKeepsInv(steps[..|steps| - 1]);
      StepKeepsInv(Run(EMPTY, steps[..|steps| - 1]).value, steps[|steps| - 1]);
    }
  }

  // ---------------------------------------------------------------------
  // Main results.
  // ---------------------------------------------------------------------

  /** Whatever the engine answers and whichever writes fail: a run has at most one row,
      the row says what the run's own answers called for, and as long as the run is
      tracked its record shows the same. */
  lemma HistoryIsExactlyOnce(steps: seq<Step>)
    requires Run(EMPTY, steps).Some?
    ensures var w := Run(EMPTY, steps).value;
            && (forall i, j :: 0 <= i < j < |w.book.history| ==> w.book.history[i].run != w.book.history[j].run)
            && (forall row :: row in w.book.history ==>
                  && row.run in w.lives && RowIsDue(row, w.lives[row.run])
                  && (row.run in w.book.executions ==> Agrees(w.book.executions[row.run], row)))
  {
    RunKeepsInv(steps);
    var w := Run(EMPTY, steps).value;
    assert forall row :: row in w.book.history ==> RowOk(row, w);
  }

  /** A tracked run that shows an end has its row, or is about to write it, or could not
      write it and says so: no run shows a pass, a failure or a cancellation for good
      without history behind it. */
  lemma ShownEndsAreStored(steps: seq<Step>, id: Id)
    requires Run(EMPTY, steps).Some?
    requires id in Run(EMPTY, steps).value.book.executions
    requires !Active(Run(EMPTY, steps).value.book.executions[id].state)
    ensures var w := Run(EMPTY, steps).value;
            && id in w.lives
            && (Stored(w.book.history, id) <==> Ending(w, id))
            && (Stored(w.book.history, id) || w.lives[id].phase.Writing?
                || (w.book.executions[id].state.Error? && w.book.executions[id].error == Some("quality.history")))
  {
    RunKeepsInv(steps);
    var w := Run(EMPTY, steps).value;
    assert LifeOk(id, w.lives[id], w.book.executions);
    if Stored(w.book.history, id) {
      var row :| row in w.book.history && row.run == id;
      assert RowOk(row, w);
    }
    assert Ending(w, id) ==> Stored(w.book.history, id);
  }

  /** The runs with a stored and remembered end that are still tracked are exactly the
      256 most recent ones, oldest first in line for eviction; a run whose end could not
      be stored is never evicted. */
  lemma NewestEndsStayTracked(steps: seq<Step>)
    requires Run(EMPTY, steps).Some?
    ensures var w := Run(EMPTY, steps).value;
            var n := |w.remembered|;
            && |w.book.terminalOrder| <= 256
            && (forall i :: 0 <= i < n ==> (w.remembered[i] in w.book.executions <==> i + 256 >= n))
            && (forall id :: id in w.lives && !w.lives[id].phase.Kept? ==> id in w.book.executions)
  {
    RunKeepsInv(steps);
    var w := Run(EMPTY, steps).value;
    var n := |w.remembered|;
    forall id | id in w.lives && !w.lives[id].phase.Kept? ensures id in w.book.executions {
      assert LifeOk(id, w.lives[id], w.book.executions);
    }
    forall i | 0 <= i < n
      ensures w.remembered[i] in w.book.executions <==> i + MAX_TERMINAL_EXECUTIONS >= n
    {
      if i + MAX_TERMINAL_EXECUTIONS >= n {
        var from := if n <= MAX_TERMINAL_EXECUTIONS then 0 else n - MAX_TERMINAL_EXECUTIONS;
        assert w.book.terminalOrder[i - from] == w.remembered[i];
      }
    }
  }

  /** A run that is being polled shows the progress and the duration that the engine reported
      last, and nothing of an end. */
  lemma ProgressIsShown(steps: seq<Step>, id: Id)
    requires Run(EMPTY, steps).Some? && id in Run(EMPTY, steps).value.lives
    requires Run(EMPTY, steps).value.lives[id].phase.Polling?
    ensures var w := Run(EMPTY, steps).value;
            && id in w.book.executions
            && var r := w.book.executions[id];
               r.state == LastProgress(w.lives[id].heard) && r.durationMs == LastMs(w.lives[id].heard)
               && r.failureCount.None? && r.error.None? && !r.historyWritten
  {
    RunKeepsInv(steps);
    var w := Run(EMPTY, steps).value;
    assert LifeOk(id, w.lives[id], w.book.executions);
  }

  // ---------------------------------------------------------------------
  // Whose run it was.
  // ---------------------------------------------------------------------

  predicate RecordNamed(id: Id, r: RunRecord, steps: seq<Step>) {
    Submits(id, r.project, r.check, r.revision) in steps
  }

  predicate RowNamed(row: Row, steps: seq<Step>) {
    Submits(row.run, row.project, row.check, row.revision) in steps
  }

  /** Records, stored rows and rows about to be stored name what was submitted. */
  ghost predicate AllNamed(w: World, steps: seq<Step>) {
    && (forall id :: id in w.book.executions ==> RecordNamed(id, w.book.executions[id], steps))
    && (forall row :: row in w.book.history ==> RowNamed(row, steps))
    && (forall id :: id in w.lives && w.lives[id].phase.Writing? ==> RowNamed(w.lives[id].phase.row, steps))
  }

  lemma StepKeepsNames(w: World, s: Step, steps: seq<Step>)
    requires AllNamed(w, steps) && Enabled(w, s)
    ensures AllNamed(Apply(w, s), steps + [s])
  {
    var all := steps + [s];
    assert forall id, r :: RecordNamed(id, r, steps) ==> RecordNamed(id, r, all);
    assert forall row :: RowNamed(row, steps) ==> RowNamed(row, all);
    if s.Submits? { assert all[|steps|] == s; }
    hide Excess, Evictable;
  }

  lemma {:induction false} RunsKeepNames(steps: seq<Step>)
    requires Run(EMPTY, steps).Some?
    ensures AllNamed(Run(EMPTY, steps).value, steps)
  {
    if steps != [] {
      var init, last := steps[..|steps| - 1], steps[|steps| - 1];
      RunsKeepNames(init);
      StepKeepsNames(Run(EMPTY, init).value, last, init);
      assert init + [last] == steps;
    }
  }

  /** Every row of history is of a check and its revision that were submitted under its run. */
  lemma RowsNameTheirChecks(steps: seq<Step>, k: nat)
    requires Run(EMPTY, steps).Some? && k < |Run(EMPTY, steps).value.book.history|
    ensures var row := Run(EMPTY, steps).value.book.history[k];
            Submits(row.run, row.project, row.check, row.revision) in steps
  {
    RunsKeepNames(steps);
    var w := Run(EMPTY, steps).value;
    assert w.book.history[k] in w.book.history && RowNamed(w.book.history[k], steps);
  }

  /** A step changes an end on show only because its row could not be stored. */
  lemma EndsAreFinalUnlessUnstored(w: World, s: Step, id: Id)
    requires Inv(w) && Enabled(w, s)
    requires id in w.book.executions && w.book.executions[id].historyWritten
    ensures var v := Apply(w, s);
            id in v.book.executions && v.book.executions[id] != w.book.executions[id]
            ==> s == Stores(id, false) && v.book.executions[id] == Unstored(w.book.executions[id])
  {
    assert LifeOk(id, w.lives[id], w.book.executions);
  }

  /** The run has come to its end: its row is being written, is stored, or was lost. */
  predicate Closed(w: World, id: Id) {
    id in w.lives && !w.lives[id].phase.Submitting? && !w.lives[id].phase.Polling?
  }

  lemma ClosedStep(w: World, s: Step, id: Id)
    requires Inv(w) && Enabled(w, s) && Closed(w, id)
    ensures var v := Apply(w, s);
            && Closed(v, id)
            && (w.lives[id].phase.Writing? <== v.lives[id].phase.Writing?)
            && (w.lives[id].phase.Lost? ==> v.lives[id].phase.Lost?)
            && (id in v.book.executions ==> id in w.book.executions)
            && (id in v.book.executions && v.book.executions[id] != w.book.executions[id] ==>
                  w.lives[id].phase.Writing? && v.lives[id].phase.Lost?
                  && v.book.executions[id] == Unstored(w.book.executions[id]))
  {
    if id in w.book.executions && w.book.executions[id].historyWritten { EndsAreFinalUnlessUnstored(w, s, id); }
    assert LifeOk(id, w.lives[id], w.book.executions);
    hide RowsOk, EndsStored, Registered, Agrees, RowIsDue, Verdict, LastMs;
  }

  /** Over the rest of any run, an end on show changes at most once, while its row is being
      written, and then to say that the row was lost; what is stored or lost never changes. */
  lemma {:induction false} EndsChangeAtMostOnce(steps: seq<Step>, more: seq<Step>, id: Id)
    requires Run(EMPTY, steps).Some? && Run(Run(EMPTY, steps).value, more).Some?
    requires Closed(Run(EMPTY, steps).value, id)
    ensures var w := Run(EMPTY, steps).value;
            var v := Run(w, more).value;
            && Closed(v, id)
            && (w.lives[id].phase.Lost? ==> v.lives[id].phase.Lost?)
            && (id in v.book.executions ==> id in w.book.executions)
            && (id in v.book.executions && v.book.executions[id] != w.book.executions[id] ==>
                  w.lives[id].phase.Writing? && v.lives[id].phase.Lost?
                  && v.book.executions[id] == Unstored(w.book.executions[id]))
            && (v.lives[id].phase.Writing? ==> w.lives[id].phase.Writing?)
  {
    var w := Run(EMPTY, steps).value;
    if more != [] {
      var init, s := more[..|more| - 1], more[|more| - 1];
      var u := Run(w, init).value;
      EndsChangeAtMostOnce(steps, init, id);
      RunsJoin(steps, init);
      RunKeepsInv(steps + init);
      hide Inv, Apply, Unstored;
      ClosedStep(u, s, id);
    }
  }

  lemma {:induction false} RunsJoin(steps: seq<Step>, more: seq<Step>)
    requires Run(EMPTY, steps).Some? && Run(Run(EMPTY, steps).value, more).Some?
    ensures Run(EMPTY, steps + more) == Run(Run(EMPTY, steps).value, more)
  {
    if more == [] {
      assert steps + more == steps;
    } else {
      var init, s := more[..|more| - 1], more[|more| - 1];
      RunsJoin(steps, init);
      RunOneMore(EMPTY, steps + init, s);
      assert steps + more == steps + init + [s];
    }
  }

  // ---------------------------------------------------------------------
  // The poller's loop is a run of these steps.
  // ---------------------------------------------------------------------

  lemma RunOneMore(w: World, steps: seq<Step>, s: Step)
    requires Run(w, steps).Some? && Enabled(Run(w, steps).value, s)
    ensures Run(w, steps + [s]) == Some(Apply(Run(w, steps).value, s))
  {
    assert (steps + [s])[..|steps|] == steps;
  }

  /** One turn of the loop: the answer is heard and, if it ends the run, the row is
      stored or lost. */
  function Turn(id: Id, a: Answer, failures: nat, ok: bool): seq<Step> {
    if EndOfAnswer(a, failures).None? then [Hears(id, a)]
    else if ok then [Hears(id, a), Stores(id, true), Remembers(id)]
    else [Hears(id, a), Stores(id, false)]
  }

  predicate AfterTurn(l: Life, l': Life, a: Answer, p: Polled, ok: bool) {
    && l'.heard == l.heard + [a] && l'.refusal == l.refusal
    && l'.phase == if !p.done then Polling(p.failures) else if ok then Kept else Lost
  }

  lemma HearsIsPoll(w: World, id: Id, a: Answer, ok: bool)
    requires id in w.lives && w.lives[id].phase.Polling?
    requires id in w.book.executions && !w.book.executions[id].historyWritten
    ensures var l := w.lives[id];
            var p := Poll(w.book, id, a, l.phase.failures, ok);
            var v := Apply(w, Hears(id, a));
            && id in v.lives && v.lives[id].heard == l.heard + [a] && v.lives[id].refusal == l.refusal
            && (!p.done ==> v.book == p.book && v.lives[id].phase == Polling(p.failures))
            && (p.done ==> v.lives[id].phase.Writing? && v.lives[id].phase.row.run == id
                           && p.book == var s := Store(v.book, v.lives[id].phase.row, ok);
                                        if ok then Remember(s, id) else s)
  {
    assert Shown(w.book.executions[id], a).historyWritten == false;
    var end := EndOfAnswer(a, w.lives[id].phase.failures);
    assert end.Some? ==> OutcomeOf(end.value.state).Some?;
    hide Remember, Shown, EndOfAnswer;
  }

  lemma TurnIsSteps(steps: seq<Step>, id: Id, a: Answer, ok: bool)
    requires Run(EMPTY, steps).Some?
    requires var w := Run(EMPTY, steps).value; id in w.lives && w.lives[id].phase.Polling?
    ensures var w := Run(EMPTY, steps).value;
            var p := Poll(w.book, id, a, w.lives[id].phase.failures, ok);
            var end := Run(EMPTY, steps + Turn(id, a, w.lives[id].phase.failures, ok));
            && end.Some? && end.value.book == p.book && id in end.value.lives
            && AfterTurn(w.lives[id], end.value.lives[id], a, p, ok)
  {
    var w := Run(EMPTY, steps).value;
    var failures := w.lives[id].phase.failures;
    assert id in w.book.executions && !w.book.executions[id].historyWritten by {
      RunKeepsInv(steps);
      assert LifeOk(id, w.lives[id], w.book.executions);
    }
    HearsIsPoll(w, id, a, ok);
    var heard := steps + [Hears(id, a)];
    var v := Apply(w, Hears(id, a));
    RunOneMore(EMPTY, steps, Hears(id, a));
    hide Run, Remember, Shown, Store, Close, Observe;
    if EndOfAnswer(a, failures).Some? {
      WriteIsSteps(heard, v, id, ok);
      assert steps + Turn(id, a, failures, ok) == heard + Write(id, ok);
    }
  }

  function Write(id: Id, ok: bool): seq<Step> {
    if ok then [Stores(id, true), Remembers(id)] else [Stores(id, false)]
  }

  lemma WriteIsSteps(steps: seq<Step>, w: World, id: Id, ok: bool)
    requires Run(EMPTY, steps) == Some(w)
    requires id in w.lives && w.lives[id].phase.Writing?
    ensures var end := Run(EMPTY, steps + Write(id, ok));
            && end.Some? && id in end.value.lives
            && end.value.lives[id] == w.lives[id].(phase := if ok then Kept else Lost)
            && end.value.book == var s := Store(w.book, w.lives[id].phase.row, ok);
                                 if ok then Remember(s, id) else s
  {
    RunOneMore(EMPTY, steps, Stores(id, ok));
    var stored := steps + [Stores(id, ok)];
    assert Stores(id, ok).Stores?;
    hide Run, Remember, Store;
    if ok {
      RunOneMore(EMPTY, stored, Remembers(id));
      assert steps + Write(id, ok) == stored + [Remembers(id)];
    } else {
      assert steps + Write(id, ok) == stored;
    }
  }

  /** The poller's loop over a run's answers is one of the interleavings above, and it
      stops at the first answer that completes a verdict. */
  lemma {:induction false} PollerLoopIsARun(steps: seq<Step>, id: Id, answers: seq<Answer>, ok: bool)
      returns (more: seq<Step>)
    requires Run(EMPTY, steps).Some?
    requires var w := Run(EMPTY, steps).value; id in w.lives && w.lives[id] == Life(Polling(0), [], None)
    ensures Run(EMPTY, steps + more).Some?
    ensures var w := Run(EMPTY, steps).value;
            var v := Run(EMPTY, steps + more).value;
            var p := PollAll(w.book, id, answers, ok);
            && v.book == p.book && id in v.lives && v.lives[id].refusal.None?
            && (!p.done ==> v.lives[id] == Life(Polling(p.failures), answers, None) && Undecided(answers))
            && (p.done ==> v.lives[id].phase == (if ok then Kept else Lost)
                           && v.lives[id].heard <= answers
                           && Verdict(v.lives[id].heard).Some?)
  {
    var w := Run(EMPTY, steps).value;
    if answers == [] {
      more := [];
      assert steps + more == steps;
    } else {
      var init, a := answers[..|answers| - 1], answers[|answers| - 1];
      assert init + [a] == answers;
      more := PollerLoopIsARun(steps, id, init, ok);
      var p := PollAll(w.book, id, init, ok);
      if !p.done {
        TurnIsSteps(steps + more, id, a, ok);
        UndecidedTurn(steps + more, id, a);
        var turn := Turn(id, a, p.failures, ok);
        assert steps + (more + turn) == steps + more + turn;
        more := more + turn;
        hide Run, Poll, Verdict, Undecided, Turn;
      }
    }
  }

  /** A polling run's next answer ends it exactly if that completes a verdict. */
  lemma UndecidedTurn(steps: seq<Step>, id: Id, a: Answer)
    requires Run(EMPTY, steps).Some?
    requires var w := Run(EMPTY, steps).value; id in w.lives && w.lives[id].phase.Polling?
    ensures var l := Run(EMPTY, steps).value.lives[id];
            && EndOfAnswer(a, l.phase.failures) == Verdict(l.heard + [a])
            && (Verdict(l.heard + [a]).None? ==> Undecided(l.heard + [a]))
  {
    var w := Run(EMPTY, steps).value;
    RunKeepsInv(steps);
    assert LifeOk(id, w.lives[id], w.book.executions);
    UndecidedEndsShort(w.lives[id].heard);
    UndecidedExtends(w.lives[id].heard, a);
  }
}
