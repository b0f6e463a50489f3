/** The agent query tables: admitted queries, SQL snapshots and connections,
    and the quantities that admission control meters. */
module AgentState {
  import opened Basics

  const MIB: nat := 1024 * 1024
  const MAX_AGENT_QUERIES_GLOBAL: nat := 16
  const MAX_AGENT_RESULTS_GLOBAL: nat := 32
  const MAX_CLEANUP_PENDING: nat := 16
  const MAX_SQL_SNAPSHOTS: nat := 32
  const CHALLENGE_LIFETIME: Millis := 60_000
  const SQL_SNAPSHOT_LIFETIME: Millis := 120_000
  const CONNECTION_LEASE: Millis := 120_000
  const MAINTENANCE_INTERVAL: Millis := 5_000
  const RESUME_SAFE_GRACE: Millis := 30_000
  const RESULT_IDLE_LIFETIME: Millis := 600_000
  const RESULT_ABSOLUTE_LIFETIME: Millis := 1_800_000
  const CLEANUP_RETRY_BASE: Millis := 2_000
  const CLEANUP_RETRY_MAX: Millis := 60_000

  datatype ExecutionState = Queued | Running | Succeeded | Failed | Cancelled

  predicate IsOutstanding(s: ExecutionState) {
    s.Queued? || s.Running?
  }

  datatype Decision = SafeRead | ApprovalRequired | CriticalConfirmation | Blocked

  datatype Limits = Limits(
    browseRowCap: nat,
    maximumResultBytes: nat,
    retainedResultLimit: nat,
    outstandingQueryLimit: nat,
    profileCacheBytes: nat,
    globalCacheBytes: nat,
    queueDeadlineSeconds: nat,
    executionDeadlineSeconds: nat)

  predicate ValidLimits(l: Limits) {
    && 100 <= l.browseRowCap <= 50_000
    && 8 * MIB <= l.maximumResultBytes <= 128 * MIB
    && 1 <= l.retainedResultLimit <= 16
    && 1 <= l.outstandingQueryLimit <= 8
    && 32 * MIB <= l.profileCacheBytes <= 512 * MIB
    && 128 * MIB <= l.globalCacheBytes <= 1024 * MIB
    && 10 <= l.queueDeadlineSeconds <= 60
    && 10 <= l.executionDeadlineSeconds <= 300
    && l.maximumResultBytes <= l.profileCacheBytes <= l.globalCacheBytes
    && Min(l.maximumResultBytes * l.retainedResultLimit, U64_MAX) >= l.profileCacheBytes
  }

  datatype Connection = Connection(
    profile: Id, authenticated: bool, createdAt: Millis, lastHeartbeat: Millis,
    graceUntil: Option<Millis>)

  datatype Snapshot = Snapshot(connection: Id, decision: Decision, createdAt: Millis, reserved: bool)

  datatype Query = Query(
    profile: Id,
    connection: Id,
    snapshotId: Option<Id>,
    accepted: bool,
    claimed: bool,
    admittedAt: Millis,
    runningAt: Option<Millis>,
    state: ExecutionState,
    resultId: Option<Id>,
    cacheBytes: Option<nat>,
    cancelRequested: bool,
    cleanupPending: bool,
    readers: nat,
    publishedAt: Option<Millis>,
    lastAccessedAt: Option<Millis>,
    cleanupAttempts: nat,
    cleanupRetryAt: Option<Millis>,
    error: Option<string>,
    limits: Limits)

  datatype Access = Access(
    lastMaintenance: Option<Millis>,
    lastScheduled: Option<Id>,
    connections: map<Id, Connection>,
    snapshots: map<Id, Snapshot>,
    queries: map<Id, Query>)

  const EMPTY_ACCESS := Access(None, None, map[], map[], map[])

  /** Bytes of the result cache that one query is charged for. */
  function ChargedBytes(q: Query): nat {
    if q.cacheBytes.Some? then q.cacheBytes.value
    else if IsOutstanding(q.state) || q.cleanupPending then q.limits.maximumResultBytes
    else 0
  }

  predicate IsLive(q: Query) {
    IsOutstanding(q.state) || q.resultId.Some? || q.cleanupPending
  }

  predicate InFlight(q: Query) {
    q.accepted && IsOutstanding(q.state)
  }

  // ---------------------------------------------------------------------
  // Metering: a total over the query table of one quantity per query.
  // ---------------------------------------------------------------------

  datatype Measure =
    | Bytes | BytesOf(profile: Id)
    | Retained | RetainedOf(profile: Id)
    | Outstanding | OutstandingOf(profile: Id)
    | CleanupPending | Live | Busy

  function Indicator(b: bool): nat {
    if b then 1 else 0
  }

  function Weight(m: Measure, q: Query): nat {
    match m
    case Bytes => ChargedBytes(q)
    case BytesOf(p) => if q.profile == p then ChargedBytes(q) else 0
    case Retained => Indicator(q.resultId.Some?)
    case RetainedOf(p) => Indicator(q.profile == p && q.resultId.Some?)
    case Outstanding => Indicator(IsOutstanding(q.state))
    case OutstandingOf(p) => Indicator(q.profile == p && IsOutstanding(q.state))
    case CleanupPending => Indicator(q.cleanupPending)
    case Live => Indicator(IsLive(q))
    case Busy => Indicator(InFlight(q))
  }

  ghost function Total(m: Measure, qs: map<Id, Query>): nat {
    if qs == map[] then 0
    else var id :| id in qs; Weight(m, qs[id]) + Total(m, qs - {id})
  }

  lemma {:induction false} TotalTakesOut(m: Measure, qs: map<Id, Query>, id: Id)
    requires id in qs
    ensures Total(m, qs) == Weight(m, qs[id]) + Total(m, qs - {id})
    decreases |qs|
  {
    var first :| first in qs && Total(m, qs) == Weight(m, qs[first]) + Total(m, qs - {first});
    if first != id {
      TotalTakesOut(m, qs - {first}, id);
      TotalTakesOut(m, qs - {id}, first);
      assert qs - {first} - {id} == qs - {id} - {first};
    }
  }

  /** What each counting measure counts. */
  predicate CountsFor(m: Measure, q: Query) {
    match m
    case Retained => q.resultId != None
    case RetainedOf(p) => q.resultId != None && q.profile == p
    case Outstanding => q.state in {Queued, Running}
    case OutstandingOf(p) => q.state in {Queued, Running} && q.profile == p
    case CleanupPending => q.cleanupPending
    case Live => q.state in {Queued, Running} || q.resultId != None || q.cleanupPending
    case Busy => q.accepted && q.state in {Queued, Running}
    case _ => false
  }

  function CountedIds(m: Measure, qs: map<Id, Query>): set<Id> {
    set id | id in qs && CountsFor(m, qs[id])
  }

  lemma CountsWithout(m: Measure, qs: map<Id, Query>, id: Id)
    requires id in qs
    ensures CountedIds(m, qs - {id}) == CountedIds(m, qs) - {id}
    ensures id in CountedIds(m, qs) <==> CountsFor(m, qs[id])
  {
    hide CountsFor;
  }

  lemma OneIsCounted(m: Measure, q: Query)
    requires !m.Bytes? && !m.BytesOf?
    ensures Weight(m, q) == if CountsFor(m, q) then 1 else 0
  {
  }

  /** A total that is not of bytes is the number of the entries that count for it. */
  lemma {:induction false} TotalsAreCounts(m: Measure, qs: map<Id, Query>)
    requires !m.Bytes? && !m.BytesOf?
    ensures Total(m, qs) == |CountedIds(m, qs)|
    decreases |qs|
  {
    if qs == map[] {
      assert CountedIds(m, qs) == {};
    } else {
      var id :| id in qs;
      TotalTakesOut(m, qs, id);
      TotalsAreCounts(m, qs - {id});
      CountsWithout(m, qs, id);
      OneIsCounted(m, qs[id]);
      hide CountedIds, CountsFor, Weight, Total;
    }
  }

  function EntriesOf(p: Id, qs: map<Id, Query>): map<Id, Query> {
    map id | id in qs && qs[id].profile == p :: qs[id]
  }

  lemma EntriesWithout(p: Id, qs: map<Id, Query>, id: Id)
    requires id in qs
    ensures EntriesOf(p, qs - {id}) == EntriesOf(p, qs) - {id}
    ensures id in EntriesOf(p, qs) <==> qs[id].profile == p
    ensures id in EntriesOf(p, qs) ==> EntriesOf(p, qs)[id] == qs[id]
    ensures id !in EntriesOf(p, qs) ==> EntriesOf(p, qs) - {id} == EntriesOf(p, qs)
  {
  }

  lemma WeightOfProfile(p: Id, q: Query)
    ensures Weight(BytesOf(p), q) == if q.profile == p then Weight(Bytes, q) else 0
  {
  }

  /** A profile's bytes are those of its entries. */
  lemma {:induction false} BytesOfProfile(p: Id, qs: map<Id, Query>)
    ensures Total(BytesOf(p), qs) == Total(Bytes, EntriesOf(p, qs))
    decreases |qs|
  {
    if qs == map[] {
      assert EntriesOf(p, qs) == map[];
    } else {
      var id :| id in qs;
      TotalTakesOut(BytesOf(p), qs, id);
      BytesOfProfile(p, qs - {id});
      EntriesWithout(p, qs, id);
      WeightOfProfile(p, qs[id]);
      hide EntriesOf, Weight, Total;
      if qs[id].profile == p { TotalTakesOut(Bytes, EntriesOf(p, qs), id); }
    }
  }

  /** What is published is charged at its size; what is unfinished, or awaits its release
      without a known size, at its cap; and nothing else. */
  lemma ChargesAre(q: Query)
    ensures Weight(Bytes, q)
            == match q.cacheBytes
               case Some(bytes) => bytes
               case None => if q.state in {Queued, Running} || q.cleanupPending then q.limits.maximumResultBytes else 0
  {
  }

  lemma TotalOfInsert(m: Measure, qs: map<Id, Query>, id: Id, q: Query)
    requires id !in qs
    ensures Total(m, qs[id := q]) == Total(m, qs) + Weight(m, q)
  {
    TotalTakesOut(m, qs[id := q], id);
    assert qs[id := q] - {id} == qs;
  }

  lemma TotalOfReplace(m: Measure, qs: map<Id, Query>, id: Id, q: Query)
    requires id in qs
    ensures Total(m, qs[id := q]) + Weight(m, qs[id]) == Total(m, qs) + Weight(m, q)
  {
    TotalTakesOut(m, qs[id := q], id);
    TotalTakesOut(m, qs, id);
    assert qs[id := q] - {id} == qs - {id};
  }

  /** One query's metered quantities did not grow. */
  predicate Lighter(before: Query, after: Query) {
    && after.profile == before.profile
    && ChargedBytes(after) <= ChargedBytes(before)
    && (IsOutstanding(after.state) ==> IsOutstanding(before.state))
    && (IsLive(after) ==> IsLive(before))
    && (InFlight(after) ==> InFlight(before))
  }

  /** Entries only leave the table or get lighter. */
  ghost predicate Shrinks(before: map<Id, Query>, after: map<Id, Query>) {
    && after.Keys <= before.Keys
    && forall id :: id in after ==> Lighter(before[id], after[id])
  }

  predicate Budgeted(m: Measure) {
    m.Bytes? || m.BytesOf? || m.Outstanding? || m.OutstandingOf? || m.Live? || m.Busy?
  }

  /** Entries only leave the table or weigh less. */
  lemma {:induction false} LoweringWeightsLowersTotal(m: Measure, before: map<Id, Query>, after: map<Id, Query>)
    requires after.Keys <= before.Keys
    requires forall id :: id in after ==> Weight(m, after[id]) <= Weight(m, before[id])
    ensures Total(m, after) <= Total(m, before)
    decreases |before|
  {
    if before != map[] {
      var id :| id in before;
      TotalTakesOut(m, before, id);
      if id in after { TotalTakesOut(m, after, id); }
      LoweringWeightsLowersTotal(m, before - {id}, after - {id});
      assert id !in after ==> after - {id} == after;
    }
  }

  lemma ShrinkingLowersTotals(m: Measure, before: map<Id, Query>, after: map<Id, Query>)
    requires Budgeted(m) && Shrinks(before, after)
    ensures Total(m, after) <= Total(m, before)
  {
    LoweringWeightsLowersTotal(m, before, after);
  }

  lemma {:induction false} LiveIsCovered(qs: map<Id, Query>)
    ensures Total(Live, qs) <= Total(Outstanding, qs) + Total(Retained, qs) + Total(CleanupPending, qs)
    decreases |qs|
  {
    if qs != map[] {
      var id :| id in qs;
      TotalTakesOut(Live, qs, id);
      TotalTakesOut(Outstanding, qs, id);
      TotalTakesOut(Retained, qs, id);
      TotalTakesOut(CleanupPending, qs, id);
      LiveIsCovered(qs - {id});
    }
  }

  lemma {:induction false} NoneBusy(qs: map<Id, Query>)
    requires forall id :: id in qs ==> !InFlight(qs[id])
    ensures Total(Busy, qs) == 0
    decreases |qs|
  {
    if qs != map[] {
      var id :| id in qs;
      TotalTakesOut(Busy, qs, id);
      NoneBusy(qs - {id});
    }
  }

  /** Two entries in flight weigh at least two. */
  lemma TwoBusy(qs: map<Id, Query>, i: Id, j: Id)
    requires i in qs && j in qs && i != j && InFlight(qs[i]) && InFlight(qs[j])
    ensures Total(Busy, qs) >= 2
  {
    TotalTakesOut(Busy, qs, i);
    TotalTakesOut(Busy, qs - {i}, j);
  }

  /** Summing one quantity over the table, in whatever order the keys come. */
  method Metered(m: Measure, qs: map<Id, Query>) returns (total: nat)
    ensures total == Total(m, qs)
  {
    total := 0;
    var rest := qs;
    while rest != map[]
      invariant rest.Keys <= qs.Keys && forall id :: id in rest ==> rest[id] == qs[id]
      invariant total + Total(m, rest) == Total(m, qs)
      decreases |rest|
    {
      var id :| id in rest;
      TotalTakesOut(m, rest, id);
      total := total + Weight(m, rest[id]);
      rest := rest - {id};
    }
  }
}
