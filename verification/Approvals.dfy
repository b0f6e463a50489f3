/** User approvals of agent statements and exports: proposed by a connection,
    decided by the user, consumed once. */
module Approvals {
  import opened Basics

  const MAX_PENDING_APPROVALS: nat := 16
  const MAX_PENDING_APPROVALS_PER_CLIENT: nat := 4
  const APPROVAL_LIFETIME: Millis := 120_000

  datatype ApprovalState = Pending | Approved | Denied | Expired | Used | Failed

  datatype Kind = Sql | Export(exportId: Id)

  datatype Approval = Approval(
    kind: Kind,
    connection: Id,
    profile: Id,
    project: Id,
    phrase: Option<string>,
    state: ApprovalState,
    createdAt: Millis)

  type Book = map<Id, Approval>

  /** How far an approval has come; it never goes back. */
  function Rank(s: ApprovalState): nat {
    match s
    case Pending => 0
    case Approved => 1
    case _ => 2
  }

  // ---------------------------------------------------------------------
  // Operations on the book.
  // ---------------------------------------------------------------------

  function Expire(p: Approval, now: Millis): Approval {
    if (p.state.Pending? || p.state.Approved?) && Elapsed(now, p.createdAt) >= APPROVAL_LIFETIME
    then p.(state := Expired) else p
  }

  function PruneBook(book: Book, now: Millis): Book {
    map id | id in book :: Expire(book[id], now)
  }

  function PendingIds(book: Book): set<Id> {
    set id | id in book && book[id].state.Pending?
  }

  function PendingOf(book: Book, profile: Id): set<Id> {
    set id | id in book && book[id].state.Pending? && book[id].profile == profile
  }

  predicate HasRoom(book: Book, profile: Id) {
    |PendingIds(book)| < MAX_PENDING_APPROVALS && |PendingOf(book, profile)| < MAX_PENDING_APPROVALS_PER_CLIENT
  }

  function UpperCase(s: string): string {
    if s == [] then []
    else [if 'a' <= s[0] <= 'z' then s[0] - 'a' + 'A' else s[0]] + UpperCase(s[1..])
  }

  /** The words a critical approval makes the user type. */
  function CriticalPhrase(id: Id): string {
    "APPROVE " + UpperCase(id[..Min(8, |id|)])
  }

  function Propose(book: Book, id: Id, kind: Kind, conn: Id, profile: Id, project: Id, critical: bool,
                   pruned: Millis, now: Millis): Book {
    var b := PruneBook(book, pruned);
    if !HasRoom(b, profile) then b
    else b[id := Approval(kind, conn, profile, project,
                          if critical then Some(CriticalPhrase(id)) else None, Pending, now)]
  }

  datatype Verdict = Recorded | Missing | NoLongerPending | PhraseMismatch

  function DecisionVerdict(b: Book, id: Id, approve: bool, typed: Option<string>, now: Millis): Verdict {
    if id !in b then Missing
    else if !b[id].state.Pending? || Elapsed(now, b[id].createdAt) >= APPROVAL_LIFETIME then NoLongerPending
    else if approve && b[id].phrase.Some? && typed != b[id].phrase then PhraseMismatch
    else Recorded
  }

  /** The user's decision; `pruned` and `now` are the clock readings of the pruning
      and of the deadline test. */
  function Decide(book: Book, id: Id, approve: bool, typed: Option<string>, pruned: Millis, now: Millis): Book {
    var b := PruneBook(book, pruned);
    match DecisionVerdict(b, id, approve, typed, now)
    case Missing => b
    case NoLongerPending => b[id := b[id].(state := Expired)]
    case PhraseMismatch => b
    case Recorded => b[id := b[id].(state := if approve then Approved else Denied)]
  }

  datatype Claim = Claimed | Unknown | WrongKind | OwnerMismatch | TooLate | NotApproved

  /** Using up an approval: a statement is executed by the connection and profile
      that proposed it, an export is started for the connection that proposed it. */
  function ClaimVerdict(b: Book, id: Id, kind: Kind, conn: Id, profile: Id, now: Millis): Claim {
    if id !in b then Unknown
    else if kind.Export? && (b[id].kind != kind || b[id].connection != conn) then Unknown
    else if kind.Sql? && !b[id].kind.Sql? then WrongKind
    else if kind.Sql? && (b[id].connection != conn || b[id].profile != profile) then OwnerMismatch
    else if Elapsed(now, b[id].createdAt) >= APPROVAL_LIFETIME then TooLate
    else if !b[id].state.Approved? then NotApproved
    else Claimed
  }

  function Consume(book: Book, id: Id, kind: Kind, conn: Id, profile: Id, pruned: Millis, now: Millis): Book {
    var b := PruneBook(book, pruned);
    match ClaimVerdict(b, id, kind, conn, profile, now)
    case Claimed => b[id := b[id].(state := Used)]
    case TooLate => b[id := b[id].(state := Expired)]
    case _ => b
  }

  function MarkFailed(book: Book, id: Id): Book {
    if id !in book then book else book[id := book[id].(state := Failed)]
  }

  function CancelExport(book: Book, id: Id, exportId: Id): Book {
    if id in book && book[id].kind == Export(exportId) && Rank(book[id].state) < 2
    then book[id := book[id].(state := Denied)] else book
  }

  datatype Scope =
    | OfConnection(connection: Id)   // the connection closed
    | OfProfile(profile: Id)         // the client was revoked
    | Everyone                       // agent access was switched off
    | OfProject(project: Id)         // the project was closed

  predicate Hit(p: Approval, scope: Scope) {
    match scope
    case OfConnection(c) => p.connection == c && p.state.Pending?
    case OfProfile(c) => p.profile == c && p.state.Pending?
    case Everyone => p.state.Pending?
    case OfProject(c) => p.project == c && Rank(p.state) < 2
  }

  function Withdraw(book: Book, scope: Scope): Book {
    map id | id in book :: if Hit(book[id], scope) then book[id].(state := Denied) else book[id]
  }

  // ---------------------------------------------------------------------
  // The life of one approval, as seen from outside.
  // ---------------------------------------------------------------------

  datatype Event =
    | Proposed(kind: Kind, connection: Id, profile: Id, phrase: Option<string>, at: Millis)
    | Decided(approve: bool, typed: Option<string>, at: Millis)
    | Consumed(kind: Kind, connection: Id, profile: Id, at: Millis)

  /** Proposed, then at most one decision, then at most one use: by the connection
      that proposed it, after a decision to approve with the exact phrase where one
      is asked for, and strictly within the lifetime of the approval. */
  predicate OneUse(life: seq<Event>) {
    && 1 <= |life| <= 3
    && life[0].Proposed?
    && (|life| >= 2 ==>
          && life[1].Decided?
          && life[0].at <= life[1].at < life[0].at + APPROVAL_LIFETIME
          && (life[1].approve && life[0].phrase.Some? ==> life[1].typed == life[0].phrase))
    && (|life| == 3 ==>
          && life[1].approve
          && life[2].Consumed?
          && life[2].kind == life[0].kind
          && life[2].connection == life[0].connection
          && (life[0].kind.Sql? ==> life[2].profile == life[0].profile)
          && life[1].at <= life[2].at < life[0].at + APPROVAL_LIFETIME)
  }

  datatype Ledger = Ledger(book: Book, clock: Millis, lives: map<Id, seq<Event>>)

  datatype Act =
    | Proposes(id: Id, kind: Kind, conn: Id, profile: Id, project: Id, critical: bool)
    | Decides(id: Id, approve: bool, typed: Option<string>)
    | Uses(id: Id, kind: Kind, conn: Id, profile: Id)
    | Fails(id: Id)
    | CancelsExport(id: Id, exportId: Id)
    | Withdraws(scope: Scope)
    | Looks
    | ShutsDown

  function Record(lives: map<Id, seq<Event>>, id: Id, e: Event): map<Id, seq<Event>> {
    lives[id := (if id in lives then lives[id] else []) + [e]]
  }

  /** Identifiers are fresh, and the clock does not go back within or between acts. */
  predicate Possible(l: Ledger, act: Act, pruned: Millis, now: Millis) {
    && l.clock <= pruned <= now
    && (act.Proposes? ==> act.id !in l.lives)
  }

  function Perform(l: Ledger, act: Act, pruned: Millis, now: Millis): Ledger {
    var b := PruneBook(l.book, pruned);
    match act
    case Proposes(id, kind, conn, profile, project, critical) =>
      Ledger(Propose(l.book, id, kind, conn, profile, project, critical, pruned, now), now,
             if HasRoom(b, profile)
             then Record(l.lives, id, Proposed(kind, conn, profile,
                                               if critical then Some(CriticalPhrase(id)) else None, now))
             else l.lives)
    case Decides(id, approve, typed) =>
      Ledger(Decide(l.book, id, approve, typed, pruned, now), now,
             if DecisionVerdict(b, id, approve, typed, now).Recorded?
             then Record(l.lives, id, Decided(approve, typed, now)) else l.lives)
    case Uses(id, kind, conn, profile) =>
      Ledger(Consume(l.book, id, kind, conn, profile, pruned, now), now,
             if ClaimVerdict(b, id, kind, conn, profile, now).Claimed?
             then Record(l.lives, id, Consumed(kind, conn, profile, now)) else l.lives)
    case Fails(id) => l.(book := MarkFailed(l.book, id), clock := now)
    case CancelsExport(id, exportId) => l.(book := CancelExport(l.book, id, exportId), clock := now)
    case Withdraws(scope) => l.(book := Withdraw(l.book, scope), clock := now)
    case Looks => l.(book := b, clock := now)
    case ShutsDown => l.(book := map[], clock := now)
  }

  const EMPTY_LEDGER := Ledger(map[], 0, map[])

  predicate Tracks(p: Approval, life: seq<Event>, clock: Millis) {
    && OneUse(life)
    && life[0] == Proposed(p.kind, p.connection, p.profile, p.phrase, p.createdAt)
    && life[|life| - 1].at <= clock
    && (p.state.Pending? ==> |life| == 1)
    && (p.state.Approved? ==> |life| == 2 && life[1].approve)
    && (|life| == 3 ==> Rank(p.state) == 2)
  }

  ghost predicate Kept(l: Ledger) {
    && (forall id :: id in l.lives ==> OneUse(l.lives[id]))
    && (forall id :: id in l.book ==> id in l.lives && Tracks(l.book[id], l.lives[id], l.clock))
  }

  /** An entry that only expired, was denied, used or failed is still tracked by its life. */
  lemma EndedIsTracked(p: Approval, p': Approval, life: seq<Event>, clock: Millis, now: Millis)
    requires Tracks(p, life, clock) && clock <= now
    requires p' == p || (p' == p.(state := p'.state) && Rank(p'.state) == 2)
    ensures Tracks(p', life, now)
  {
  }

  /** Acts that add nothing to any life. */
  lemma QuietActKeepsLedger(l: Ledger, book: Book, now: Millis)
    requires Kept(l) && l.clock <= now && book.Keys <= l.book.Keys
    requires forall id :: id in book ==>
               book[id] == l.book[id]
               || (book[id] == l.book[id].(state := book[id].state) && Rank(book[id].state) == 2)
    ensures Kept(l.(book := book, clock := now))
  {
    forall id | id in book ensures Tracks(book[id], l.lives[id], now) {
      EndedIsTracked(l.book[id], book[id], l.lives[id], l.clock, now);
    }
  }

  lemma PruningKeepsLedger(l: Ledger, pruned: Millis)
    requires Kept(l) && l.clock <= pruned
    ensures Kept(l.(book := PruneBook(l.book, pruned), clock := pruned))
  {
    QuietActKeepsLedger(l, PruneBook(l.book, pruned), pruned);
  }

  /** An act that extends the life of one entry. */
  lemma EventfulActKeepsLedger(l: Ledger, id: Id, p: Approval, e: Event, now: Millis)
    requires Kept(l) && l.clock <= now
    requires Tracks(p, (if id in l.lives then l.lives[id] else []) + [e], now)
    ensures Kept(Ledger(l.book[id := p], now, Record(l.lives, id, e)))
  {
  }

  lemma ProposalKeepsLedger(l: Ledger, act: Act, pruned: Millis, now: Millis)
    requires act.Proposes? && Kept(l) && Possible(l, act, pruned, now)
    ensures Kept(Perform(l, act, pruned, now))
  {
    PruningKeepsLedger(l, pruned);
    var b := PruneBook(l.book, pruned);
    hide PruneBook, CriticalPhrase;
    if HasRoom(b, act.profile) {
      var phrase := if act.critical then Some(CriticalPhrase(act.id)) else None;
      var e := Proposed(act.kind, act.conn, act.profile, phrase, now);
      assert [] + [e] == [e];
      EventfulActKeepsLedger(l.(book := b, clock := pruned), act.id,
                             Approval(act.kind, act.conn, act.profile, act.project, phrase, Pending, now), e, now);
    }
  }

  lemma DecisionKeepsLedger(l: Ledger, act: Act, pruned: Millis, now: Millis)
    requires act.Decides? && Kept(l) && Possible(l, act, pruned, now)
    ensures Kept(Perform(l, act, pruned, now))
  {
    PruningKeepsLedger(l, pruned);
    var b := PruneBook(l.book, pruned);
    var m := l.(book := b, clock := pruned);
    if DecisionVerdict(b, act.id, act.approve, act.typed, now).Recorded? {
      var p := b[act.id];
      assert Tracks(p, l.lives[act.id], pruned);
      EventfulActKeepsLedger(m, act.id, p.(state := if act.approve then Approved else Denied),
                             Decided(act.approve, act.typed, now), now);
    } else {
      QuietActKeepsLedger(m, Decide(l.book, act.id, act.approve, act.typed, pruned, now), now);
    }
  }

  lemma UseKeepsLedger(l: Ledger, act: Act, pruned: Millis, now: Millis)
    requires act.Uses? && Kept(l) && Possible(l, act, pruned, now)
    ensures Kept(Perform(l, act, pruned, now))
  {
    PruningKeepsLedger(l, pruned);
    var b := PruneBook(l.book, pruned);
    var m := l.(book := b, clock := pruned);
    if ClaimVerdict(b, act.id, act.kind, act.conn, act.profile, now).Claimed? {
      var p := b[act.id];
      assert Tracks(p, l.lives[act.id], pruned);
      EventfulActKeepsLedger(m, act.id, p.(state := Used), Consumed(act.kind, act.conn, act.profile, now), now);
    } else {
      QuietActKeepsLedger(m, Consume(l.book, act.id, act.kind, act.conn, act.profile, pruned, now), now);
    }
  }

  lemma ActKeepsLedger(l: Ledger, act: Act, pruned: Millis, now: Millis)
    requires Kept(l) && Possible(l, act, pruned, now)
    ensures Kept(Perform(l, act, pruned, now))
  {
    match act
    case Proposes(id, kind, conn, profile, project, critical) => ProposalKeepsLedger(l, act, pruned, now);
    case Decides(id, approve, typed) => DecisionKeepsLedger(l, act, pruned, now);
    case Uses(id, kind, conn, profile) => UseKeepsLedger(l, act, pruned, now);
    case Fails(id) => QuietActKeepsLedger(l, MarkFailed(l.book, id), now);
    case CancelsExport(id, exportId) => QuietActKeepsLedger(l, CancelExport(l.book, id, exportId), now);
    case Withdraws(scope) => QuietActKeepsLedger(l, Withdraw(l.book, scope), now);
    case Looks => QuietActKeepsLedger(l, PruneBook(l.book, pruned), now);
    case ShutsDown =>
  }

  lemma ActNeverGoesBack(l: Ledger, act: Act, pruned: Millis, now: Millis, id: Id)
    requires Kept(l) && Possible(l, act, pruned, now)
    requires id in l.book && id in Perform(l, act, pruned, now).book
    ensures Rank(Perform(l, act, pruned, now).book[id].state) >= Rank(l.book[id].state)
    ensures Perform(l, act, pruned, now).book[id].state.Approved? && !l.book[id].state.Approved? ==>
              act.Decides? && act.id == id && act.approve && l.book[id].state.Pending?
    ensures Perform(l, act, pruned, now).book[id].state.Pending? ==> l.book[id].state.Pending?
  {
    hide Tracks, HasRoom, CriticalPhrase, Record, OneUse;
    if act.Proposes? { NewApprovalWasNotThere(l, act, id); }
    hide Kept;
  }

  lemma NewApprovalWasNotThere(l: Ledger, act: Act, id: Id)
    requires Kept(l) && act.Proposes? && act.id !in l.lives && id in l.book
    ensures act.id != id
  {
  }

  // ---------------------------------------------------------------------
  // Whole runs.
  // ---------------------------------------------------------------------

  datatype Timed = Timed(act: Act, pruned: Millis, now: Millis)

  ghost predicate Course(l: Ledger, acts: seq<Timed>, l': Ledger)
    decreases |acts|
  {
    if acts == [] then l' == l
    else
      && Possible(l, acts[0].act, acts[0].pruned, acts[0].now)
      && Course(Perform(l, acts[0].act, acts[0].pruned, acts[0].now), acts[1..], l')
  }

  lemma {:induction false} CoursesKeepLedger(l: Ledger, acts: seq<Timed>, l': Ledger)
    requires Kept(l) && Course(l, acts, l')
    ensures Kept(l')
    decreases |acts|
  {
    if acts != [] {
      ActKeepsLedger(l, acts[0].act, acts[0].pruned, acts[0].now);
      CoursesKeepLedger(Perform(l, acts[0].act, acts[0].pruned, acts[0].now), acts[1..], l');
    }
  }

  /** Over every course of events, the life of every approval is a one-use life. */
  lemma ApprovalsAreOneUse(acts: seq<Timed>, l: Ledger, id: Id)
    requires Course(EMPTY_LEDGER, acts, l) && id in l.lives
    ensures OneUse(l.lives[id])
  {
    CoursesKeepLedger(EMPTY_LEDGER, acts, l);
  }

  /** No approval ever returns to Pending or Approved: along every continuation its
      rank does not go down, unless a shutdown clears the book, after which the
      approval is never seen again. */
  lemma {:induction false} RanksOnlyRise(l: Ledger, acts: seq<Timed>, l': Ledger, id: Id)
    requires Kept(l) && Course(l, acts, l') && id in l.lives
    requires id in l'.book
    ensures id in l.book && Rank(l'.book[id].state) >= Rank(l.book[id].state)
    ensures l'.book[id].state.Pending? ==> l.book[id].state.Pending?
    ensures l'.book[id].state.Approved? ==> l.book[id].state.Pending? || l.book[id].state.Approved?
    decreases |acts|
  {
    if acts != [] {
      var act, pruned, now := acts[0].act, acts[0].pruned, acts[0].now;
      var next := Perform(l, act, pruned, now);
      ActKeepsLedger(l, act, pruned, now);
      LivesStay(l, act, pruned, now, id);
      RanksOnlyRise(next, acts[1..], l', id);
      ActNeverGoesBack(l, act, pruned, now, id);
    }
  }

  lemma LivesStay(l: Ledger, act: Act, pruned: Millis, now: Millis, id: Id)
    requires Possible(l, act, pruned, now) && id in l.lives
    ensures id in Perform(l, act, pruned, now).lives
    ensures id in Perform(l, act, pruned, now).book ==> id in l.book
  {
  }

  /** Nothing more happens to an approval that has ended, or left the book. */
  lemma EndedActAddsNothing(l: Ledger, act: Act, pruned: Millis, now: Millis, id: Id)
    requires Kept(l) && Possible(l, act, pruned, now) && id in l.lives
    requires id in l.book ==> Rank(l.book[id].state) == 2
    ensures var m := Perform(l, act, pruned, now);
            && id in m.lives && m.lives[id] == l.lives[id]
            && (id in m.book ==> Rank(m.book[id].state) == 2)
  {
    LivesStay(l, act, pruned, now, id);
    if id in Perform(l, act, pruned, now).book { ActNeverGoesBack(l, act, pruned, now, id); }
  }

  lemma {:induction false} EndedLivesStayAsTheyAre(l: Ledger, acts: seq<Timed>, l': Ledger, id: Id)
    requires Kept(l) && Course(l, acts, l') && id in l.lives
    requires id in l.book ==> Rank(l.book[id].state) == 2
    ensures id in l'.lives && l'.lives[id] == l.lives[id]
    decreases |acts|
  {
    if acts != [] {
      var act, pruned, now := acts[0].act, acts[0].pruned, acts[0].now;
      ActKeepsLedger(l, act, pruned, now);
      EndedActAddsNothing(l, act, pruned, now, id);
      EndedLivesStayAsTheyAre(Perform(l, act, pruned, now), acts[1..], l', id);
    }
  }

  /** Once an export's approval is cancelled, no course of events decides it or uses it up. */
  lemma CancelledApprovalIsNeverUsed(l: Ledger, id: Id, exportId: Id, pruned: Millis, now: Millis,
                                     acts: seq<Timed>, l': Ledger)
    requires Kept(l) && Possible(l, CancelsExport(id, exportId), pruned, now)
    requires id in l.book && l.book[id].kind == Export(exportId)
    requires Course(Perform(l, CancelsExport(id, exportId), pruned, now), acts, l')
    ensures id in l'.lives && l'.lives[id] == l.lives[id]
  {
    ActKeepsLedger(l, CancelsExport(id, exportId), pruned, now);
    EndedLivesStayAsTheyAre(Perform(l, CancelsExport(id, exportId), pruned, now), acts, l', id);
  }

  /** The same of the approvals that closing a connection, revoking a client, switching
      access off or closing a project withdraws. */
  lemma WithdrawnApprovalIsNeverUsed(l: Ledger, id: Id, scope: Scope, pruned: Millis, now: Millis,
                                     acts: seq<Timed>, l': Ledger)
    requires Kept(l) && Possible(l, Withdraws(scope), pruned, now)
    requires id in l.book
    requires match scope
             case OfConnection(c) => l.book[id].connection == c && l.book[id].state.Pending?
             case OfProfile(c) => l.book[id].profile == c && l.book[id].state.Pending?
             case Everyone => l.book[id].state.Pending?
             case OfProject(c) => l.book[id].project == c
    requires Course(Perform(l, Withdraws(scope), pruned, now), acts, l')
    ensures id in l'.lives && l'.lives[id] == l.lives[id]
  {
    ActKeepsLedger(l, Withdraws(scope), pruned, now);
    EndedLivesStayAsTheyAre(Perform(l, Withdraws(scope), pruned, now), acts, l', id);
  }

  // ---------------------------------------------------------------------
  // The book, updated in place.
  // ---------------------------------------------------------------------

  class ApprovalBook {
    var entries: Book

    constructor ()
      ensures entries == map[]
    {
      entries := map[];
    }

    method Prune(now: Millis)
      modifies this
      ensures entries == PruneBook(old(entries), now)
    {
      ghost var was := entries;
      var rest := entries.Keys;
      while rest != {}
        invariant rest <= was.Keys && entries.Keys == was.Keys
        invariant forall id :: id in was ==> entries[id] == if id in rest then was[id] else Expire(was[id], now)
        decreases rest
      {
        var id :| id in rest;
        if Rank(entries[id].state) < 2 && Elapsed(now, entries[id].createdAt) >= APPROVAL_LIFETIME {
          entries := entries[id := entries[id].(state := Expired)];
        }
        rest := rest - {id};
      }
    }

    method ProposeApproval(id: Id, kind: Kind, conn: Id, profile: Id, project: Id, critical: bool,
                           pruned: Millis, now: Millis) returns (created: bool)
      modifies this
      ensures entries == Propose(old(entries), id, kind, conn, profile, project, critical, pruned, now)
      ensures created == HasRoom(PruneBook(old(entries), pruned), profile)
    {
      Prune(pruned);
      if |PendingIds(entries)| >= MAX_PENDING_APPROVALS
         || |PendingOf(entries, profile)| >= MAX_PENDING_APPROVALS_PER_CLIENT {
        return false;
      }
      entries := entries[id := Approval(kind, conn, profile, project,
                                        if critical then Some(CriticalPhrase(id)) else None, Pending, now)];
      return true;
    }

    method DecideApproval(id: Id, approve: bool, typed: Option<string>, pruned: Millis, now: Millis)
      returns (verdict: Verdict)
      modifies this
      ensures entries == Decide(old(entries), id, approve, typed, pruned, now)
      ensures verdict == DecisionVerdict(PruneBook(old(entries), pruned), id, approve, typed, now)
    {
      Prune(pruned);
      if id !in entries { return Missing; }
      var p := entries[id];
      if !p.state.Pending? || Elapsed(now, p.createdAt) >= APPROVAL_LIFETIME {
        entries := entries[id := p.(state := Expired)];
        return NoLongerPending;
      }
      if approve {
        if p.phrase.Some? && typed != p.phrase { return PhraseMismatch; }
        entries := entries[id := p.(state := Approved)];
      } else {
        entries := entries[id := p.(state := Denied)];
      }
      return Recorded;
    }

    method ConsumeApproval(id: Id, kind: Kind, conn: Id, profile: Id, pruned: Millis, now: Millis)
      returns (claim: Claim)
      modifies this
      ensures entries == Consume(old(entries), id, kind, conn, profile, pruned, now)
      ensures claim == ClaimVerdict(PruneBook(old(entries), pruned), id, kind, conn, profile, now)
    {
      Prune(pruned);
      if id !in entries { return Unknown; }
      var p := entries[id];
      if kind.Export? {
        if p.kind != kind || p.connection != conn { return Unknown; }
      } else {
        if !p.kind.Sql? { return WrongKind; }
        if p.connection != conn || p.profile != profile { return OwnerMismatch; }
      }
      if Elapsed(now, p.createdAt) >= APPROVAL_LIFETIME {
        entries := entries[id := p.(state := Expired)];
        return TooLate;
      }
      if !p.state.Approved? { return NotApproved; }
      entries := entries[id := p.(state := Used)];
      return Claimed;
    }

    method CancelExportApproval(id: Id, exportId: Id)
      modifies this
      ensures entries == CancelExport(old(entries), id, exportId)
    {
      if id in entries && entries[id].kind == Export(exportId)
         && (entries[id].state.Pending? || entries[id].state.Approved?) {
        entries := entries[id := entries[id].(state := Denied)];
      }
    }

    method WithdrawPending(scope: Scope)
      modifies this
      ensures entries == Withdraw(old(entries), scope)
    {
      ghost var was := entries;
      var rest := entries.Keys;
      while rest != {}
        invariant rest <= was.Keys && entries.Keys == was.Keys
        invariant forall id :: id in was ==>
                    entries[id] == if id !in rest && Hit(was[id], scope) then was[id].(state := Denied) else was[id]
        decreases rest
      {
        var id :| id in rest;
        if Hit(entries[id], scope) { entries := entries[id := entries[id].(state := Denied)]; }
        rest := rest - {id};
      }
    }
  }
}
