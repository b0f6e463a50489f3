/** What proposals, decisions and uses achieve: an approval shows what has happened to it
    for as long as nothing else ends it, and what was approved in time can be used. */
module ApprovalEffects {
  import opened Basics
  import opened Approvals

  /** The state that an approval's life calls for. */
  predicate ShowsLife(p: Approval, life: seq<Event>) {
    || (|life| == 1 && p.state.Pending?)
    || (|life| == 2 && life[1].Decided? && p.state == if life[1].approve then Approved else Denied)
    || (|life| == 3 && p.state.Used?)
  }

  /** The withdrawal does not concern this approval: another owner, or an approved one while
      only pending ones are withdrawn. */
  predicate Spared(p: Approval, scope: Scope) {
    match scope
    case OfConnection(c) => p.connection != c || p.state.Approved?
    case OfProfile(c) => p.profile != c || p.state.Approved?
    case Everyone => p.state.Approved?
    case OfProject(c) => p.project != c
  }

  /** The act neither fails, cancels nor withdraws the approval, nor decides it again. */
  predicate Harmless(act: Act, id: Id, p: Approval) {
    match act
    case Decides(i, _, _) => i != id || p.state.Pending?
    case Fails(i) => i != id
    case CancelsExport(i, exportId) => i != id || p.kind != Export(exportId)
    case Withdraws(scope) => Rank(p.state) == 2 || Spared(p, scope)
    case ShutsDown => false
    case _ => true
  }

  lemma PruningShowsLife(l: Ledger, pruned: Millis, id: Id)
    requires id in l.book && (Rank(l.book[id].state) < 2 ==> pruned < l.book[id].createdAt + 120_000)
    ensures PruneBook(l.book, pruned)[id] == l.book[id]
  {
  }

  /** While fresh, an approval goes on showing its life through every harmless act. */
  lemma ActShowsLife(l: Ledger, act: Act, pruned: Millis, now: Millis, id: Id)
    requires Kept(l) && Possible(l, act, pruned, now)
    requires id in l.book && ShowsLife(l.book[id], l.lives[id]) && Harmless(act, id, l.book[id])
    requires now < l.book[id].createdAt + 120_000
    ensures var m := Perform(l, act, pruned, now);
            && id in m.book && id in m.lives && ShowsLife(m.book[id], m.lives[id])
            && m.book[id].(state := l.book[id].state) == l.book[id]
  {
    PruningShowsLife(l, pruned, id);
    var life := l.lives[id];
    assert Tracks(l.book[id], life, l.clock);
    hide HasRoom, CriticalPhrase, Expire;
    if act.Proposes? { NewApprovalWasNotThere(l, act, id); }
    hide Kept, Tracks;
  }

  /** A proposal for which there is room is pending, in its proposer's name. */
  lemma ProposalIsRecorded(l: Ledger, act: Act, pruned: Millis, now: Millis)
    requires act.Proposes? && Possible(l, act, pruned, now)
    requires |PendingIds(PruneBook(l.book, pruned))| < 16 && |PendingOf(PruneBook(l.book, pruned), act.profile)| < 4
    ensures var m := Perform(l, act, pruned, now);
            && act.id in m.book && act.id in m.lives && m.book[act.id].state.Pending?
            && m.lives[act.id] == [Proposed(act.kind, act.conn, act.profile,
                                            if act.critical then Some(CriticalPhrase(act.id)) else None, now)]
  {
    hide PruneBook, CriticalPhrase;
  }

  /** A decision on a pending approval counts if it comes in time and, to approve a critical
      one, with its phrase. */
  lemma DecisionIsRecorded(l: Ledger, act: Act, pruned: Millis, now: Millis)
    requires act.Decides? && Kept(l) && Possible(l, act, pruned, now)
    requires act.id in l.book && l.book[act.id].state.Pending? && now < l.book[act.id].createdAt + 120_000
    ensures act.id in l.lives
    ensures var m, p := Perform(l, act, pruned, now), l.book[act.id];
            m.lives[act.id]
            == if act.approve && p.phrase.Some? && act.typed != p.phrase then l.lives[act.id]
               else l.lives[act.id] + [Decided(act.approve, act.typed, now)]
  {
    PruningShowsLife(l, pruned, act.id);
  }

  /** A use of an approved approval counts exactly if it comes from the connection, for a
      statement also the profile, that proposed it, and for what was proposed. */
  lemma UseIsRecorded(l: Ledger, act: Act, pruned: Millis, now: Millis)
    requires act.Uses? && Kept(l) && Possible(l, act, pruned, now)
    requires act.id in l.book && l.book[act.id].state.Approved? && now < l.book[act.id].createdAt + 120_000
    ensures act.id in l.lives
    ensures var m, p := Perform(l, act, pruned, now), l.book[act.id];
            var entitled := p.kind == act.kind && p.connection == act.conn
                            && (act.kind.Sql? ==> p.profile == act.profile);
            m.lives[act.id]
            == if entitled then l.lives[act.id] + [Consumed(act.kind, act.conn, act.profile, now)] else l.lives[act.id]
  {
    PruningShowsLife(l, pruned, act.id);
  }

  /** What is still pending or approved after 120 seconds expires at the next look. */
  lemma LateIsExpired(l: Ledger, pruned: Millis, now: Millis, id: Id)
    requires Possible(l, Looks, pruned, now) && id in l.book && Rank(l.book[id].state) < 2
    ensures id in Perform(l, Looks, pruned, now).book
    ensures Perform(l, Looks, pruned, now).book[id].state.Expired? <==> pruned >= l.book[id].createdAt + 120_000
  {
  }

  /** The answers to a decision and to a use say what was wrong: first whether the approval is
      there, then whose it is, then its age and its state. */
  lemma AnswersSayWhy(b: Book, id: Id, approve: bool, typed: Option<string>, kind: Kind, conn: Id, profile: Id,
                      now: Millis)
    requires id in b && b[id].createdAt <= now
    ensures var p, verdict := b[id], DecisionVerdict(b, id, approve, typed, now);
            var open := p.state == Pending && now < p.createdAt + 120_000;
            && (verdict == NoLongerPending <==> !open)
            && (verdict == PhraseMismatch <==> open && approve && p.phrase.Some? && typed != p.phrase)
            && (verdict == Recorded <==> open && !(approve && p.phrase.Some? && typed != p.phrase))
    ensures var p, claim := b[id], ClaimVerdict(b, id, kind, conn, profile, now);
            var own := p.kind == kind && p.connection == conn && (kind == Sql ==> p.profile == profile);
            && (claim == Claimed <==> own && now < p.createdAt + 120_000 && p.state == Approved)
            && (claim == NotApproved <==> own && now < p.createdAt + 120_000 && p.state != Approved)
            && (claim == TooLate <==> own && now >= p.createdAt + 120_000)
            && (claim == WrongKind <==> kind == Sql && p.kind != Sql)
            && (claim == OwnerMismatch <==> kind == Sql && p.kind == Sql && !own)
            && (claim == Unknown <==> kind != Sql && !own)
  {
  }

  /** A use or a decision that comes too late finds the approval expired. */
  lemma LateActsExpire(l: Ledger, act: Act, pruned: Millis, now: Millis)
    requires Possible(l, act, pruned, now) && (act.Uses? || act.Decides?)
    requires act.id in l.book && l.book[act.id].state in {Pending, Approved}
    requires act.Uses? ==> l.book[act.id].kind == act.kind && l.book[act.id].connection == act.conn
                           && l.book[act.id].profile == act.profile
    requires now >= l.book[act.id].createdAt + 120_000
    ensures act.id in Perform(l, act, pruned, now).book
    ensures Perform(l, act, pruned, now).book[act.id] == l.book[act.id].(state := Expired)
    ensures Perform(l, act, pruned, now).lives == l.lives
  {
  }

  /** A withdrawal denies what waits for a decision in its scope, of a project also what is
      approved, and leaves the rest as it is. */
  lemma WithdrawalsDeny(l: Ledger, scope: Scope, pruned: Millis, now: Millis, id: Id)
    requires id in l.book
    ensures var m, p := Perform(l, Withdraws(scope), pruned, now), l.book[id];
            var concerned := match scope
              case OfConnection(c) => p.connection == c && p.state == Pending
              case OfProfile(c) => p.profile == c && p.state == Pending
              case Everyone => p.state == Pending
              case OfProject(c) => p.project == c && p.state in {Pending, Approved};
            id in m.book && m.book[id] == if concerned then p.(state := Denied) else p
  {
  }

  // ---------------------------------------------------------------------
  // Whole courses.
  // ---------------------------------------------------------------------

  /** Every act of the course is harmless to the approval and comes before it is too old. */
  ghost predicate LeavesAlone(l: Ledger, acts: seq<Timed>, id: Id)
    decreases |acts|
  {
    acts == []
    || (id in l.book && Harmless(acts[0].act, id, l.book[id]) && acts[0].now < l.book[id].createdAt + 120_000
        && LeavesAlone(Perform(l, acts[0].act, acts[0].pruned, acts[0].now), acts[1..], id))
  }

  lemma {:induction false} FreshApprovalsShowTheirLives(l: Ledger, acts: seq<Timed>, l': Ledger, id: Id)
    requires Kept(l) && Course(l, acts, l') && LeavesAlone(l, acts, id)
    requires id in l.book && ShowsLife(l.book[id], l.lives[id])
    ensures Kept(l') && id in l'.book && ShowsLife(l'.book[id], l'.lives[id])
    ensures l'.book[id].(state := l.book[id].state) == l.book[id]
    decreases |acts|
  {
    if acts != [] {
      ActKeepsLedger(l, acts[0].act, acts[0].pruned, acts[0].now);
      ActShowsLife(l, acts[0].act, acts[0].pruned, acts[0].now, id);
      hide ShowsLife, Perform, Kept, Harmless;
      FreshApprovalsShowTheirLives(Perform(l, acts[0].act, acts[0].pruned, acts[0].now), acts[1..], l', id);
    }
  }

  predicate InTime(p: Approval, now: Millis) {
    now < p.createdAt + 120_000
  }

  /** Approving works: a pending approval that the user approves in time, with its phrase if
      it asks for one, is approved, and denying it denies it. */
  lemma DecisionsShow(before: seq<Timed>, l: Ledger, id: Id, approve: bool, typed: Option<string>,
                      pruned: Millis, now: Millis)
    requires Course(EMPTY_LEDGER, before, l) && Possible(l, Decides(id, approve, typed), pruned, now)
    requires id in l.book && l.book[id].state.Pending? && InTime(l.book[id], now)
    ensures var m := Perform(l, Decides(id, approve, typed), pruned, now);
            && id in m.book
            && m.book[id].state == (if !approve then Denied
                                    else if l.book[id].phrase in {None, typed} then Approved else Pending)
  {
    CoursesKeepLedger(EMPTY_LEDGER, before, l);
    var act := Decides(id, approve, typed);
    assert Tracks(l.book[id], l.lives[id], l.clock);
    ActShowsLife(l, act, pruned, now, id);
    DecisionIsRecorded(l, act, pruned, now);
    hide Perform, Kept, Course, Tracks;
  }

  /** And what was approved is there to be used, once: whatever else happens meanwhile, a use
      of it in time by its proposer completes its life. */
  lemma ApprovedIsUsable(before: seq<Timed>, l: Ledger, id: Id, typed: Option<string>, pruned: Millis, now: Millis,
                         more: seq<Timed>, l': Ledger, pruned': Millis, now': Millis)
    requires Course(EMPTY_LEDGER, before, l) && Possible(l, Decides(id, true, typed), pruned, now)
    requires id in l.book && l.book[id].state.Pending? && l.book[id].phrase in {None, typed}
    requires InTime(l.book[id], now) && InTime(l.book[id], now')
    requires var m := Perform(l, Decides(id, true, typed), pruned, now); Course(m, more, l') && LeavesAlone(m, more, id)
    requires Possible(l', Uses(id, l.book[id].kind, l.book[id].connection, l.book[id].profile), pruned', now')
    ensures id in l'.book && (l'.book[id].state.Approved? || l'.book[id].state.Used?)
    ensures var p := l.book[id];
            var u := Perform(l', Uses(id, p.kind, p.connection, p.profile), pruned', now');
            && id in u.lives && id in u.book && u.book[id].state.Used? && |u.lives[id]| == 3
            && (l'.book[id].state.Approved? ==> u.lives[id][2] == Consumed(p.kind, p.connection, p.profile, now'))
  {
    CoursesKeepLedger(EMPTY_LEDGER, before, l);
    var act, p := Decides(id, true, typed), l.book[id];
    var use := Uses(id, p.kind, p.connection, p.profile);
    assert Tracks(p, l.lives[id], l.clock);
    DecisionIsRecorded(l, act, pruned, now);
    ActKeepsLedger(l, act, pruned, now);
    ActShowsLife(l, act, pruned, now, id);
    var m := Perform(l, act, pruned, now);
    assert |m.lives[id]| == 2;
    hide Perform, Course, Tracks;
    FreshApprovalsShowTheirLives(m, more, l', id);
    LivesGrow(m, more, l', id);
    ActShowsLife(l', use, pruned', now', id);
    if l'.book[id].state.Approved? {
      UseIsRecorded(l', use, pruned', now');
    } else {
      LivesOnlyGrow(l', use, pruned', now', id);
    }
    hide Kept, LeavesAlone;
  }

  lemma LivesOnlyGrow(l: Ledger, act: Act, pruned: Millis, now: Millis, id: Id)
    requires Possible(l, act, pruned, now) && id in l.lives
    ensures id in Perform(l, act, pruned, now).lives && l.lives[id] <= Perform(l, act, pruned, now).lives[id]
  {
    hide PruneBook, HasRoom, CriticalPhrase;
  }

  lemma {:induction false} LivesGrow(l: Ledger, acts: seq<Timed>, l': Ledger, id: Id)
    requires Course(l, acts, l') && id in l.lives
    ensures id in l'.lives && l.lives[id] <= l'.lives[id]
    decreases |acts|
  {
    if acts != [] {
      LivesOnlyGrow(l, acts[0].act, acts[0].pruned, acts[0].now, id);
      LivesGrow(Perform(l, acts[0].act, acts[0].pruned, acts[0].now), acts[1..], l', id);
    }
  }

  // ---------------------------------------------------------------------
  // How many approvals wait.
  // ---------------------------------------------------------------------

  ghost predicate FewPending(book: Book) {
    |PendingIds(book)| <= 16 && forall profile :: |PendingOf(book, profile)| <= 4
  }

  /** Nothing becomes pending. */
  lemma FewerPending(book: Book, book': Book)
    requires FewPending(book) && book'.Keys <= book.Keys
    requires forall id :: id in book' ==> book'[id].profile == book[id].profile
                                          && (book'[id].state.Pending? ==> book[id].state.Pending?)
    ensures FewPending(book')
  {
    assert PendingIds(book') <= PendingIds(book);
    NoMore(PendingIds(book'), PendingIds(book));
    forall profile ensures |PendingOf(book', profile)| <= 4 {
      assert PendingOf(book', profile) <= PendingOf(book, profile);
      NoMore(PendingOf(book', profile), PendingOf(book, profile));
    }
  }

  lemma {:induction false} NoMore(a: set<Id>, b: set<Id>)
    requires a <= b
    ensures |a| <= |b|
  {
    if a != {} {
      var x :| x in a;
      NoMore(a - {x}, b - {x});
    }
  }

  lemma OneMorePending(book: Book, id: Id, p: Approval)
    requires FewPending(book) && HasRoom(book, p.profile)
    ensures FewPending(book[id := p])
  {
    var book' := book[id := p];
    assert PendingIds(book') <= PendingIds(book) + {id};
    NoMore(PendingIds(book'), PendingIds(book) + {id});
    forall profile ensures |PendingOf(book', profile)| <= 4 {
      var more: set<Id> := if profile == p.profile then {id} else {};
      assert PendingOf(book', profile) <= PendingOf(book, profile) + more;
      NoMore(PendingOf(book', profile), PendingOf(book, profile) + more);
    }
  }

  lemma NothingBecomesPending(l: Ledger, act: Act, pruned: Millis, now: Millis, id: Id)
    requires act.Proposes? ==> !HasRoom(PruneBook(l.book, pruned), act.profile)
    requires id in Perform(l, act, pruned, now).book
    ensures id in l.book
    ensures var p, p' := l.book[id], Perform(l, act, pruned, now).book[id];
            p'.profile == p.profile && (p'.state.Pending? ==> p.state.Pending?)
  {
    hide HasRoom, CriticalPhrase, Hit;
  }

  lemma ActKeepsFewPending(l: Ledger, act: Act, pruned: Millis, now: Millis)
    requires FewPending(l.book)
    ensures FewPending(Perform(l, act, pruned, now).book)
  {
    var b, book' := PruneBook(l.book, pruned), Perform(l, act, pruned, now).book;
    if act.Proposes? && HasRoom(b, act.profile) {
      FewerPending(l.book, b);
      hide FewPending, PruneBook, HasRoom, PendingIds, PendingOf;
      OneMorePending(b, act.id, book'[act.id]);
    } else {
      hide FewPending, Perform, HasRoom, PruneBook;
      forall id | id in book'
        ensures id in l.book && book'[id].profile == l.book[id].profile
                && (book'[id].state.Pending? ==> l.book[id].state.Pending?)
      {
        NothingBecomesPending(l, act, pruned, now, id);
      }
      FewerPending(l.book, book');
    }
  }

  lemma {:induction false} CoursesKeepFewPending(l: Ledger, acts: seq<Timed>, l': Ledger)
    requires FewPending(l.book) && Course(l, acts, l')
    ensures FewPending(l'.book)
    decreases |acts|
  {
    if acts != [] {
      ActKeepsFewPending(l, acts[0].act, acts[0].pruned, acts[0].now);
      CoursesKeepFewPending(Perform(l, acts[0].act, acts[0].pruned, acts[0].now), acts[1..], l');
    }
  }

  /** Over every course at most 16 approvals wait for a decision, four of one client. */
  lemma PendingApprovalsAreBounded(acts: seq<Timed>, l: Ledger, profile: Id)
    requires Course(EMPTY_LEDGER, acts, l)
    ensures |PendingIds(l.book)| <= 16 && |PendingOf(l.book, profile)| <= 4
  {
    CoursesKeepFewPending(EMPTY_LEDGER, acts, l);
  }

  // ---------------------------------------------------------------------
  // The phrase of a critical approval.
  // ---------------------------------------------------------------------

  function UpperOf(c: char): char {
    if 'a' <= c <= 'z' then c - 'a' + 'A' else c
  }

  lemma {:induction false} UpperCaseIsCharByChar(s: string, k: nat)
    requires k < |s|
    ensures |UpperCase(s)| == |s| && UpperCase(s)[k] == UpperOf(s[k])
  {
    if k > 0 { UpperCaseIsCharByChar(s[1..], k - 1); } else if |s| > 1 { UpperCaseIsCharByChar(s[1..], 0); }
  }

  lemma {:induction false} UpperCasesAgreeIff(a: string, b: string)
    requires |a| == |b|
    ensures UpperCase(a) == UpperCase(b) <==> forall k :: 0 <= k < |a| ==> UpperOf(a[k]) == UpperOf(b[k])
  {
    if a != [] {
      UpperCasesAgreeIff(a[1..], b[1..]);
      assert UpperCase(a) == [UpperOf(a[0])] + UpperCase(a[1..]) && UpperCase(b) == [UpperOf(b[0])] + UpperCase(b[1..]);
      hide UpperCase, UpperOf;
      assert (forall k :: 0 <= k < |a| ==> UpperOf(a[k]) == UpperOf(b[k]))
        <==> UpperOf(a[0]) == UpperOf(b[0]) && forall k :: 0 <= k < |a| - 1 ==> UpperOf(a[1..][k]) == UpperOf(b[1..][k])
      by {
        if UpperOf(a[0]) == UpperOf(b[0]) && forall k :: 0 <= k < |a| - 1 ==> UpperOf(a[1..][k]) == UpperOf(b[1..][k]) {
          forall k | 0 <= k < |a| ensures UpperOf(a[k]) == UpperOf(b[k]) {
            if k > 0 { assert a[1..][k - 1] == a[k] && b[1..][k - 1] == b[k]; }
          }
        }
      }
      if UpperCase(a) == UpperCase(b) {
        assert UpperCase(a)[0] == UpperCase(b)[0] && UpperCase(a)[1..] == UpperCase(b)[1..];
      }
    }
  }

  /** The phrase names the approval: two identifiers of eight characters or more have the
      same phrase exactly if their first eight characters agree, ignoring case. */
  lemma PhraseNamesTheApproval(a: Id, b: Id)
    requires |a| >= 8 && |b| >= 8
    ensures |CriticalPhrase(a)| == 16 && CriticalPhrase(a)[..8] == "APPROVE "
    ensures CriticalPhrase(a) == CriticalPhrase(b) <==> forall k :: 0 <= k < 8 ==> UpperOf(a[k]) == UpperOf(b[k])
  {
    UpperCasesAgreeIff(a[..8], b[..8]);
    UpperCaseIsCharByChar(a[..8], 0);
    UpperCaseIsCharByChar(b[..8], 0);
    assert CriticalPhrase(a)[8..] == UpperCase(a[..8]) && CriticalPhrase(b)[8..] == UpperCase(b[..8]);
    assert CriticalPhrase(a) == "APPROVE " + UpperCase(a[..8]) && CriticalPhrase(b) == "APPROVE " + UpperCase(b[..8]);
    hide UpperCase;
    if forall k :: 0 <= k < 8 ==> UpperOf(a[k]) == UpperOf(b[k]) {
      assert UpperCase(a[..8]) == UpperCase(b[..8]);
    } else {
      assert UpperCase(a[..8]) != UpperCase(b[..8]);
    }
  }
}
