/** Main results on compiled checks: count, preview and the outcome a run records. */
module QualityResults {
  import opened Basics
  import opened SqlText
  import opened SqlModel
  import opened SqlStatements
  import opened QualityCompiler
  import opened SqlLemmas
  import opened QualityChecks
  import opened QualityRelationships
  import opened QualityFreshness
  import QualityRuns

  /** What a validated check compiles to, its names trimmed. */
  lemma CompiledForm(d: Draft)
    requires Validated(d)
    ensures Compile(d).Ok?
    ensures var name, keys, c := NameOf(d.target), Keys(d), Compile(d).value;
            match d.options
            case NotEmpty => c == CompileNotEmpty(name)
            case NotNull => keys != [] && c == Simple(name, IsNull(Column(None, keys[0])))
            case Unique => c == Pair("source", Table(name, "source"), UniqueFailure(name, keys, d.nullsFail))
            case AcceptedValues(values) =>
              keys != [] && c == Simple(name, AcceptedFailure(Column(None, keys[0]), values, d.nullsFail))
            case Range(_, _, _, _) =>
              keys != [] && c == Simple(name, RangeFailure(Column(None, keys[0]), d.options, d.nullsFail))
            case Relationship(parent, parentColumns) =>
              c == Pair("child", Joined(name, keys, NameOf(parent), CanonicalAll(parentColumns)),
                        RelationshipFailure(keys, d.nullsFail))
            case Freshness(seconds) => keys != [] && c == CompileFreshness(name, keys[0], seconds, d.nullsFail)
            case CustomSql(sql) => c == CompileCustom(sql)
    ensures Compile(d).value.custom <==> d.options.CustomSql?
  {
    CompilesIffCompilable(d);
    IdentifiersAreCanonical(d.target.columns);
    match d.options
    case AcceptedValues(values) => ScalarsAreKept(values);
    case Relationship(parent, parentColumns) => IdentifiersAreCanonical(parentColumns);
    case _ =>
  }

  lemma SimpleIsRight(d: Draft, cx: Context, failure: Expr)
    requires forall row :: Selects(failure, d, cx, [Binding(NameOf(d.target).object_, row)], row)
    ensures IsFailingBag(Rows(Simple(NameOf(d.target), failure).preview, cx, []), d, cx)
  {
    var name := NameOf(d.target);
    TableStandsFor(cx, name, name.object_, []);
    SelectionIsRight(name.object_, Table(name, name.object_), failure, d, cx);
  }

  /** Whatever the table holds, the preview of a check is exactly the bag of its failing
      rows: under three-valued logic, with duplicates, and for either null policy. */
  lemma PreviewIsTheFailingRows(d: Draft, cx: Context)
    requires Validated(d) && Catalogued(d, cx) && MarkerIsClear(d, cx) && !d.options.CustomSql?
    ensures Compile(d).Ok? && IsFailingBag(Rows(Compile(d).value.preview, cx, []), d, cx)
  {
    CompiledForm(d);
    var alias, keys, name := NameOf(d.target).object_, Keys(d), NameOf(d.target);
    match d.options
    case NotEmpty => FilterNever(cx, Bind(TargetRows(d, cx), alias, []));
    case NotNull =>
      forall row ensures Selects(IsNull(Column(None, keys[0])), d, cx, [Binding(alias, row)], row) {
        NotNullSelects(row, alias, d, cx);
      }
      SimpleIsRight(d, cx, IsNull(Column(None, keys[0])));
    case AcceptedValues(values) =>
      var failure := AcceptedFailure(Column(None, keys[0]), values, d.nullsFail);
      forall row ensures Selects(failure, d, cx, [Binding(alias, row)], row) { AcceptedSelects(row, alias, d, cx); }
      SimpleIsRight(d, cx, failure);
    case Range(_, _, _, _) =>
      var failure := RangeFailure(Column(None, keys[0]), d.options, d.nullsFail);
      forall row ensures Selects(failure, d, cx, [Binding(alias, row)], row) { RangeSelects(row, alias, d, cx); }
      SimpleIsRight(d, cx, failure);
    case Unique => UniqueIsRight(d, cx);
    case Relationship(_, _) => RelationshipIsRight(d, cx);
    case Freshness(_) => FreshnessIsRight(d, cx);
  }

  lemma NotNullSelects(row: Row, alias: string, d: Draft, cx: Context)
    requires Validated(d) && d.options.NotNull?
    ensures Selects(IsNull(Column(None, Keys(d)[0])), d, cx, [Binding(alias, row)], row)
  {
    var c := Keys(d)[0];
    assert c in [c] && Keys(d) == [c];
    LoneRowIsRead(row, alias, [c]);
    assert Eval(Column(None, c), cx, [Binding(alias, row)], []) == Get(row, c);
    assert HasNull(row, [c]) <==> Get(row, c) == Null;
  }

  lemma UniqueIsRight(d: Draft, cx: Context)
    requires Validated(d) && d.options.Unique? && Catalogued(d, cx)
    ensures var failure := UniqueFailure(NameOf(d.target), Keys(d), d.nullsFail);
            IsFailingBag(Rows(SelectRows("source", Table(NameOf(d.target), "source"), failure), cx, []), d, cx)
  {
    var name := NameOf(d.target);
    TableStandsFor(cx, name, "source", []);
    forall i | 0 <= i < |TargetRows(d, cx)|
      ensures Selects(UniqueFailure(name, Keys(d), d.nullsFail), d, cx,
                      FromRows(Table(name, "source"), cx, [])[i], TargetRows(d, cx)[i])
    {
      UniqueSelects(TargetRows(d, cx)[i], d, cx);
    }
    SelectionIsRight("source", Table(name, "source"), UniqueFailure(name, Keys(d), d.nullsFail), d, cx);
  }

  /** The number a count query returns, as the run coordinator reads it. */
  function Decoded(v: Value): Option<nat> {
    if v.Number? && v.n >= 0.0 && v.n.Floor as real == v.n then Some(v.n.Floor) else None
  }

  /** The bag of failing rows is empty exactly if no row fails. */
  lemma FailingBagIsEmptyIff(shown: seq<Row>, d: Draft, cx: Context)
    requires IsFailingBag(shown, d, cx)
    ensures shown == [] <==> forall row :: row in TargetRows(d, cx) ==> !Fails(d, cx, row)
  {
    hide Fails, TargetRows;
    if shown != [] {
      assert multiset(shown)[shown[0]] > 0;
      assert multiset(TargetRows(d, cx))[shown[0]] > 0;
    }
    if row :| row in TargetRows(d, cx) && Fails(d, cx, row) {
      assert multiset(TargetRows(d, cx))[row] > 0;
      assert multiset(shown)[row] > 0;
    }
  }

  /** A check with failing rows counts the rows of its preview. */
  lemma RowLevelIsAPair(d: Draft)
    requires Validated(d) && RowLevel(d.options)
    ensures Compile(d).Ok?
    ensures var c := Compile(d).value;
            c.preview.SelectRows? && c == Pair(c.preview.alias, c.preview.from, c.preview.where_)
  {
    CompiledForm(d);
    hide Compile;
  }

  /** A check with failing rows counts as many as it previews, and its run passes exactly
      if no row of the target fails. */
  lemma OutcomeIsTheNumberOfFailingRows(d: Draft, cx: Context)
    requires Validated(d) && Catalogued(d, cx) && MarkerIsClear(d, cx) && RowLevel(d.options)
    ensures Compile(d).Ok?
    ensures var c := Compile(d).value;
            var end := QualityRuns.EndOfCount(Decoded(Cell(c.count, cx)));
            && end.count == Some(|Rows(c.preview, cx, [])|)
            && (end.state.Passed? <==> forall row :: row in TargetRows(d, cx) ==> !Fails(d, cx, row))
            && (end.state.Failed? <==> exists row :: row in TargetRows(d, cx) && Fails(d, cx, row))
  {
    PreviewIsTheFailingRows(d, cx);
    RowLevelIsAPair(d);
    var c := Compile(d).value;
    var shown := Rows(c.preview, cx, []);
    PairCounts(c.preview.alias, c.preview.from, c.preview.where_, cx);
    assert Decoded(Number(|shown| as real)) == Some(|shown|);
    FailingBagIsEmptyIff(shown, d, cx);
    hide Fails, Rows, Cell, Compile, Validated, Catalogued, TargetRows, Decoded, IsFailingBag;
  }

  /** For one cut-off time, a freshness check previews rows exactly if it counts 1; without
      any value its count is NULL and the run ends in error, neither passed nor failed. */
  lemma FreshnessCountAndPreviewAgree(d: Draft, cx: Context)
    requires Validated(d) && d.options.Freshness? && Catalogued(d, cx)
    ensures Compile(d).Ok?
    ensures var c := Compile(d).value;
            var column := Keys(d)[0];
            var end := QualityRuns.EndOfCount(Decoded(Cell(c.count, cx)));
            && (Rows(c.preview, cx, []) != [] <==> Cell(c.count, cx) == Number(1.0))
            && (Cell(c.count, cx) == Null <==> !AnyValue(TargetRows(d, cx), column))
            && (end.state.Error? <==> !AnyValue(TargetRows(d, cx), column))
            && (end.state.Failed?
                <==> Stale(TargetRows(d, cx), column, CutOff(cx, d.options.maximumAgeSeconds), d.nullsFail))
  {
    CompiledForm(d);
    CountIsThreeWay(d, cx);
    FreshnessIsRight(d, cx);
    StaleShowsSomething(d, cx, Rows(Compile(d).value.preview, cx, []));
    assert Decoded(Number(1.0)) == Some(1) && Decoded(Number(0.0)) == Some(0);
    hide Rows, Cell, Compile, AnyNull, AllOld;
  }

  lemma NotEmptyCounts(name: Name, cx: Context)
    ensures Cell(CompileNotEmpty(name).count, cx) == if TableRows(cx, name) == [] then Number(1.0) else Number(0.0)
  {
    var group := Bind(TableRows(cx, name), name.object_, []);
    FilterAlways(cx, group);
    var verdict := Case(Compare(EQ, CountRows, ZERO), ONE, ZERO);
    assert Eval(CountRows, cx, [], group) == Number(|group| as real);
    assert Eval(ZERO, cx, [], group) == Number(0.0) && Eval(ONE, cx, [], group) == Number(1.0);
    assert Rows(CompileNotEmpty(name).count, cx, [])[0] == map[RESULT := Eval(verdict, cx, [], group)];
  }

  /** A non-empty table passes, and there is never a row to show. */
  lemma NotEmptyIsDecided(d: Draft, cx: Context)
    requires Validated(d) && d.options.NotEmpty?
    ensures Compile(d).Ok?
    ensures var c := Compile(d).value;
            var end := QualityRuns.EndOfCount(Decoded(Cell(c.count, cx)));
            && Rows(c.preview, cx, []) == []
            && (end.state.Passed? <==> TargetRows(d, cx) != [])
            && (end.state.Failed? <==> TargetRows(d, cx) == [])
  {
    CompiledForm(d);
    NotEmptyCounts(NameOf(d.target), cx);
    FilterNever(cx, Bind(TargetRows(d, cx), NameOf(d.target).object_, []));
    assert Decoded(Number(1.0)) == Some(1) && Decoded(Number(0.0)) == Some(0);
    hide Cell, Compile;
  }

  lemma CountsAll(q: Query, alias: string, cx: Context)
    ensures Cell(SelectValue(CountRows, Derived(q, alias), ALWAYS), cx) == Number(|Rows(q, cx, [])| as real)
  {
    var group := Bind(Rows(q, cx, []), alias, []);
    FilterAlways(cx, group);
    var count := SelectValue(CountRows, Derived(q, alias), ALWAYS);
    assert Eval(CountRows, cx, [], group) == Number(|group| as real);
    assert Rows(count, cx, [])[0] == map[RESULT := Eval(CountRows, cx, [], group)];
  }

  /** A hand-written check counts the rows that its own statement returns, provided that
      the statement is closed in itself, does not end in a line comment and has no
      semicolon of its own. */
  lemma CustomCountsItsRows(d: Draft, cx: Context)
    requires Validated(d) && d.options.CustomSql?
    requires var t := Statement(d.options.sql); Closed(t) && !EndsInLineComment(t) && !HasSemicolon(t)
    ensures Compile(d).Ok?
    ensures var c := Compile(d).value;
            && c.preview == Verbatim(Statement(d.options.sql)) && c.custom
            && Cell(c.count, cx) == Number(|Rows(c.preview, cx, [])| as real)
  {
    CompiledForm(d);
    HeldIff(Statement(d.options.sql));
    CountsAll(Verbatim(Statement(d.options.sql)), "quality_failures", cx);
    hide Compile, Statement, Cell, Rows, Held, Closed, EndsInLineComment, HasSemicolon;
  }

  /** As the engine's splitter reads text: if the statement is closed in itself, its count
      query is one statement that holds it exactly under that condition, and otherwise it
      is not one statement or leaves a parenthesis open. The database's own parser, which
      has the last word, also knows other quotes: a double dash between dollar quotes
      begins a comment here and none there. */
  lemma CustomIsCountedIff(d: Draft)
    requires Validated(d) && d.options.CustomSql? && Closed(Statement(d.options.sql))
    ensures Compile(d).Ok?
    ensures var t, c := Statement(d.options.sql), Compile(d).value;
            && (c.count.SelectValue? <==> !EndsInLineComment(t) && !HasSemicolon(t))
            && (!c.count.SelectValue? ==>
                  c.count == Verbatim(CountText(t))
                  && (|Statements(CountText(t))| != 1 || Read(START, CountText(t)).depth != 0))
  {
    CompiledForm(d);
    var t := Statement(d.options.sql);
    HeldIff(t);
    if !Held(t) { RefusedUnlessHeld(t); }
    hide Compile, Statement, Held, Closed, EndsInLineComment, HasSemicolon, CountText, Statements, Read;
  }

  // ---------------------------------------------------------------------
  // Where a check can go wrong.
  // ---------------------------------------------------------------------

  /** A NULL among the accepted values, which a stored definition cannot hold, would make
      the check blind to every value: only the null policy would be left of it. */
  lemma NullAmongAcceptedIsBlind(row: Row, alias: string, c: string, values: seq<Json>, nullsFail: bool, cx: Context)
    requires Null in DenoteAll(values, cx.casts)
    ensures Holds(AcceptedFailure(Column(None, c), values, nullsFail), cx, [Binding(alias, row)])
            <==> nullsFail && Get(row, c) == Null
  {
    NullPredicateHolds(c, NotIn(Column(None, c), values), nullsFail, cx, row, alias);
    assert c in [c];
    if Get(row, c) != Null { NotInHolds(row, alias, c, values, cx); }
  }

  /** When the marker's name refers to the marker, relationship checks are right for all
      tables exactly if no parent key column has that name. */
  lemma RelationshipNeedsAClearMarker(d: Draft)
    requires Validated(d) && d.options.Relationship?
    ensures Compile(d).Ok?
    ensures MARKER !in CanonicalAll(d.options.parentColumns)
            <==> forall cx: Context :: !cx.firstWins && Catalogued(d, cx)
                   ==> IsFailingBag(Rows(Compile(d).value.preview, cx, []), d, cx)
  {
    CompiledForm(d);
    if MARKER in CanonicalAll(d.options.parentColumns) {
      AmbiguousMarkerMisreports(d);
      assert !SelfParented(d).firstWins;
    } else {
      forall cx: Context | !cx.firstWins && Catalogued(d, cx)
        ensures IsFailingBag(Rows(Compile(d).value.preview, cx, []), d, cx)
      {
        PreviewIsTheFailingRows(d, cx);
      }
    }
  }

  predicate Semicolons(s: string, from: nat) {
    forall i :: from <= i < |s| ==> s[i] == ';'
  }

  predicate White(s: string, from: nat, to: nat)
    requires to <= |s|
  {
    forall i :: from <= i < to ==> IsWhite(s[i])
  }

  /** The text ends in a semicolon, white space, and semicolons again. */
  ghost predicate EndsTwice(s: string) {
    exists i, j :: 0 <= i < i + 1 < j < |s| && s[i] == ';' && White(s, i + 1, j) && Semicolons(s, j)
  }

  lemma {:induction false} TrimSemicolonsSplits(s: string) returns (k: nat)
    ensures k <= |s| && TrimSemicolons(s) == s[..k] && Semicolons(s, k)
    ensures k == 0 || s[k - 1] != ';'
  {
    if s != [] && s[|s| - 1] == ';' {
      k := TrimSemicolonsSplits(s[..|s| - 1]);
      assert s[..|s| - 1][..k] == s[..k];
    } else {
      k := |s|;
    }
  }

  lemma {:induction false} TrimTailSplits(s: string) returns (m: nat)
    ensures m <= |s| && TrimTail(s) == s[..m] && White(s, m, |s|)
    ensures m == 0 || !IsWhite(s[m - 1])
  {
    if s != [] && IsWhite(s[|s| - 1]) {
      m := TrimTailSplits(s[..|s| - 1]);
      assert s[..|s| - 1][..m] == s[..m];
    } else {
      m := |s|;
    }
  }

  /** One terminator is removed, however many semicolons it has; but a statement that ends
      twice keeps the first terminator, and the count query cannot hold it. */
  lemma StatementKeepsATerminator(sql: string)
    ensures var t := Statement(sql);
            (t != [] && t[|t| - 1] == ';') <==> EndsTwice(Trim(sql))
  {
    var s := Trim(sql);
    TrimTrims(sql);
    var k := TrimSemicolonsSplits(s);
    var u := s[..k];
    assert TrimStart(u) == u;
    var m := TrimTailSplits(u);
    assert Statement(sql) == u[..m] == s[..m];
    assert !IsWhite(';');
    if m > 0 && s[m - 1] == ';' {
      assert m != k;
      assert IsWhite(s[k - 1]) && k < |s|;
      assert White(s, m, k);
    }
    if EndsTwice(s) {
      var i, j :| 0 <= i < i + 1 < j < |s| && s[i] == ';' && White(s, i + 1, j) && Semicolons(s, j);
      assert IsWhite(s[j - 1]);
      assert k == j;
      assert m == i + 1;
    }
  }

  /** Neither is counted, although both are stored, and closed in themselves. */
  lemma NotEveryStoredStatementIsCounted()
    ensures StoredStatements(Trim(ENDED_TWICE)) == 1 && Closed(Statement(ENDED_TWICE)) && !Held(Statement(ENDED_TWICE))
    ensures StoredStatements(Trim(COMMENTED)) == 1 && Closed(Statement(COMMENTED)) && !Held(Statement(COMMENTED))
    ensures EndsTwice(Trim(ENDED_TWICE)) && !EndsTwice(Trim(COMMENTED))
  {
    EndedTwiceIsNotCounted();
    CommentedIsNotCounted();
  }

  lemma EndedTwiceIsNotCounted()
    ensures StoredStatements(Trim(ENDED_TWICE)) == 1 && Closed(Statement(ENDED_TWICE)) && !Held(Statement(ENDED_TWICE))
    ensures EndsTwice(Trim(ENDED_TWICE))
  {
    var s: string, t: string := "SELECT 1", "SELECT 1;";
    TrimTrims(ENDED_TWICE);
    TrimTrims(t);
    assert Trim(ENDED_TWICE) == ENDED_TWICE && Trim(t) == t;
    assert ENDED_TWICE[..10] == s + ";" + " ";
    assert TrimSemicolons(ENDED_TWICE) == ENDED_TWICE[..10];
    assert TrimTail(ENDED_TWICE[..10]) == t by { assert ENDED_TWICE[..10][..9] == t; }
    assert Statement(ENDED_TWICE) == t;
    hide Trim, TrimSemicolons, Statement, Held, Bland, IsWhite;
    AfterSelect(s);
    assert s + [SEMICOLON] == t;
    ReadMore(s, SEMICOLON);
    forall i | 0 <= i <= |t| ensures Upto(t, i).depth >= 0 { DepthOfBland(t, i); }
    FinalSemicolonIsNotHeld(t);
    assert s + [SEMICOLON] + [' '] + [SEMICOLON] == ENDED_TWICE;
    ReadMore(s + [SEMICOLON], ' ');
    ReadMore(s + [SEMICOLON] + [' '], SEMICOLON);
    assert IsWhite(' ');
    assert White(ENDED_TWICE, 9, 10) && Semicolons(ENDED_TWICE, 10) && ENDED_TWICE[8] == ';';
  }

  lemma CommentedIsItsStatement()
    ensures Trim(COMMENTED) == COMMENTED && Statement(COMMENTED) == COMMENTED
  {
    TrimTrims(COMMENTED);
    assert TrimSemicolons(COMMENTED) == COMMENTED;
    hide TrimSemicolons;
  }

  lemma CommentedIsNotCounted()
    ensures StoredStatements(Trim(COMMENTED)) == 1 && Closed(Statement(COMMENTED)) && !Held(Statement(COMMENTED))
    ensures !EndsTwice(Trim(COMMENTED))
  {
    CommentedIsItsStatement();
    StatementKeepsATerminator(COMMENTED);
    hide Trim, Statement, EndsTwice, Held, Read, TallyUp;
    CommentedReads();
    forall i | 0 <= i <= |COMMENTED| ensures Upto(COMMENTED, i).depth >= 0 { DepthOfBland(COMMENTED, i); }
    DepthOfBland(COMMENTED, |COMMENTED|);
    assert COMMENTED[..|COMMENTED|] == COMMENTED;
    HeldIff(COMMENTED);
  }
}
