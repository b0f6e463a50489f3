/** Freshness checks: the count is a verdict on the whole table, and the preview is
    non-empty exactly when that verdict is a failure. */
module QualityFreshness {
  import opened Basics
  import opened SqlText
  import opened SqlModel
  import opened QualityCompiler
  import opened SqlLemmas
  import opened QualityChecks

  lemma LargestIsOldIffAllAre(rows: seq<Row>, c: string, m: Value, cutOff: Value)
    requires (exists row :: row in rows && Get(row, c) == m) && m != Null
    requires forall row :: row in rows ==> !Less(m, Get(row, c))
    ensures Less(m, cutOff) <==> AllOld(rows, c, cutOff)
  {
    if Less(m, cutOff) {
      forall row | row in rows && Get(row, c) != Null ensures Less(Get(row, c), cutOff) {
        LessIsStrictOrder(Get(row, c), m, cutOff);
      }
    }
  }

  lemma CountsHold(rows: seq<Row>, alias: string, outer: Env, env: Env, c: string, cx: Context)
    requires Holding(rows, [c])
    ensures var group := Bind(rows, alias, outer);
            var counted := CountOf(Column(None, c));
            && (Eval(Compare(GT, CountWhere(IsNull(Column(None, c))), ZERO), cx, env, group) == TRUE
                <==> AnyNull(rows, c))
            && Eval(Compare(GT, counted, ZERO), cx, env, group) == Boolean(AnyValue(rows, c))
            && Eval(Compare(EQ, counted, ZERO), cx, env, group) == Boolean(!AnyValue(rows, c))
  {
    var group := Bind(rows, alias, outer);
    AggregatesRead(rows, alias, outer, c, cx);
    var nulls, counted := CountWhere(IsNull(Column(None, c))), CountOf(Column(None, c));
    assert Eval(ZERO, cx, env, group) == Number(0.0);
    assert Eval(nulls, cx, env, group) == Number(|Filter(IsNull(Column(None, c)), cx, group)| as real);
    assert Eval(counted, cx, env, group) == Number(CountNonNull(Column(None, c), cx, group) as real);
    hide CountNonNull, Filter;
  }

  lemma MaxHolds(rows: seq<Row>, alias: string, outer: Env, env: Env, c: string, seconds: nat, cx: Context)
    requires Holding(rows, [c])
    ensures Eval(Compare(LT, MaxOf(Column(None, c)), Ago(seconds)), cx, env, Bind(rows, alias, outer)) == TRUE
            <==> AnyValue(rows, c) && AllOld(rows, c, CutOff(cx, seconds))
  {
    var group := Bind(rows, alias, outer);
    MaxIsLargest(rows, alias, outer, c, cx);
    var m := MaxIn(Column(None, c), cx, group);
    if m != Null { LargestIsOldIffAllAre(rows, c, m, CutOff(cx, seconds)); }
    assert Eval(Ago(seconds), cx, env, group) == CutOff(cx, seconds);
    assert Eval(MaxOf(Column(None, c)), cx, env, group) == m;
    hide MaxIn, Less, AllOld;
  }

  /** Over all rows of the table, the aggregate condition is the stated one. */
  lemma StaleGroupHolds(rows: seq<Row>, alias: string, outer: Env, env: Env, c: string, seconds: nat, nullsFail: bool,
                        cx: Context)
    requires Holding(rows, [c])
    ensures Eval(StaleGroup(c, seconds, nullsFail), cx, env, Bind(rows, alias, outer)) == TRUE
            <==> (nullsFail && AnyNull(rows, c)) || (AnyValue(rows, c) && AllOld(rows, c, CutOff(cx, seconds)))
  {
    CountsHold(rows, alias, outer, env, c, cx);
    MaxHolds(rows, alias, outer, env, c, seconds, cx);
    hide AllOld, AnyNull, AnyValue, Bind;
  }

  lemma VerdictValue(none: Expr, stale: Expr, cx: Context, group: seq<Env>)
    ensures Eval(Case(none, Literal(JNull), Case(stale, ONE, ZERO)), cx, [], group)
            == if Eval(none, cx, [], group) == TRUE then Null
               else if Eval(stale, cx, [], group) == TRUE then Number(1.0) else Number(0.0)
  {
    assert Eval(Case(stale, ONE, ZERO), cx, [], group)
           == if Eval(stale, cx, [], group) == TRUE then Number(1.0) else Number(0.0);
  }

  /** The count is NULL without a value to judge, 1 if the table is stale and 0 if not. */
  lemma CountIsThreeWay(d: Draft, cx: Context)
    requires Validated(d) && d.options.Freshness? && Catalogued(d, cx)
    ensures var c := Keys(d)[0];
            var rows := TargetRows(d, cx);
            var seconds := d.options.maximumAgeSeconds;
            var compiled := CompileFreshness(NameOf(d.target), c, seconds, d.nullsFail);
            Cell(compiled.count, cx)
            == if !AnyValue(rows, c) then Null
               else if Stale(rows, c, CutOff(cx, seconds), d.nullsFail) then Number(1.0) else Number(0.0)
  {
    var c, rows, seconds := Keys(d)[0], TargetRows(d, cx), d.options.maximumAgeSeconds;
    assert Keys(d) == [c];
    var name := NameOf(d.target);
    var group := Bind(rows, name.object_, []);
    FilterAlways(cx, group);
    StaleGroupHolds(rows, name.object_, [], [], c, seconds, d.nullsFail, cx);
    CountsHold(rows, name.object_, [], [], c, cx);
    var stale := StaleGroup(c, seconds, d.nullsFail);
    var verdict := Case(Compare(EQ, CountOf(Column(None, c)), ZERO), Literal(JNull), Case(stale, ONE, ZERO));
    VerdictValue(Compare(EQ, CountOf(Column(None, c)), ZERO), stale, cx, group);
    var q := SelectValue(verdict, Table(name, name.object_), ALWAYS);
    assert Rows(q, cx, []) == [map[RESULT := Eval(verdict, cx, [], group)]];
    hide StaleGroup, AnyNull, AllOld, Eval;
  }

  /** Seen from any row, the preview's subquery gives the same verdict on the table. */
  lemma SubqueryHolds(row: Row, name: Name, c: string, seconds: nat, nullsFail: bool, cx: Context)
    requires Holding(TableRows(cx, name), [c])
    ensures var counted := CountOf(Column(None, c));
            var failing := And(Compare(GT, counted, ZERO), StaleGroup(c, seconds, nullsFail));
            Holds(Scalar(SelectValue(failing, Table(name, name.object_), ALWAYS)), cx, [Binding("source", row)])
            <==> Stale(TableRows(cx, name), c, CutOff(cx, seconds), nullsFail)
  {
    var env, rows := [Binding("source", row)], TableRows(cx, name);
    var failing := And(Compare(GT, CountOf(Column(None, c)), ZERO), StaleGroup(c, seconds, nullsFail));
    var group := Bind(rows, name.object_, env);
    FilterAlways(cx, group);
    StaleGroupHolds(rows, name.object_, env, env, c, seconds, nullsFail, cx);
    CountsHold(rows, name.object_, env, env, c, cx);
    var q := SelectValue(failing, Table(name, name.object_), ALWAYS);
    assert Rows(q, cx, env) == [map[RESULT := Eval(failing, cx, env, group)]];
    assert Eval(Scalar(q), cx, env, []) == Eval(failing, cx, env, group);
    hide StaleGroup, AnyNull, AllOld;
  }

  /** A row's own part of the preview's condition. */
  lemma OldRowHolds(row: Row, c: string, seconds: nat, cx: Context)
    ensures var shown := Column(Some("source"), c);
            Holds(Or(IsNull(shown), Compare(LT, shown, Ago(seconds))), cx, [Binding("source", row)])
            <==> Get(row, c) == Null || Less(Get(row, c), CutOff(cx, seconds))
  {
    var env, shown := [Binding("source", row)], Column(Some("source"), c);
    LoneRowIsRead(row, "source", [c]);
    assert c in [c];
    assert Eval(shown, cx, env, []) == Get(row, c);
    assert Eval(Ago(seconds), cx, env, []) == CutOff(cx, seconds);
    assert Holds(IsNull(shown), cx, env) <==> Get(row, c) == Null;
    assert Holds(Compare(LT, shown, Ago(seconds)), cx, env)
      <==> Get(row, c) != Null && Less(Get(row, c), CutOff(cx, seconds));
  }

  lemma FreshnessSelects(row: Row, d: Draft, cx: Context)
    requires Validated(d) && d.options.Freshness? && Catalogued(d, cx)
    ensures var compiled := CompileFreshness(NameOf(d.target), Keys(d)[0], d.options.maximumAgeSeconds, d.nullsFail);
            Selects(compiled.preview.where_, d, cx, [Binding("source", row)], row)
  {
    var c, seconds, env := Keys(d)[0], d.options.maximumAgeSeconds, [Binding("source", row)];
    assert Keys(d) == [c];
    SubqueryHolds(row, NameOf(d.target), c, seconds, d.nullsFail, cx);
    OldRowHolds(row, c, seconds, cx);
    var compiled := CompileFreshness(NameOf(d.target), c, seconds, d.nullsFail);
    var where_ := compiled.preview.where_;
    assert Holds(where_, cx, env) <==> Holds(where_.a, cx, env) && Holds(where_.b, cx, env);
    hide StaleGroup, Stale, Eval, Holds, Less;
  }

  /** The preview is the bag of null and old rows of a stale table, and empty otherwise. */
  lemma FreshnessIsRight(d: Draft, cx: Context)
    requires Validated(d) && d.options.Freshness? && Catalogued(d, cx)
    ensures var compiled := CompileFreshness(NameOf(d.target), Keys(d)[0], d.options.maximumAgeSeconds, d.nullsFail);
            IsFailingBag(Rows(compiled.preview, cx, []), d, cx)
  {
    var compiled := CompileFreshness(NameOf(d.target), Keys(d)[0], d.options.maximumAgeSeconds, d.nullsFail);
    TableStandsFor(cx, NameOf(d.target), "source", Keys(d));
    forall i | 0 <= i < |TargetRows(d, cx)|
      ensures Selects(compiled.preview.where_, d, cx, FromRows(compiled.preview.from, cx, [])[i], TargetRows(d, cx)[i])
    {
      FreshnessSelects(TargetRows(d, cx)[i], d, cx);
    }
    SelectionIsRight("source", compiled.preview.from, compiled.preview.where_, d, cx);
  }

  /** A stale table has a row to show. */
  lemma StaleShowsSomething(d: Draft, cx: Context, shown: seq<Row>)
    requires Validated(d) && d.options.Freshness? && IsFailingBag(shown, d, cx)
    ensures shown != [] <==> Stale(TargetRows(d, cx), Keys(d)[0], CutOff(cx, d.options.maximumAgeSeconds), d.nullsFail)
  {
    var c, rows, cutOff := Keys(d)[0], TargetRows(d, cx), CutOff(cx, d.options.maximumAgeSeconds);
    if Stale(rows, c, cutOff, d.nullsFail) {
      var row :| row in rows && if d.nullsFail && AnyNull(rows, c) then Get(row, c) == Null else Get(row, c) != Null;
      assert multiset(rows)[row] > 0;
      assert Fails(d, cx, row);
      assert multiset(shown)[row] > 0;
    }
    if shown != [] {
      assert multiset(shown)[shown[0]] > 0;
    }
  }
}
