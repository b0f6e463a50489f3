/** The compiled checks against their plain row-level meaning: which rows of the target
    fail, and what the count and the preview then return. */
module QualityChecks {
  import opened Basics
  import opened SqlText
  import opened SqlModel
  import opened QualityCompiler
  import opened SqlLemmas

  // ---------------------------------------------------------------------
  // The row-level meaning.
  // ---------------------------------------------------------------------

  function NameOf(t: Target): Name {
    Name(Canonical(t.database), Canonical(t.schema), Canonical(t.object_))
  }

  function Keys(d: Draft): seq<string> {
    CanonicalAll(d.target.columns)
  }

  function TargetRows(d: Draft, cx: Context): seq<Row> {
    TableRows(cx, NameOf(d.target))
  }

  /** Outside the interval whose ends belong to it as stated. */
  predicate Outside(v: Value, o: Options, casts: map<string, NonNull>)
    requires o.Range?
  {
    || (o.minimum.Some? && var low := Denotes(o.minimum.value, casts);
          Less(v, low) || (v == low && !o.inclusiveMinimum))
    || (o.maximum.Some? && var high := Denotes(o.maximum.value, casts);
          Less(high, v) || (v == high && !o.inclusiveMaximum))
  }

  /** The checks whose failing rows can be told one by one. */
  predicate RowLevel(o: Options) {
    o.NotNull? || o.Unique? || o.AcceptedValues? || o.Range? || o.Relationship?
  }

  predicate AnyNull(rows: seq<Row>, c: string) {
    exists row :: row in rows && Get(row, c) == Null
  }

  predicate AnyValue(rows: seq<Row>, c: string) {
    exists row :: row in rows && Get(row, c) != Null
  }

  function CutOff(cx: Context, seconds: nat): Value {
    Instant(cx.now - seconds)
  }

  /** No value is as recent as the cut-off. */
  predicate AllOld(rows: seq<Row>, c: string, cutOff: Value) {
    forall row :: row in rows && Get(row, c) != Null ==> Less(Get(row, c), cutOff)
  }

  /** A table with some value in its time column is stale if all its values are old or,
      where nulls fail, if any is null. */
  predicate Stale(rows: seq<Row>, c: string, cutOff: Value, nullsFail: bool) {
    AnyValue(rows, c) && ((nullsFail && AnyNull(rows, c)) || AllOld(rows, c, cutOff))
  }

  predicate FailsKey(d: Draft, cx: Context, row: Row)
    requires d.options.Unique? || d.options.AcceptedValues? || d.options.Range? || d.options.Relationship?
  {
    var keys := Keys(d);
    if HasNull(row, keys) then d.nullsFail
    else match d.options
      case Unique => multiset(KeysOf(TargetRows(d, cx), keys))[KeyOf(row, keys)] > 1
      case AcceptedValues(values) => keys != [] && Get(row, keys[0]) !in DenoteAll(values, cx.casts)
      case Range(_, _, _, _) => keys != [] && Outside(Get(row, keys[0]), d.options, cx.casts)
      case Relationship(parent, parentColumns) =>
        KeyOf(row, keys) !in KeysOf(TableRows(cx, NameOf(parent)), CanonicalAll(parentColumns))
  }

  /** A row fails its check. A freshness check fails as a whole, and its old and null rows
      with it; a check for a non-empty table has no failing rows. */
  predicate Fails(d: Draft, cx: Context, row: Row) {
    match d.options
    case NotNull => HasNull(row, Keys(d))
    case Freshness(seconds) =>
      Keys(d) != [] && Stale(TargetRows(d, cx), Keys(d)[0], CutOff(cx, seconds), d.nullsFail)
      && (Get(row, Keys(d)[0]) == Null || Less(Get(row, Keys(d)[0]), CutOff(cx, seconds)))
    case NotEmpty => false
    case CustomSql(_) => false
    case _ => FailsKey(d, cx, row)
  }

  /** The target's rows have the columns the check names. */
  predicate Catalogued(d: Draft, cx: Context) {
    Holding(TargetRows(d, cx), Keys(d))
  }

  /** The marker column can be told from these key columns, or the key column is the one
      that the shared name refers to. */
  predicate ClearMarker(pk: seq<string>, cx: Context) {
    cx.firstWins || MARKER !in pk
  }

  predicate MarkerIsClear(d: Draft, cx: Context) {
    d.options.Relationship? ==> ClearMarker(CanonicalAll(d.options.parentColumns), cx)
  }

  /** A query's rows are exactly the bag of failing rows. */
  ghost predicate IsFailingBag(rows: seq<Row>, d: Draft, cx: Context) {
    forall row :: multiset(rows)[row] == if Fails(d, cx, row) then multiset(TargetRows(d, cx))[row] else 0
  }

  // ---------------------------------------------------------------------
  // From one row to the whole table.
  // ---------------------------------------------------------------------

  /** Environments that stand for the rows of a table, one each. */
  predicate StandFor(envs: seq<Env>, alias: string, rows: seq<Row>) {
    |envs| == |rows| && forall i :: 0 <= i < |rows| ==> Pick(envs[i], alias) == rows[i]
  }

  predicate Selects(w: Expr, d: Draft, cx: Context, env: Env, row: Row) {
    Holds(w, cx, env) <==> Fails(d, cx, row)
  }

  lemma {:induction false} FilteredBag(w: Expr, d: Draft, cx: Context, alias: string, envs: seq<Env>, rows: seq<Row>,
                                       row: Row)
    requires StandFor(envs, alias, rows)
    requires forall i :: 0 <= i < |rows| ==> Selects(w, d, cx, envs[i], rows[i])
    ensures multiset(PickAll(Filter(w, cx, envs), alias))[row] == if Fails(d, cx, row) then multiset(rows)[row] else 0
  {
    if rows != [] {
      var n := |rows| - 1;
      FilteredBag(w, d, cx, alias, envs[..n], rows[..n], row);
      assert rows == rows[..n] + [rows[n]];
      assert Selects(w, d, cx, envs[n], rows[n]);
      var before := Filter(w, cx, envs[..n]);
      hide Fails, Holds;
      assert PickAll(before + [envs[n]], alias) == PickAll(before, alias) + [rows[n]];
    }
  }

  /** If the condition selects the failing rows, the preview is their bag. */
  lemma SelectionIsRight(alias: string, from: From, w: Expr, d: Draft, cx: Context)
    requires StandFor(FromRows(from, cx, []), alias, TargetRows(d, cx))
    requires forall i :: 0 <= i < |TargetRows(d, cx)| ==>
               Selects(w, d, cx, FromRows(from, cx, [])[i], TargetRows(d, cx)[i])
    ensures IsFailingBag(Rows(SelectRows(alias, from, w), cx, []), d, cx)
  {
    var envs := FromRows(from, cx, []);
    forall row ensures multiset(PickAll(Filter(w, cx, envs), alias))[row]
                       == if Fails(d, cx, row) then multiset(TargetRows(d, cx))[row] else 0
    {
      FilteredBag(w, d, cx, alias, envs, TargetRows(d, cx), row);
    }
  }

  lemma PairCounts(alias: string, from: From, w: Expr, cx: Context)
    ensures var c := Pair(alias, from, w);
            Cell(c.count, cx) == Number(|Rows(c.preview, cx, [])| as real)
  {
    var envs := FromRows(from, cx, []);
    var c := Pair(alias, from, w);
    assert Rows(c.preview, cx, []) == PickAll(Filter(w, cx, envs), alias);
    assert Eval(CountRows, cx, [], Filter(w, cx, envs)) == Number(|Filter(w, cx, envs)| as real);
    assert Rows(c.count, cx, [])[0] == map[RESULT := Number(|Filter(w, cx, envs)| as real)];
  }

  lemma TableStandsFor(cx: Context, name: Name, alias: string, keys: seq<string>)
    ensures StandFor(FromRows(Table(name, alias), cx, []), alias, TableRows(cx, name))
    ensures forall i :: 0 <= i < |TableRows(cx, name)| ==>
              FromRows(Table(name, alias), cx, [])[i] == [Binding(alias, TableRows(cx, name)[i])]
  {
  }

  /** Read without a qualifier or with its own, a lone row's columns are its own. */
  lemma LoneRowIsRead(row: Row, alias: string, keys: seq<string>)
    ensures Reads([Binding(alias, row)], None, keys, row)
    ensures Reads([Binding(alias, row)], Some(alias), keys, row)
  {
    forall k | k in keys ensures Lookup([Binding(alias, row)], None, k) == Get(row, k) {
      assert Lookup([Binding(alias, row)][1..], None, k) == Null;
    }
  }

  // ---------------------------------------------------------------------
  // Checks of one column.
  // ---------------------------------------------------------------------

  /** The null policy decides on a null value, the failure condition on any other. */
  lemma NullPredicateHolds(c: string, failure: Expr, nullsFail: bool, cx: Context, row: Row, alias: string)
    ensures var env := [Binding(alias, row)];
            Holds(NullPredicate(Column(None, c), failure, nullsFail), cx, env)
            <==> if HasNull(row, [c]) then nullsFail else Holds(failure, cx, env)
  {
    var env := [Binding(alias, row)];
    LoneRowIsRead(row, alias, [c]);
    assert c in [c];
    assert Eval(Column(None, c), cx, env, []) == Get(row, c);
    assert HasNull(row, [c]) <==> Get(row, c) == Null;
    assert Eval(IsNull(Column(None, c)), cx, env, []) == Boolean(Get(row, c).Null?);
    assert Eval(IsNotNull(Column(None, c)), cx, env, []) == Boolean(!Get(row, c).Null?);
  }

  lemma NotInHolds(row: Row, alias: string, c: string, values: seq<Json>, cx: Context)
    requires Get(row, c) != Null && values != []
    ensures Holds(NotIn(Column(None, c), values), cx, [Binding(alias, row)])
            <==> Null !in DenoteAll(values, cx.casts) && Get(row, c) !in DenoteAll(values, cx.casts)
  {
    var env := [Binding(alias, row)];
    LoneRowIsRead(row, alias, [c]);
    assert c in [c];
    assert Eval(Column(None, c), cx, env, []) == Get(row, c);
    var ws := DenoteAll(values, cx.casts);
    InIsMembership(Get(row, c), ws);
    assert Eval(NotIn(Column(None, c), values), cx, env, []) == Not3(In3(Get(row, c), ws));
  }

  lemma AcceptedSelects(row: Row, alias: string, d: Draft, cx: Context)
    requires Validated(d) && d.options.AcceptedValues?
    ensures Selects(AcceptedFailure(Column(None, Keys(d)[0]), d.options.values, d.nullsFail), d, cx,
                    [Binding(alias, row)], row)
  {
    var c, values := Keys(d)[0], d.options.values;
    assert c in [c] && Keys(d) == [c];
    NullPredicateHolds(c, NotIn(Column(None, c), values), d.nullsFail, cx, row, alias);
    var ws := DenoteAll(values, cx.casts);
    assert forall i :: 0 <= i < |ws| ==> ws[i] != Null;
    if !HasNull(row, [c]) { NotInHolds(row, alias, c, values, cx); }
  }

  lemma BoundHolds(op: Op, c: string, bound: Json, cx: Context, env: Env, v: Value)
    requires Lookup(env, None, c) == v && v != Null && Plain(bound)
    ensures var b := Denotes(bound, cx.casts);
            var e := Compare(op, Column(None, c), Literal(bound));
            && (op == LT ==> (Holds(e, cx, env) <==> Less(v, b)))
            && (op == LE ==> (Holds(e, cx, env) <==> Less(v, b) || v == b))
            && (op == GT ==> (Holds(e, cx, env) <==> Less(b, v)))
            && (op == GE ==> (Holds(e, cx, env) <==> Less(b, v) || v == b))
  {
    var b := Denotes(bound, cx.casts);
    assert Eval(Column(None, c), cx, env, []) == v;
    assert Eval(Literal(bound), cx, env, []) == b;
    LessIsStrictOrder(v, b, v);
    LessIsStrictOrder(b, v, b);
  }

  lemma OutsideHolds(row: Row, alias: string, c: string, o: Options, nullsFail: bool, cx: Context)
    requires o.Range? && (o.minimum.Some? || o.maximum.Some?) && Get(row, c) != Null
    requires (o.minimum.Some? ==> Plain(o.minimum.value)) && (o.maximum.Some? ==> Plain(o.maximum.value))
    ensures Holds(AnyOf(OutsideBounds(Column(None, c), o)), cx, [Binding(alias, row)])
            <==> Outside(Get(row, c), o, cx.casts)
  {
    var env, v := [Binding(alias, row)], Get(row, c);
    LoneRowIsRead(row, alias, [c]);
    assert c in [c];
    var es := OutsideBounds(Column(None, c), o);
    AnyOfHolds(es, cx, env);
    if o.minimum.Some? {
      BoundHolds(if o.inclusiveMinimum then LT else LE, c, o.minimum.value, cx, env, v);
      assert es[0] in es;
    }
    if o.maximum.Some? {
      BoundHolds(if o.inclusiveMaximum then GT else GE, c, o.maximum.value, cx, env, v);
      assert es[|es| - 1] in es;
    }
    hide Eval, Holds, Less, Denotes;
    assert forall e :: e in es ==> e == es[0] || e == es[|es| - 1];
  }

  lemma RangeSelects(row: Row, alias: string, d: Draft, cx: Context)
    requires Validated(d) && d.options.Range?
    ensures Selects(RangeFailure(Column(None, Keys(d)[0]), d.options, d.nullsFail), d, cx, [Binding(alias, row)], row)
  {
    var c, o := Keys(d)[0], d.options;
    assert c in [c] && Keys(d) == [c];
    NullPredicateHolds(c, AnyOf(OutsideBounds(Column(None, c), o)), d.nullsFail, cx, row, alias);
    if !HasNull(row, [c]) { OutsideHolds(row, alias, c, o, d.nullsFail, cx); }
    hide Outside, OutsideBounds, AnyOf, Holds;
  }

  // ---------------------------------------------------------------------
  // Uniqueness.
  // ---------------------------------------------------------------------

  lemma DuplicateHolds(row: Row, name: Name, keys: seq<string>, cx: Context)
    requires keys != [] && Holding(TableRows(cx, name), keys) && !HasNull(row, keys)
    ensures Holds(IsDuplicate(name, keys), cx, [Binding("source", row)])
            <==> multiset(KeysOf(TableRows(cx, name), keys))[KeyOf(row, keys)] > 1
  {
    var env := [Binding("source", row)];
    var rows := TableRows(cx, name);
    var tuple := KeyOf(row, keys);
    NoNullKey(row, keys);
    MembersCountKeys(rows, name.object_, env, keys, cx, tuple);
    var inner := Filter(AllOf(AreNotNull(None, keys)), cx, Bind(rows, name.object_, env));
    GroupRowsHold(keys, inner, cx, |inner|, tuple);
    MembersOccur(inner, keys, tuple);
    var groups := GroupRows(keys, inner, SEVERAL, cx, |inner|);
    assert Rows(DuplicateGroups(name, keys), cx, env) == groups;
    var same := AllOf(AreSame("source", keys, "duplicates", keys));
    var envs := Bind(groups, "duplicates", env);
    forall i | 0 <= i < |groups| ensures Holds(same, cx, envs[i]) <==> KeyOf(groups[i], keys) == tuple {
      BothRowsAreRead(row, "source", groups[i], "duplicates", keys, keys);
      AreSameHolds("source", keys, "duplicates", keys, cx, envs[i], row, groups[i]);
    }
    FilterKeeps(same, cx, envs);
    var from := Derived(DuplicateGroups(name, keys), "duplicates");
    assert FromRows(from, cx, env) == envs;
    assert |Rows(SelectOne(from, same), cx, env)| == |Filter(same, cx, envs)|;
    assert Holds(IsDuplicate(name, keys), cx, env) <==> Rows(SelectOne(from, same), cx, env) != [];
    assert (exists i :: 0 <= i < |groups| && KeyOf(groups[i], keys) == tuple)
           <==> (exists g :: g in groups && KeyOf(g, keys) == tuple);
    hide Holds, Eval, Rows, FromRows, Filter, GroupRows, Members;
    assert Filter(same, cx, envs) != [] <==> (exists i :: 0 <= i < |groups| && KeyOf(groups[i], keys) == tuple);
  }

  lemma BothRowsAreRead(outer: Row, a: string, inner: Row, b: string, ks: seq<string>, ms: seq<string>)
    requires a != b
    ensures var env := [Binding(b, inner), Binding(a, outer)];
            && Reads(env, Some(a), ks, outer) && Reads(env, Some(b), ms, inner)
            && env == [Binding(b, inner)] + [Binding(a, outer)]
  {
    var env := [Binding(b, inner), Binding(a, outer)];
    forall k | k in ks ensures Lookup(env, Some(a), k) == Get(outer, k) {
      assert env[1..] == [Binding(a, outer)];
    }
  }

  lemma UniqueFailureHolds(row: Row, name: Name, keys: seq<string>, nullsFail: bool, cx: Context)
    requires keys != [] && Holding(TableRows(cx, name), keys)
    ensures Holds(UniqueFailure(name, keys, nullsFail), cx, [Binding("source", row)])
            <==> if HasNull(row, keys) then nullsFail
                 else multiset(KeysOf(TableRows(cx, name), keys))[KeyOf(row, keys)] > 1
  {
    var env := [Binding("source", row)];
    LoneRowIsRead(row, "source", keys);
    AreNullHolds(None, keys, cx, env, row);
    AreNotNullHolds(None, keys, cx, env, row);
    if !HasNull(row, keys) { DuplicateHolds(row, name, keys, cx); }
    hide HasNull, IsDuplicate, AllOf, AnyOf, KeysOf, KeyOf, AreNull, AreNotNull, Holding;
  }

  lemma UniqueSelects(row: Row, d: Draft, cx: Context)
    requires Validated(d) && d.options.Unique? && Catalogued(d, cx)
    ensures Selects(UniqueFailure(NameOf(d.target), Keys(d), d.nullsFail), d, cx, [Binding("source", row)], row)
  {
    UniqueFailureHolds(row, NameOf(d.target), Keys(d), d.nullsFail, cx);
    hide HasNull, UniqueFailure, Holds, KeysOf, KeyOf, CanonicalAll, Holding;
  }
}
