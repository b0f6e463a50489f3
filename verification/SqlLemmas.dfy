/** Facts about the semantics that every check relies on. */
module SqlLemmas {
  import opened Basics
  import opened SqlText
  import opened SqlModel
  import opened QualityCompiler

  /** The row-level reading of a column list. */
  function KeyOf(row: Row, keys: seq<string>): seq<Value> {
    seq(|keys|, i requires 0 <= i < |keys| => Get(row, keys[i]))
  }

  function KeysOf(rows: seq<Row>, keys: seq<string>): seq<seq<Value>> {
    seq(|rows|, i requires 0 <= i < |rows| => KeyOf(rows[i], keys))
  }

  predicate Holds(e: Expr, cx: Context, env: Env) {
    Eval(e, cx, env, []) == TRUE
  }

  // ---------------------------------------------------------------------
  // Joined conditions.
  // ---------------------------------------------------------------------

  lemma {:induction false} AllOfHolds(es: seq<Expr>, cx: Context, env: Env)
    requires es != []
    ensures Holds(AllOf(es), cx, env) <==> forall e :: e in es ==> Holds(e, cx, env)
  {
    var init, last := es[..|es| - 1], es[|es| - 1];
    assert es == init + [last];
    assert forall e :: e in es <==> e in init || e == last;
    if |es| > 1 {
      AllOfHolds(init, cx, env);
      assert AllOf(es) == And(AllOf(init), last);
      assert Eval(AllOf(es), cx, env, []) == And3(Eval(AllOf(init), cx, env, []), Eval(last, cx, env, []));
      assert Holds(AllOf(es), cx, env) <==> Holds(AllOf(init), cx, env) && Holds(last, cx, env);
      assert (forall e :: e in es ==> Holds(e, cx, env))
        <==> (forall e :: e in init ==> Holds(e, cx, env)) && Holds(last, cx, env);
    } else {
      assert AllOf(es) == last;
      assert (forall e :: e in es ==> Holds(e, cx, env)) <==> Holds(last, cx, env);
    }
  }

  lemma {:induction false} AnyOfHolds(es: seq<Expr>, cx: Context, env: Env)
    requires es != []
    ensures Holds(AnyOf(es), cx, env) <==> exists e :: e in es && Holds(e, cx, env)
  {
    var init, last := es[..|es| - 1], es[|es| - 1];
    assert es == init + [last];
    assert forall e :: e in es <==> e in init || e == last;
    if |es| > 1 {
      AnyOfHolds(init, cx, env);
      assert AnyOf(es) == Or(AnyOf(init), last);
      assert Eval(AnyOf(es), cx, env, []) == Or3(Eval(AnyOf(init), cx, env, []), Eval(last, cx, env, []));
      assert Holds(AnyOf(es), cx, env) <==> Holds(AnyOf(init), cx, env) || Holds(last, cx, env);
      assert (exists e :: e in es && Holds(e, cx, env))
        <==> (exists e :: e in init && Holds(e, cx, env)) || Holds(last, cx, env);
    } else {
      assert AnyOf(es) == last;
      assert (exists e :: e in es && Holds(e, cx, env)) <==> Holds(last, cx, env);
    }
  }

  /** The qualified or unqualified column reads this row's value. */
  predicate Reads(env: Env, qualifier: Option<string>, keys: seq<string>, row: Row) {
    forall k :: k in keys ==> Lookup(env, qualifier, k) == Get(row, k)
  }

  predicate HasNull(row: Row, keys: seq<string>) {
    exists k :: k in keys && Get(row, k) == Null
  }

  lemma AreNullHolds(qualifier: Option<string>, keys: seq<string>, cx: Context, env: Env, row: Row)
    requires keys != [] && Reads(env, qualifier, keys, row)
    ensures Holds(AnyOf(AreNull(qualifier, keys)), cx, env) <==> HasNull(row, keys)
  {
    var es := AreNull(qualifier, keys);
    AnyOfHolds(es, cx, env);
    forall i | 0 <= i < |keys| ensures es[i] in es && (Holds(es[i], cx, env) <==> Get(row, keys[i]) == Null) {
      assert keys[i] in keys;
      assert Eval(Column(qualifier, keys[i]), cx, env, []) == Get(row, keys[i]);
    }
    if HasNull(row, keys) {
      var k :| k in keys && Get(row, k) == Null;
      var i :| 0 <= i < |keys| && keys[i] == k;
      assert Holds(es[i], cx, env);
    }
  }

  lemma AreNotNullHolds(qualifier: Option<string>, keys: seq<string>, cx: Context, env: Env, row: Row)
    requires keys != [] && Reads(env, qualifier, keys, row)
    ensures Holds(AllOf(AreNotNull(qualifier, keys)), cx, env) <==> !HasNull(row, keys)
  {
    var es := AreNotNull(qualifier, keys);
    AllOfHolds(es, cx, env);
    forall i | 0 <= i < |keys| ensures es[i] in es && (Holds(es[i], cx, env) <==> Get(row, keys[i]) != Null) {
      assert keys[i] in keys;
      assert Eval(Column(qualifier, keys[i]), cx, env, []) == Get(row, keys[i]);
    }
    if HasNull(row, keys) {
      var k :| k in keys && Get(row, k) == Null;
      var i :| 0 <= i < |keys| && keys[i] == k;
      assert !Holds(es[i], cx, env);
    }
  }

  lemma AreSameHolds(a: string, ks: seq<string>, b: string, ms: seq<string>, cx: Context, env: Env, x: Row, y: Row)
    requires ks != [] && |ks| == |ms|
    requires Reads(env, Some(a), ks, x) && Reads(env, Some(b), ms, y)
    ensures Holds(AllOf(AreSame(a, ks, b, ms)), cx, env) <==> KeyOf(x, ks) == KeyOf(y, ms)
  {
    var es := AreSame(a, ks, b, ms);
    AllOfHolds(es, cx, env);
    forall i | 0 <= i < |ks|
      ensures es[i] in es && (Holds(es[i], cx, env) <==> KeyOf(x, ks)[i] == KeyOf(y, ms)[i])
    {
      assert ks[i] in ks && ms[i] in ms;
      assert Eval(Column(Some(a), ks[i]), cx, env, []) == Get(x, ks[i]);
      assert Eval(Column(Some(b), ms[i]), cx, env, []) == Get(y, ms[i]);
    }
    if forall i :: 0 <= i < |ks| ==> Holds(es[i], cx, env) {
      assert forall i :: 0 <= i < |ks| ==> KeyOf(x, ks)[i] == KeyOf(y, ms)[i];
      assert KeyOf(x, ks) == KeyOf(y, ms);
    }
  }

  // ---------------------------------------------------------------------
  // Filters.
  // ---------------------------------------------------------------------

  lemma {:induction false} FilterKeeps(w: Expr, cx: Context, envs: seq<Env>)
    ensures Filter(w, cx, envs) != [] <==> exists i :: 0 <= i < |envs| && Holds(w, cx, envs[i])
    ensures forall env :: env in Filter(w, cx, envs) ==> env in envs && Holds(w, cx, env)
  {
    if envs != [] {
      var n := |envs| - 1;
      var init := envs[..n];
      FilterKeeps(w, cx, init);
      if Filter(w, cx, init) != [] {
        var i :| 0 <= i < |init| && Holds(w, cx, init[i]);
        assert Holds(w, cx, envs[i]);
      } else {
        assert forall i :: 0 <= i < n ==> envs[i] == init[i];
      }
    }
  }

  lemma {:induction false} FilterAlways(cx: Context, envs: seq<Env>)
    ensures Filter(ALWAYS, cx, envs) == envs
  {
    if envs != [] {
      FilterAlways(cx, envs[..|envs| - 1]);
    }
  }

  lemma {:induction false} FilterNever(cx: Context, envs: seq<Env>)
    ensures Filter(Literal(JBool(false)), cx, envs) == []
  {
    if envs != [] {
      FilterNever(cx, envs[..|envs| - 1]);
    }
  }

  // ---------------------------------------------------------------------
  // Duplicates.
  // ---------------------------------------------------------------------

  lemma {:induction false} DeduplicatedIsASet(rows: seq<Row>)
    ensures forall row :: row in Deduplicated(rows) <==> row in rows
    ensures forall i, j :: 0 <= i < j < |Deduplicated(rows)| ==> Deduplicated(rows)[i] != Deduplicated(rows)[j]
  {
    if rows != [] {
      DeduplicatedIsASet(rows[..|rows| - 1]);
      assert rows == rows[..|rows| - 1] + [rows[|rows| - 1]];
    }
  }

  // ---------------------------------------------------------------------
  // Groups.
  // ---------------------------------------------------------------------

  const SEVERAL := Compare(GT, CountRows, ONE)

  lemma SeveralCounts(cx: Context, env: Env, group: seq<Env>)
    ensures Eval(SEVERAL, cx, env, group) == TRUE <==> |group| > 1
  {
    assert Eval(ONE, cx, env, group) == Number(1.0);
    assert Eval(CountRows, cx, env, group) == Number(|group| as real);
  }

  lemma RowHoldsTuple(env: Env, names: seq<string>)
    ensures KeyOf(TupleRow(env, names), names) == Tuple(env, names)
  {
    forall i | 0 <= i < |names| ensures KeyOf(TupleRow(env, names), names)[i] == Tuple(env, names)[i] {
      assert names[i] in names;
    }
  }

  predicate Occurs(envs: seq<Env>, names: seq<string>, tuple: seq<Value>, n: nat)
    requires n <= |envs|
  {
    exists i :: 0 <= i < n && Tuple(envs[i], names) == tuple
  }

  /** A tuple has an output row exactly if it occurs and its group has several members. */
  lemma {:induction false} GroupRowsHold(names: seq<string>, envs: seq<Env>, cx: Context, n: nat, tuple: seq<Value>)
    requires n <= |envs|
    ensures (exists row :: row in GroupRows(names, envs, SEVERAL, cx, n) && KeyOf(row, names) == tuple)
            <==> Occurs(envs, names, tuple, n) && |Members(envs, names, tuple)| > 1
  {
    if n > 0 {
      GroupRowsHold(names, envs, cx, n - 1, tuple);
      var env := envs[n - 1];
      var here := Tuple(env, names);
      SeveralCounts(cx, env, Members(envs, names, here));
      RowHoldsTuple(env, names);
      var before := GroupRows(names, envs, SEVERAL, cx, n - 1);
      var after := GroupRows(names, envs, SEVERAL, cx, n);
      assert Occurs(envs, names, tuple, n) <==> Occurs(envs, names, tuple, n - 1) || here == tuple;
      hide Eval, Members, KeyOf, Tuple, TupleRow;
      if here == tuple && !Occurs(envs, names, tuple, n - 1) && |Members(envs, names, here)| > 1 {
        assert after == before + [TupleRow(env, names)];
        assert TupleRow(env, names) in after;
      } else if here == tuple {
        assert after == before;
      } else {
        assert forall row :: row in before ==> row in after;
        assert forall row :: row in after ==> row in before || row == TupleRow(env, names);
      }
    }
  }

  lemma {:induction false} MembersOccur(envs: seq<Env>, names: seq<string>, tuple: seq<Value>)
    ensures Members(envs, names, tuple) != [] <==> Occurs(envs, names, tuple, |envs|)
  {
    if envs != [] {
      var init := envs[..|envs| - 1];
      MembersOccur(init, names, tuple);
      if Occurs(init, names, tuple, |init|) {
        var i :| 0 <= i < |init| && Tuple(init[i], names) == tuple;
        assert Tuple(envs[i], names) == tuple;
      }
      if Occurs(envs, names, tuple, |envs|) {
        var i :| 0 <= i < |envs| && Tuple(envs[i], names) == tuple;
        assert i < |init| ==> Tuple(init[i], names) == tuple;
      }
    }
  }

  /** Rows that hold all the key's columns shadow whatever is outside. */
  predicate Holding(rows: seq<Row>, keys: seq<string>) {
    forall row :: row in rows ==> forall k :: k in keys ==> k in row
  }

  lemma InnerRowIsRead(row: Row, alias: string, outer: Env, keys: seq<string>)
    requires forall k :: k in keys ==> k in row
    ensures Reads([Binding(alias, row)] + outer, None, keys, row)
    ensures Tuple([Binding(alias, row)] + outer, keys) == KeyOf(row, keys)
  {
    var env := [Binding(alias, row)] + outer;
    forall k | k in keys ensures Lookup(env, None, k) == Get(row, k) { assert env[0].row == row; }
    forall i | 0 <= i < |keys| ensures Tuple(env, keys)[i] == KeyOf(row, keys)[i] {
      assert keys[i] in keys;
    }
  }

  lemma BindInit(rows: seq<Row>, alias: string, outer: Env)
    requires rows != []
    ensures Bind(rows, alias, outer)
            == Bind(rows[..|rows| - 1], alias, outer) + [[Binding(alias, rows[|rows| - 1])] + outer]
    ensures Bind(rows, alias, outer)[..|rows| - 1] == Bind(rows[..|rows| - 1], alias, outer)
  {
  }

  lemma KeysInit(rows: seq<Row>, keys: seq<string>)
    requires rows != []
    ensures KeysOf(rows, keys) == KeysOf(rows[..|rows| - 1], keys) + [KeyOf(rows[|rows| - 1], keys)]
  {
  }

  predicate NoNull(tuple: seq<Value>) {
    forall v :: v in tuple ==> v != Null
  }

  lemma NoNullKey(row: Row, keys: seq<string>)
    ensures NoNull(KeyOf(row, keys)) <==> !HasNull(row, keys)
  {
    if HasNull(row, keys) {
      var k :| k in keys && Get(row, k) == Null;
      var i :| 0 <= i < |keys| && keys[i] == k;
      assert KeyOf(row, keys)[i] == Null && Null in KeyOf(row, keys);
    } else {
      forall v | v in KeyOf(row, keys) ensures v != Null {
        var i :| 0 <= i < |keys| && KeyOf(row, keys)[i] == v;
        assert keys[i] in keys;
      }
    }
  }

  /** Leaving the rows with a null key out changes no group of a key without nulls. */
  lemma {:induction false} MembersCountKeys(rows: seq<Row>, alias: string, outer: Env, keys: seq<string>, cx: Context,
                                            tuple: seq<Value>)
    requires keys != [] && Holding(rows, keys) && NoNull(tuple)
    ensures |Members(Filter(AllOf(AreNotNull(None, keys)), cx, Bind(rows, alias, outer)), keys, tuple)|
            == multiset(KeysOf(rows, keys))[tuple]
  {
    var w := AllOf(AreNotNull(None, keys));
    if rows != [] {
      var init, row := rows[..|rows| - 1], rows[|rows| - 1];
      assert row in rows;
      assert forall r :: r in init ==> r in rows;
      MembersCountKeys(init, alias, outer, keys, cx, tuple);
      BindInit(rows, alias, outer);
      KeysInit(rows, keys);
      var env := [Binding(alias, row)] + outer;
      InnerRowIsRead(row, alias, outer, keys);
      AreNotNullHolds(None, keys, cx, env, row);
      NoNullKey(row, keys);
      var before := Filter(w, cx, Bind(init, alias, outer));
      assert (before + [env])[..|before|] == before;
    }
  }

  // ---------------------------------------------------------------------
  // Membership and bounds.
  // ---------------------------------------------------------------------

  predicate Truth(v: Value) {
    v == TRUE || v == FALSE || v == Null
  }

  lemma OrOfTruths(a: Value, b: Value)
    requires Truth(a) && Truth(b)
    ensures Truth(Or3(a, b))
    ensures Or3(a, b) == TRUE <==> a == TRUE || b == TRUE
    ensures Or3(a, b) == FALSE <==> a == FALSE && b == FALSE
  {
  }

  lemma InEnds(ws: seq<Value>, v: Value)
    requires ws != []
    ensures v in ws <==> v in ws[..|ws| - 1] || v == ws[|ws| - 1]
  {
    assert ws == ws[..|ws| - 1] + [ws[|ws| - 1]];
  }

  lemma {:induction false} InIsMembership(v: Value, ws: seq<Value>)
    ensures In3(v, ws) == TRUE <==> v != Null && v in ws
    ensures In3(v, ws) == FALSE <==> ws == [] || (v != Null && Null !in ws && v !in ws)
    ensures Truth(In3(v, ws))
  {
    if ws != [] {
      var init, last := ws[..|ws| - 1], ws[|ws| - 1];
      InIsMembership(v, init);
      InEnds(ws, v);
      InEnds(ws, Null);
      assert In3(v, ws) == Or3(In3(v, init), Equal3(v, last));
      assert Truth(Equal3(v, last)) && (Equal3(v, last) == TRUE <==> v != Null && v == last)
             && (Equal3(v, last) == FALSE <==> v != Null && last != Null && v != last);
      hide In3, Equal3, Or3;
      OrOfTruths(In3(v, init), Equal3(v, last));
    }
  }

  // ---------------------------------------------------------------------
  // Aggregates over one column.
  // ---------------------------------------------------------------------

  lemma ReadsColumn(row: Row, alias: string, outer: Env, c: string, cx: Context)
    requires c in row
    ensures Eval(Column(None, c), cx, [Binding(alias, row)] + outer, []) == Get(row, c)
  {
    assert ([Binding(alias, row)] + outer)[0].row == row;
  }

  lemma {:induction false} AggregatesRead(rows: seq<Row>, alias: string, outer: Env, c: string, cx: Context)
    requires Holding(rows, [c])
    ensures var envs := Bind(rows, alias, outer);
            && (CountNonNull(Column(None, c), cx, envs) > 0 <==> exists row :: row in rows && Get(row, c) != Null)
            && (|Filter(IsNull(Column(None, c)), cx, envs)| > 0 <==> exists row :: row in rows && Get(row, c) == Null)
  {
    if rows != [] {
      var init, row := rows[..|rows| - 1], rows[|rows| - 1];
      assert row in rows && c in [c];
      assert forall r :: r in init ==> r in rows;
      assert forall r :: r in rows ==> r in init || r == row;
      AggregatesRead(init, alias, outer, c, cx);
      BindInit(rows, alias, outer);
      ReadsColumn(row, alias, outer, c, cx);
    }
  }

  /** MAX ignores nulls, is one of the values and no value is larger. */
  lemma {:induction false} MaxIsLargest(rows: seq<Row>, alias: string, outer: Env, c: string, cx: Context)
    requires Holding(rows, [c])
    ensures var m := MaxIn(Column(None, c), cx, Bind(rows, alias, outer));
            && (m == Null <==> forall row :: row in rows ==> Get(row, c) == Null)
            && (m != Null ==> exists row :: row in rows && Get(row, c) == m)
            && (forall row :: row in rows ==> !Less(m, Get(row, c)))
  {
    if rows != [] {
      var init, row := rows[..|rows| - 1], rows[|rows| - 1];
      assert row in rows && c in [c];
      assert forall r :: r in init ==> r in rows;
      assert forall r :: r in rows ==> r in init || r == row;
      MaxIsLargest(init, alias, outer, c, cx);
      BindInit(rows, alias, outer);
      ReadsColumn(row, alias, outer, c, cx);
      var m := MaxIn(Column(None, c), cx, Bind(init, alias, outer));
      var v := Get(row, c);
      forall r | r in rows ensures !Less(Larger(m, v), Get(r, c)) {
        LessIsStrictOrder(m, v, Get(r, c));
        LessIsStrictOrder(v, Get(r, c), m);
        LessIsStrictOrder(m, Get(r, c), v);
        LessIsStrictOrder(v, v, v);
      }
    }
  }
}
