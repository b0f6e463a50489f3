/** The fragment of SQL that quality checks compile to: rows, three-valued logic and bag
    semantics (ISO/IEC 9075-2, sections 8.2 and 8.4). NULL is also the unknown truth value. */
module SqlModel {
  import opened Basics
  import opened SqlText

  datatype Value = Null | Boolean(b: bool) | Number(n: real) | Text(s: string) | Instant(at: int)

  type Row = map<string, Value>

  /** A missing column reads as NULL; so does every column of the empty row that an outer
      join puts in place of a missing partner. */
  function Get(row: Row, column: string): Value {
    if column in row then row[column] else Null
  }

  const TRUE := Boolean(true)
  const FALSE := Boolean(false)

  // ---------------------------------------------------------------------
  // Comparison of non-null values.
  // ---------------------------------------------------------------------

  function Rank(v: Value): nat {
    match v
    case Null => 0
    case Boolean(_) => 1
    case Number(_) => 2
    case Text(_) => 3
    case Instant(_) => 4
  }

  predicate Less(a: Value, b: Value) {
    match (a, b)
    case (Boolean(x), Boolean(y)) => !x && y
    case (Number(x), Number(y)) => x < y
    case (Text(x), Text(y)) => Before(x, y)
    case (Instant(x), Instant(y)) => x < y
    case _ => Rank(a) < Rank(b)
  }

  lemma LessIsStrictOrder(a: Value, b: Value, c: Value)
    ensures !Less(a, a)
    ensures Less(a, b) && Less(b, c) ==> Less(a, c)
    ensures a == b || Less(a, b) || Less(b, a)
  {
    if a.Text? { BeforeIrreflexive(a.s); }
    if a.Text? && b.Text? {
      BeforeTotal(a.s, b.s);
      if c.Text? && Less(a, b) && Less(b, c) { BeforeTransitive(a.s, b.s, c.s); }
    }
  }

  // ---------------------------------------------------------------------
  // Three-valued logic.
  // ---------------------------------------------------------------------

  function And3(a: Value, b: Value): Value {
    if a == FALSE || b == FALSE then FALSE else if a == TRUE && b == TRUE then TRUE else Null
  }

  function Or3(a: Value, b: Value): Value {
    if a == TRUE || b == TRUE then TRUE else if a == FALSE && b == FALSE then FALSE else Null
  }

  function Not3(a: Value): Value {
    if a.Boolean? then Boolean(!a.b) else Null
  }

  function Equal3(a: Value, b: Value): Value {
    if a.Null? || b.Null? then Null else Boolean(a == b)
  }

  /** `v IN (w1, ..., wn)` is the disjunction of `v = w1`, ..., `v = wn`. */
  function In3(v: Value, ws: seq<Value>): Value {
    if ws == [] then FALSE else Or3(In3(v, ws[..|ws| - 1]), Equal3(v, ws[|ws| - 1]))
  }

  datatype Op = EQ | LT | LE | GT | GE

  function Compare3(op: Op, a: Value, b: Value): Value {
    if a.Null? || b.Null? then Null
    else match op
      case EQ => Boolean(a == b)
      case LT => Boolean(Less(a, b))
      case LE => Boolean(!Less(b, a))
      case GT => Boolean(Less(b, a))
      case GE => Boolean(!Less(a, b))
  }

  // ---------------------------------------------------------------------
  // Syntax.
  // ---------------------------------------------------------------------

  datatype Name = Name(database: string, schema: string, object_: string)

  datatype Expr =
    | Column(qualifier: Option<string>, name: string)
    | Literal(json: Json)
    | IsNull(e: Expr)
    | IsNotNull(e: Expr)
    | NotDistinct(a: Expr, b: Expr)
    | Compare(op: Op, a: Expr, b: Expr)
    | NotIn(e: Expr, values: seq<Json>)
    | And(a: Expr, b: Expr)
    | Or(a: Expr, b: Expr)
    | Exists(q: Query)
    | Scalar(q: Query)
    | CountRows
    | CountOf(e: Expr)
    | CountWhere(e: Expr)
    | MaxOf(e: Expr)
    | Case(condition: Expr, then_: Expr, else_: Expr)
    | Ago(seconds: nat)

  /** SelectRows is `SELECT alias.*`; SelectValue an aggregate over one implicit group;
      SelectDistinct keeps the named columns and adds a constant true column. */
  datatype Query =
    | SelectRows(alias: string, from: From, where_: Expr)
    | SelectOne(from: From, where_: Expr)
    | SelectValue(e: Expr, from: From, where_: Expr)
    | SelectDistinct(names: seq<string>, marker: string, from: From)
    | SelectGroups(names: seq<string>, from: From, where_: Expr, having: Expr)
    | Verbatim(text: string)

  datatype From =
    | Table(table: Name, alias: string)
    | Derived(q: Query, alias: string)
    | LeftJoin(left: From, right: Query, alias: string, on: Expr)

  /** The column name of SelectValue's only column. */
  const RESULT := "failure_count"

  // ---------------------------------------------------------------------
  // Semantics.
  // ---------------------------------------------------------------------

  type NonNull = v: Value | v != Null witness Boolean(true)

  /** What a query is evaluated against. `casts` says which value a text literal denotes
      in the type of the column it is compared with, `verbatim` what a hand-written query
      returns, and `firstWins` which column a name refers to that SelectDistinct's list
      holds twice. */
  datatype Context = Context(
    tables: map<Name, seq<Row>>,
    verbatim: map<string, seq<Row>>,
    casts: map<string, NonNull>,
    now: int,
    firstWins: bool)

  datatype Binding = Binding(alias: string, row: Row)

  /** The rows in scope, innermost first. */
  type Env = seq<Binding>

  function Lookup(env: Env, qualifier: Option<string>, name: string): Value {
    if env == [] then Null
    else if (if qualifier.Some? then env[0].alias == qualifier.value else name in env[0].row) then Get(env[0].row, name)
    else Lookup(env[1..], qualifier, name)
  }

  function Denotes(json: Json, casts: map<string, NonNull>): Value {
    match json
    case JNull => Null
    case JBool(b) => Boolean(b)
    case JNumber(_, n) => Number(n)
    case JString(s) => if s in casts then casts[s] else Text(s)
    case _ => Null
  }

  function DenoteAll(values: seq<Json>, casts: map<string, NonNull>): seq<Value> {
    seq(|values|, i requires 0 <= i < |values| => Denotes(values[i], casts))
  }

  function TableRows(cx: Context, name: Name): seq<Row> {
    if name in cx.tables then cx.tables[name] else []
  }

  function Bind(rows: seq<Row>, alias: string, outer: Env): seq<Env> {
    seq(|rows|, i requires 0 <= i < |rows| => [Binding(alias, rows[i])] + outer)
  }

  function Larger(a: Value, b: Value): Value {
    if Less(a, b) then b else a
  }

  /** The tuple of the named columns' values. */
  function Tuple(env: Env, names: seq<string>): seq<Value> {
    seq(|names|, i requires 0 <= i < |names| => Lookup(env, None, names[i]))
  }

  function TupleRow(env: Env, names: seq<string>): Row {
    map n | n in names :: Lookup(env, None, n)
  }

  function Members(envs: seq<Env>, names: seq<string>, tuple: seq<Value>): seq<Env> {
    if envs == [] then []
    else
      var init := Members(envs[..|envs| - 1], names, tuple);
      if Tuple(envs[|envs| - 1], names) == tuple then init + [envs[|envs| - 1]] else init
  }

  /** One row of SelectDistinct, before duplicates go. */
  function Marked(env: Env, names: seq<string>, marker: string, firstWins: bool): Row {
    map n | n in names + [marker] ::
      if n == marker && !(firstWins && marker in names) then TRUE else Lookup(env, None, n)
  }

  function MarkAll(envs: seq<Env>, names: seq<string>, marker: string, firstWins: bool): seq<Row> {
    seq(|envs|, i requires 0 <= i < |envs| => Marked(envs[i], names, marker, firstWins))
  }

  function Deduplicated(rows: seq<Row>): seq<Row> {
    if rows == [] then []
    else
      var init := Deduplicated(rows[..|rows| - 1]);
      if rows[|rows| - 1] in init then init else init + [rows[|rows| - 1]]
  }

  /** The row bound to `alias` in each environment. */
  function Pick(env: Env, alias: string): Row {
    if env == [] then map[] else if env[0].alias == alias then env[0].row else Pick(env[1..], alias)
  }

  function PickAll(envs: seq<Env>, alias: string): seq<Row> {
    seq(|envs|, i requires 0 <= i < |envs| => Pick(envs[i], alias))
  }

  /** An expression's value; aggregates range over `group`. */
  function Eval(e: Expr, cx: Context, env: Env, group: seq<Env>): Value
    decreases e, 0, 0
  {
    match e
    case Column(qualifier, name) => Lookup(env, qualifier, name)
    case Literal(json) => Denotes(json, cx.casts)
    case IsNull(a) => Boolean(Eval(a, cx, env, group).Null?)
    case IsNotNull(a) => Boolean(!Eval(a, cx, env, group).Null?)
    case NotDistinct(a, b) => Boolean(Eval(a, cx, env, group) == Eval(b, cx, env, group))
    case Compare(op, a, b) => Compare3(op, Eval(a, cx, env, group), Eval(b, cx, env, group))
    case NotIn(a, values) => Not3(In3(Eval(a, cx, env, group), DenoteAll(values, cx.casts)))
    case And(a, b) => And3(Eval(a, cx, env, group), Eval(b, cx, env, group))
    case Or(a, b) => Or3(Eval(a, cx, env, group), Eval(b, cx, env, group))
    case Exists(q) => Boolean(Rows(q, cx, env) != [])
    case Scalar(q) => (var rows := Rows(q, cx, env); if |rows| == 1 then Get(rows[0], RESULT) else Null)
    case CountRows => Number(|group| as real)
    case CountOf(a) => Number(CountNonNull(a, cx, group) as real)
    case CountWhere(a) => Number(|Filter(a, cx, group)| as real)
    case MaxOf(a) => MaxIn(a, cx, group)
    case Case(condition, a, b) =>
      if Eval(condition, cx, env, group) == TRUE then Eval(a, cx, env, group) else Eval(b, cx, env, group)
    case Ago(seconds) => Instant(cx.now - seconds)
  }

  function CountNonNull(e: Expr, cx: Context, group: seq<Env>): nat
    decreases e, 1, |group|
  {
    if group == [] then 0
    else CountNonNull(e, cx, group[..|group| - 1]) + if Eval(e, cx, group[|group| - 1], []).Null? then 0 else 1
  }

  /** The largest non-null value, or NULL if there is none. */
  function MaxIn(e: Expr, cx: Context, group: seq<Env>): Value
    decreases e, 1, |group|
  {
    if group == [] then Null
    else Larger(MaxIn(e, cx, group[..|group| - 1]), Eval(e, cx, group[|group| - 1], []))
  }

  /** Only a true condition keeps a row; false and unknown drop it. */
  function Filter(condition: Expr, cx: Context, envs: seq<Env>): seq<Env>
    decreases condition, 1, |envs|
  {
    if envs == [] then []
    else
      var init := Filter(condition, cx, envs[..|envs| - 1]);
      var last := envs[|envs| - 1];
      if Eval(condition, cx, last, []) == TRUE then init + [last] else init
  }

  /** Every left row with each partner the condition accepts, or with the empty row. */
  function Join(lefts: seq<Env>, rights: seq<Row>, alias: string, on: Expr, cx: Context): seq<Env>
    decreases on, 2, |lefts|
  {
    if lefts == [] then []
    else
      var left := lefts[|lefts| - 1];
      var accepted := Filter(on, cx, Bind(rights, alias, left));
      Join(lefts[..|lefts| - 1], rights, alias, on, cx)
      + if accepted == [] then [[Binding(alias, map[])] + left] else accepted
  }

  function FromRows(f: From, cx: Context, outer: Env): seq<Env>
    decreases f, 0, 0
  {
    match f
    case Table(name, alias) => Bind(TableRows(cx, name), alias, outer)
    case Derived(q, alias) => Bind(Rows(q, cx, outer), alias, outer)
    case LeftJoin(left, right, alias, on) =>
      Join(FromRows(left, cx, outer), Rows(right, cx, []), alias, on, cx)
  }

  /** One row for each group, in order of first appearance, that the condition keeps. */
  function GroupRows(names: seq<string>, envs: seq<Env>, having: Expr, cx: Context, n: nat): seq<Row>
    requires n <= |envs|
    decreases having, 2, n
  {
    if n == 0 then []
    else
      var init := GroupRows(names, envs, having, cx, n - 1);
      var env := envs[n - 1];
      if (forall i :: 0 <= i < n - 1 ==> Tuple(envs[i], names) != Tuple(env, names))
         && Eval(having, cx, env, Members(envs, names, Tuple(env, names))) == TRUE
      then init + [TupleRow(env, names)] else init
  }

  function Rows(q: Query, cx: Context, outer: Env): seq<Row>
    decreases q, 0, 0
  {
    match q
    case SelectRows(alias, from, where_) => PickAll(Filter(where_, cx, FromRows(from, cx, outer)), alias)
    case SelectOne(from, where_) =>
      var n := |Filter(where_, cx, FromRows(from, cx, outer))|;
      seq(n, i => map[RESULT := Number(1.0)])
    case SelectValue(e, from, where_) =>
      [map[RESULT := Eval(e, cx, outer, Filter(where_, cx, FromRows(from, cx, outer)))]]
    case SelectDistinct(names, marker, from) =>
      Deduplicated(MarkAll(FromRows(from, cx, outer), names, marker, cx.firstWins))
    case SelectGroups(names, from, where_, having) =>
      var envs := Filter(where_, cx, FromRows(from, cx, outer));
      GroupRows(names, envs, having, cx, |envs|)
    case Verbatim(text) => if text in cx.verbatim then cx.verbatim[text] else []
  }

  /** A query's only value, as the run coordinator reads it. */
  function Cell(q: Query, cx: Context): Value {
    var rows := Rows(q, cx, []);
    if rows == [] then Null else Get(rows[0], RESULT)
  }
}
