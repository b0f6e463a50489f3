/** Quality checks as SQL: what a check definition compiles to. */
module QualityCompiler {
  import opened Basics
  import opened SqlText
  import opened SqlModel
  import opened SqlStatements

  const MARKER := "__tarik_match"

  datatype Target = Target(database: string, schema: string, object_: string, columns: seq<string>)

  datatype Options =
    | NotEmpty
    | NotNull
    | Unique
    | AcceptedValues(values: seq<Json>)
    | Range(minimum: Option<Json>, maximum: Option<Json>, inclusiveMinimum: bool, inclusiveMaximum: bool)
    | Relationship(parent: Target, parentColumns: seq<string>)
    | Freshness(maximumAgeSeconds: nat)
    | CustomSql(sql: string)

  datatype Draft = Draft(target: Target, options: Options, nullsFail: bool)

  datatype Compiled = Compiled(count: Query, preview: Query, custom: bool)

  // ---------------------------------------------------------------------
  // Names and literals.
  // ---------------------------------------------------------------------

  /** The identifier that a quoted name denotes; identifiers that differ in the case of
      letters only are the same. */
  function Identifier(name: string): Result<string> {
    if Quote(name).None? then Err("quality.identifier_empty") else Ok(Canonical(name))
  }

  function Identifiers(names: seq<string>): Result<seq<string>> {
    if names == [] then Ok([])
    else
      var init :- Identifiers(names[..|names| - 1]);
      var last :- Identifier(names[|names| - 1]);
      Ok(init + [last])
  }

  function TargetName(t: Target): Result<Name> {
    var database :- Identifier(t.database);
    var schema :- Identifier(t.schema);
    var object_ :- Identifier(t.object_);
    Ok(Name(database, schema, object_))
  }

  function FirstColumn(t: Target): Result<string> {
    if t.columns == [] then Err("quality.column_missing") else Identifier(t.columns[0])
  }

  function ScalarLiteral(json: Json): Result<Json> {
    if SqlLiteral(json).None? then Err("quality.literal_requires_scalar") else Ok(json)
  }

  function Scalars(values: seq<Json>): Result<seq<Json>> {
    if values == [] then Ok([])
    else
      var init :- Scalars(values[..|values| - 1]);
      var last :- ScalarLiteral(values[|values| - 1]);
      Ok(init + [last])
  }

  // ---------------------------------------------------------------------
  // Conditions.
  // ---------------------------------------------------------------------

  const ALWAYS := Literal(JBool(true))
  const ZERO := Literal(JNumber("0", 0.0))
  const ONE := Literal(JNumber("1", 1.0))

  /** Conditions joined by AND; a join of none has no meaning. */
  function AllOf(es: seq<Expr>): Expr {
    if es == [] then Literal(JNull)
    else if |es| == 1 then es[0]
    else And(AllOf(es[..|es| - 1]), es[|es| - 1])
  }

  function AnyOf(es: seq<Expr>): Expr {
    if es == [] then Literal(JNull)
    else if |es| == 1 then es[0]
    else Or(AnyOf(es[..|es| - 1]), es[|es| - 1])
  }

  function AreNull(qualifier: Option<string>, keys: seq<string>): seq<Expr> {
    seq(|keys|, i requires 0 <= i < |keys| => IsNull(Column(qualifier, keys[i])))
  }

  function AreNotNull(qualifier: Option<string>, keys: seq<string>): seq<Expr> {
    seq(|keys|, i requires 0 <= i < |keys| => IsNotNull(Column(qualifier, keys[i])))
  }

  /** Null-safe equality, column by column. */
  function AreSame(left: string, lefts: seq<string>, right: string, rights: seq<string>): seq<Expr> {
    seq(Min(|lefts|, |rights|), i requires 0 <= i < Min(|lefts|, |rights|) =>
      NotDistinct(Column(Some(left), lefts[i]), Column(Some(right), rights[i])))
  }

  function NullPredicate(column: Expr, failure: Expr, nullsFail: bool): Expr {
    if nullsFail then Or(IsNull(column), failure) else And(IsNotNull(column), failure)
  }

  // ---------------------------------------------------------------------
  // The kinds of check.
  // ---------------------------------------------------------------------

  /** A count and a preview over the same selection. */
  function Pair(alias: string, from: From, failure: Expr): Compiled {
    Compiled(SelectValue(CountRows, from, failure), SelectRows(alias, from, failure), false)
  }

  function Simple(name: Name, failure: Expr): Compiled {
    Pair(name.object_, Table(name, name.object_), failure)
  }

  function CompileNotEmpty(name: Name): Compiled {
    var from := Table(name, name.object_);
    Compiled(SelectValue(Case(Compare(EQ, CountRows, ZERO), ONE, ZERO), from, ALWAYS),
             SelectRows(name.object_, from, Literal(JBool(false))), false)
  }

  function DuplicateGroups(name: Name, keys: seq<string>): Query {
    SelectGroups(keys, Table(name, name.object_), AllOf(AreNotNull(None, keys)), Compare(GT, CountRows, ONE))
  }

  function IsDuplicate(name: Name, keys: seq<string>): Expr {
    Exists(SelectOne(Derived(DuplicateGroups(name, keys), "duplicates"),
                     AllOf(AreSame("source", keys, "duplicates", keys))))
  }

  function UniqueFailure(name: Name, keys: seq<string>, nullsFail: bool): Expr {
    if nullsFail then Or(AnyOf(AreNull(None, keys)), IsDuplicate(name, keys))
    else And(AllOf(AreNotNull(None, keys)), IsDuplicate(name, keys))
  }

  function AcceptedFailure(column: Expr, values: seq<Json>, nullsFail: bool): Expr {
    NullPredicate(column, NotIn(column, values), nullsFail)
  }

  function OutsideBounds(column: Expr, o: Options): seq<Expr>
    requires o.Range?
  {
    var below := if o.minimum.None? then []
                 else [Compare(if o.inclusiveMinimum then LT else LE, column, Literal(o.minimum.value))];
    var above := if o.maximum.None? then []
                 else [Compare(if o.inclusiveMaximum then GT else GE, column, Literal(o.maximum.value))];
    below + above
  }

  function RangeFailure(column: Expr, o: Options, nullsFail: bool): Expr
    requires o.Range?
  {
    NullPredicate(column, AnyOf(OutsideBounds(column, o)), nullsFail)
  }

  function Joined(name: Name, keys: seq<string>, parent: Name, parentKeys: seq<string>): From {
    LeftJoin(Table(name, "child"), SelectDistinct(parentKeys, MARKER, Table(parent, parent.object_)), "parent",
             AllOf(AreSame("child", keys, "parent", parentKeys)))
  }

  function RelationshipFailure(keys: seq<string>, nullsFail: bool): Expr {
    var unmatched := IsNull(Column(Some("parent"), MARKER));
    if nullsFail then Or(AnyOf(AreNull(Some("child"), keys)), unmatched)
    else And(AllOf(AreNotNull(Some("child"), keys)), unmatched)
  }

  function StaleGroup(column: string, seconds: nat, nullsFail: bool): Expr {
    var stale := Compare(LT, MaxOf(Column(None, column)), Ago(seconds));
    if nullsFail then Or(Compare(GT, CountWhere(IsNull(Column(None, column))), ZERO), stale) else stale
  }

  function CompileFreshness(name: Name, column: string, seconds: nat, nullsFail: bool): Compiled {
    var counted := CountOf(Column(None, column));
    var stale := StaleGroup(column, seconds, nullsFail);
    var plain := Table(name, name.object_);
    var shown := Column(Some("source"), column);
    Compiled(
      SelectValue(Case(Compare(EQ, counted, ZERO), Literal(JNull), Case(stale, ONE, ZERO)), plain, ALWAYS),
      SelectRows("source", Table(name, "source"),
        And(Scalar(SelectValue(And(Compare(GT, counted, ZERO), stale), plain, ALWAYS)),
            Or(IsNull(shown), Compare(LT, shown, Ago(seconds))))),
      false)
  }

  /** The text without the semicolons at its end. */
  function TrimSemicolons(s: string): string {
    if s != [] && s[|s| - 1] == ';' then TrimSemicolons(s[..|s| - 1]) else s
  }

  function Statement(sql: string): string {
    Trim(TrimSemicolons(Trim(sql)))
  }

  /** The statement is pasted into the text of the count query. What that text means is a
      count only if it holds the statement; otherwise it stays a text. */
  function CompileCustom(sql: string): Compiled {
    var t := Statement(sql);
    Compiled(if Held(t) then SelectValue(CountRows, Derived(Verbatim(t), "quality_failures"), ALWAYS)
             else Verbatim(CountText(t)),
             Verbatim(t), true)
  }

  function Compile(d: Draft): Result<Compiled> {
    var name :- TargetName(d.target);
    match d.options
    case NotEmpty => Ok(CompileNotEmpty(name))
    case NotNull =>
      var column :- FirstColumn(d.target);
      Ok(Simple(name, IsNull(Column(None, column))))
    case Unique =>
      var keys :- Identifiers(d.target.columns);
      Ok(Pair("source", Table(name, "source"), UniqueFailure(name, keys, d.nullsFail)))
    case AcceptedValues(values) =>
      var column :- FirstColumn(d.target);
      var literals :- Scalars(values);
      Ok(Simple(name, AcceptedFailure(Column(None, column), literals, d.nullsFail)))
    case Range(minimum, maximum, _, _) =>
      var column :- FirstColumn(d.target);
      var low :- Scalars(if minimum.None? then [] else [minimum.value]);
      var high :- Scalars(if maximum.None? then [] else [maximum.value]);
      Ok(Simple(name, RangeFailure(Column(None, column), d.options, d.nullsFail)))
    case Relationship(parent, parentColumns) =>
      var keys :- Identifiers(d.target.columns);
      var parentKeys :- Identifiers(parentColumns);
      var parentName :- TargetName(parent);
      Ok(Pair("child", Joined(name, keys, parentName, parentKeys), RelationshipFailure(keys, d.nullsFail)))
    case Freshness(seconds) =>
      var column :- FirstColumn(d.target);
      Ok(CompileFreshness(name, column, seconds, d.nullsFail))
    case CustomSql(sql) => Ok(CompileCustom(sql))
  }

  // ---------------------------------------------------------------------
  // What a stored definition has passed.
  // ---------------------------------------------------------------------

  predicate Plain(json: Json) {
    json.JBool? || json.JNumber? || json.JString?
  }

  predicate Named(names: seq<string>) {
    forall i :: 0 <= i < |names| ==> Trim(names[i]) != []
  }

  predicate PartsNamed(t: Target) {
    Trim(t.database) != [] && Trim(t.schema) != [] && Trim(t.object_) != []
  }

  predicate TargetNamed(t: Target) {
    PartsNamed(t) && Named(t.columns)
  }

  predicate Validated(d: Draft) {
    && TargetNamed(d.target)
    && match d.options
       case NotEmpty => d.target.columns == []
       case NotNull => |d.target.columns| == 1
       case Unique => d.target.columns != []
       case AcceptedValues(values) =>
         |d.target.columns| == 1 && values != [] && forall i :: 0 <= i < |values| ==> Plain(values[i])
       case Range(minimum, maximum, _, _) =>
         && |d.target.columns| == 1
         && (minimum.Some? || maximum.Some?)
         && (minimum.Some? ==> Plain(minimum.value))
         && (maximum.Some? ==> Plain(maximum.value))
       case Relationship(parent, parentColumns) =>
         && TargetNamed(parent) && Named(parentColumns)
         && d.target.columns != [] && |d.target.columns| == |parentColumns|
       case Freshness(seconds) => |d.target.columns| == 1 && seconds > 0
       case CustomSql(sql) => Trim(sql) != [] && StoredStatements(Trim(sql)) == 1
  }

  function CanonicalAll(names: seq<string>): seq<string> {
    seq(|names|, i requires 0 <= i < |names| => Canonical(names[i]))
  }

  lemma {:induction false} IdentifiersAreCanonical(names: seq<string>)
    ensures Identifiers(names) == if Named(names) then Ok(CanonicalAll(names)) else Err("quality.identifier_empty")
  {
    if names != [] {
      var init := names[..|names| - 1];
      IdentifiersAreCanonical(init);
      assert names == init + [names[|names| - 1]];
      assert Named(names) <==> Named(init) && Trim(names[|names| - 1]) != [] by {
        assert forall i :: 0 <= i < |init| ==> names[i] == init[i];
      }
      if Named(names) {
        assert CanonicalAll(names) == CanonicalAll(init) + [Canonical(names[|names| - 1])];
      }
    }
  }

  predicate AllScalar(values: seq<Json>) {
    forall i :: 0 <= i < |values| ==> !values[i].JArray? && !values[i].JObject?
  }

  lemma {:induction false} ScalarsAreKept(values: seq<Json>)
    ensures Scalars(values) == if AllScalar(values) then Ok(values) else Err("quality.literal_requires_scalar")
  {
    if values != [] {
      var init := values[..|values| - 1];
      ScalarsAreKept(init);
      assert values == init + [values[|values| - 1]];
    }
  }

  predicate FirstNamed(t: Target) {
    t.columns != [] && Trim(t.columns[0]) != []
  }

  /** A check compiles exactly if its names are not blank, the column it needs is there
      and its literals are scalars. */
  predicate Compilable(d: Draft) {
    && PartsNamed(d.target)
    && match d.options
       case NotEmpty => true
       case CustomSql(_) => true
       case Unique => Named(d.target.columns)
       case Relationship(parent, parentColumns) =>
         Named(d.target.columns) && Named(parentColumns)
         && PartsNamed(parent)
       case AcceptedValues(values) => FirstNamed(d.target) && AllScalar(values)
       case Range(minimum, maximum, _, _) =>
         && FirstNamed(d.target)
         && (minimum.Some? ==> !minimum.value.JArray? && !minimum.value.JObject?)
         && (maximum.Some? ==> !maximum.value.JArray? && !maximum.value.JObject?)
       case _ => FirstNamed(d.target)
  }

  lemma CompilesIffCompilable(d: Draft)
    ensures Compile(d).Ok? <==> Compilable(d)
    ensures Validated(d) ==> Compilable(d)
  {
    IdentifiersAreCanonical(d.target.columns);
    hide Trim, Delimited, Identifiers, CanonicalAll;
    match d.options
    case AcceptedValues(values) => ScalarsAreKept(values);
    case Range(minimum, maximum, _, _) =>
      ScalarsAreKept(if minimum.None? then [] else [minimum.value]);
      ScalarsAreKept(if maximum.None? then [] else [maximum.value]);
    case Relationship(parent, parentColumns) => IdentifiersAreCanonical(parentColumns);
    case _ =>
  }

  /** The printed three-part name, scanned, is the name that the syntax tree holds. */
  lemma NamesAreReadBack(t: Target)
    ensures TargetName(t).Ok? <==> Qualified(t.database, t.schema, t.object_).Some?
    ensures TargetName(t).Ok? ==>
              ReadQualified(Qualified(t.database, t.schema, t.object_).value)
              == Some((Trim(t.database), Trim(t.schema), Trim(t.object_)))
              && TargetName(t).value == Name(Canonical(t.database), Canonical(t.schema), Canonical(t.object_))
  {
    if TargetName(t).Ok? { ReadBack(t.database, t.schema, t.object_); }
  }
}
