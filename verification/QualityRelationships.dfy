/** Relationship checks: the left join against the distinct parent keys pairs every child
    row with at most one parent row, whatever the parent's duplicates. */
module QualityRelationships {
  import opened Basics
  import opened SqlText
  import opened SqlModel
  import opened QualityCompiler
  import opened SqlLemmas
  import opened QualityChecks

  function ParentRows(cx: Context, parent: Name, pk: seq<string>): seq<Row> {
    Rows(SelectDistinct(pk, MARKER, Table(parent, parent.object_)), cx, [])
  }

  function MarkedRow(p: Row, alias: string, pk: seq<string>, cx: Context): Row {
    Marked([Binding(alias, p)], pk, MARKER, cx.firstWins)
  }

  lemma MarkedHasKey(p: Row, alias: string, pk: seq<string>, cx: Context)
    requires ClearMarker(pk, cx)
    ensures var r := MarkedRow(p, alias, pk, cx);
            && KeyOf(r, pk) == KeyOf(p, pk)
            && (Get(r, MARKER) == Null ==> HasNull(r, pk))
            && r.Keys == (set n | n in pk + [MARKER])
            && (MARKER !in pk ==> Get(r, MARKER) == TRUE)
  {
    LoneRowIsRead(p, alias, pk);
    var r := MarkedRow(p, alias, pk, cx);
    forall i | 0 <= i < |pk| ensures KeyOf(r, pk)[i] == KeyOf(p, pk)[i] {
      assert pk[i] in pk;
    }
  }

  /** The projection holds each parent row's key and marker, once. */
  lemma ParentRowsAreMarked(cx: Context, parent: Name, pk: seq<string>)
    ensures var rights := ParentRows(cx, parent, pk);
            var ps := TableRows(cx, parent);
            && (forall i, j :: 0 <= i < j < |rights| ==> rights[i] != rights[j])
            && (forall r :: r in rights ==> exists p :: p in ps && r == MarkedRow(p, parent.object_, pk, cx))
            && (forall p :: p in ps ==> MarkedRow(p, parent.object_, pk, cx) in rights)
  {
    var ps, alias := TableRows(cx, parent), parent.object_;
    var all := MarkAll(Bind(ps, alias, []), pk, MARKER, cx.firstWins);
    assert FromRows(Table(parent, alias), cx, []) == Bind(ps, alias, []);
    assert ParentRows(cx, parent, pk) == Deduplicated(all);
    DeduplicatedIsASet(all);
    hide Marked, Deduplicated, Rows, FromRows;
    forall i | 0 <= i < |ps| ensures all[i] == MarkedRow(ps[i], alias, pk, cx) && all[i] in all {
      assert Bind(ps, alias, [])[i] == [Binding(alias, ps[i])];
    }
    forall r | r in all ensures exists p :: p in ps && r == MarkedRow(p, alias, pk, cx) {
      var i :| 0 <= i < |all| && all[i] == r;
      assert ps[i] in ps;
    }
  }

  /** Per key there is a single row. */
  lemma ParentKeysAreDistinct(cx: Context, parent: Name, pk: seq<string>, i: nat, j: nat)
    requires ClearMarker(pk, cx) && i < j < |ParentRows(cx, parent, pk)|
    ensures KeyOf(ParentRows(cx, parent, pk)[i], pk) != KeyOf(ParentRows(cx, parent, pk)[j], pk)
  {
    ParentRowsAreMarked(cx, parent, pk);
    var rights, alias := ParentRows(cx, parent, pk), parent.object_;
    hide ParentRows, MarkedRow, TableRows;
    assert rights[i] in rights && rights[j] in rights;
    var p :| rights[i] == MarkedRow(p, alias, pk, cx);
    var q :| rights[j] == MarkedRow(q, alias, pk, cx);
    MarkedHasKey(p, alias, pk, cx);
    MarkedHasKey(q, alias, pk, cx);
    if KeyOf(rights[i], pk) == KeyOf(rights[j], pk) { KeyDetermines(rights[i], rights[j], pk); }
  }

  /** The projection has every parent key, and marks a row whose key has no null. */
  lemma ParentRowsAreKeys(cx: Context, parent: Name, pk: seq<string>)
    requires ClearMarker(pk, cx)
    ensures var rights := ParentRows(cx, parent, pk);
            && (forall r :: r in rights && Get(r, MARKER) == Null ==> HasNull(r, pk))
            && (forall r :: r in rights ==> KeyOf(r, pk) in KeysOf(TableRows(cx, parent), pk))
            && (forall key :: key in KeysOf(TableRows(cx, parent), pk) ==>
                  exists r :: r in rights && KeyOf(r, pk) == key)
  {
    ParentRowsAreMarked(cx, parent, pk);
    var rights, alias, ps := ParentRows(cx, parent, pk), parent.object_, TableRows(cx, parent);
    hide ParentRows, MarkedRow, TableRows;
    forall r | r in rights
      ensures (Get(r, MARKER) == Null ==> HasNull(r, pk)) && KeyOf(r, pk) in KeysOf(ps, pk)
    {
      var p :| p in ps && r == MarkedRow(p, alias, pk, cx);
      MarkedHasKey(p, alias, pk, cx);
      var i :| 0 <= i < |ps| && ps[i] == p;
      assert KeysOf(ps, pk)[i] == KeyOf(p, pk);
    }
    forall key | key in KeysOf(ps, pk) ensures exists r :: r in rights && KeyOf(r, pk) == key {
      var i :| 0 <= i < |ps| && KeysOf(ps, pk)[i] == key;
      MarkedHasKey(ps[i], alias, pk, cx);
      assert ps[i] in ps;
    }
  }

  lemma KeyDetermines(a: Row, b: Row, pk: seq<string>)
    requires a.Keys == b.Keys == (set n | n in pk + [MARKER])
    requires MARKER !in pk ==> Get(a, MARKER) == Get(b, MARKER)
    requires KeyOf(a, pk) == KeyOf(b, pk)
    ensures a == b
  {
    forall n | n in a.Keys ensures a[n] == b[n] {
      if n in pk {
        var i :| 0 <= i < |pk| && pk[i] == n;
        assert KeyOf(a, pk)[i] == KeyOf(b, pk)[i];
      }
    }
  }

  lemma {:induction false} FilterAtMostOne(w: Expr, cx: Context, envs: seq<Env>)
    requires forall i, j :: 0 <= i < j < |envs| ==> !(Holds(w, cx, envs[i]) && Holds(w, cx, envs[j]))
    ensures |Filter(w, cx, envs)| <= 1
  {
    if envs != [] {
      var init := envs[..|envs| - 1];
      forall i, j | 0 <= i < j < |init| ensures !(Holds(w, cx, init[i]) && Holds(w, cx, init[j])) {
        assert init[i] == envs[i] && init[j] == envs[j];
      }
      FilterAtMostOne(w, cx, init);
      FilterKeeps(w, cx, init);
    }
  }

  function Candidates(row: Row, rights: seq<Row>): seq<Env> {
    Bind(rights, "parent", [Binding("child", row)])
  }

  /** The child row beside its partner, or beside the empty row. */
  function Partnered(row: Row, rights: seq<Row>, on: Expr, cx: Context): Env {
    var accepted := Filter(on, cx, Candidates(row, rights));
    if accepted == [] then [Binding("parent", map[]), Binding("child", row)] else accepted[0]
  }

  /** With at most one partner each, the join has one row for every child row. */
  lemma {:induction false} JoinIsOneToOne(rows: seq<Row>, rights: seq<Row>, on: Expr, cx: Context)
    requires forall row :: row in rows ==> |Filter(on, cx, Candidates(row, rights))| <= 1
    ensures var envs := Join(Bind(rows, "child", []), rights, "parent", on, cx);
            |envs| == |rows| && forall i :: 0 <= i < |rows| ==> envs[i] == Partnered(rows[i], rights, on, cx)
  {
    hide Filter;
    if rows != [] {
      var init, row := rows[..|rows| - 1], rows[|rows| - 1];
      assert row in rows && forall r :: r in init ==> r in rows;
      JoinIsOneToOne(init, rights, on, cx);
      BindInit(rows, "child", []);
      var before := Join(Bind(init, "child", []), rights, "parent", on, cx);
      assert [Binding("child", row)] + [] == [Binding("child", row)];
      assert [Binding("parent", map[])] + [Binding("child", row)] == [Binding("parent", map[]), Binding("child", row)];
      var accepted := Filter(on, cx, Candidates(row, rights));
      assert Join(Bind(rows, "child", []), rights, "parent", on, cx) == before + [Partnered(row, rights, on, cx)];
    }
  }

  /** Which partners a child row has. */
  lemma OnHolds(row: Row, rights: seq<Row>, keys: seq<string>, pk: seq<string>, cx: Context, i: nat)
    requires i < |rights| && keys != [] && |keys| == |pk|
    ensures Candidates(row, rights)[i] == [Binding("parent", rights[i]), Binding("child", row)]
    ensures Holds(AllOf(AreSame("child", keys, "parent", pk)), cx, Candidates(row, rights)[i])
            <==> KeyOf(row, keys) == KeyOf(rights[i], pk)
  {
    BothRowsAreRead(row, "child", rights[i], "parent", keys, pk);
    AreSameHolds("child", keys, "parent", pk, cx, Candidates(row, rights)[i], row, rights[i]);
  }

  /** A child row has at most one partner: the parent row with its key, if there is one. */
  lemma PartnerHasKey(row: Row, parent: Name, keys: seq<string>, pk: seq<string>, cx: Context) returns (r: Row)
    requires keys != [] && |keys| == |pk| && ClearMarker(pk, cx)
    ensures var rights := ParentRows(cx, parent, pk);
            var on := AllOf(AreSame("child", keys, "parent", pk));
            && |Filter(on, cx, Candidates(row, rights))| <= 1
            && Partnered(row, rights, on, cx) == [Binding("parent", r), Binding("child", row)]
            && (if KeyOf(row, keys) in KeysOf(TableRows(cx, parent), pk)
                then KeyOf(r, pk) == KeyOf(row, keys) && (Get(r, MARKER) == Null ==> HasNull(r, pk))
                else r == map[])
  {
    var rights := ParentRows(cx, parent, pk);
    var on := AllOf(AreSame("child", keys, "parent", pk));
    var envs := Candidates(row, rights);
    ParentRowsAreKeys(cx, parent, pk);
    forall i | 0 <= i < |rights|
      ensures envs[i] == [Binding("parent", rights[i]), Binding("child", row)]
      ensures Holds(on, cx, envs[i]) <==> KeyOf(row, keys) == KeyOf(rights[i], pk)
    {
      OnHolds(row, rights, keys, pk, cx, i);
    }
    forall i, j | 0 <= i < j < |rights| ensures KeyOf(rights[i], pk) != KeyOf(rights[j], pk) {
      ParentKeysAreDistinct(cx, parent, pk, i, j);
    }
    FilterAtMostOne(on, cx, envs);
    FilterKeeps(on, cx, envs);
    hide ParentRows, Holds, AllOf, AreSame, Filter;
    var accepted := Filter(on, cx, envs);
    if accepted == [] {
      r := map[];
      assert KeyOf(row, keys) !in KeysOf(TableRows(cx, parent), pk);
    } else {
      assert accepted[0] in accepted;
      var i :| 0 <= i < |envs| && envs[i] == accepted[0];
      r := rights[i];
      assert r in rights && KeyOf(r, pk) == KeyOf(row, keys);
    }
  }

  lemma RelationshipHolds(row: Row, r: Row, keys: seq<string>, nullsFail: bool, cx: Context)
    requires keys != []
    ensures Holds(RelationshipFailure(keys, nullsFail), cx, [Binding("parent", r), Binding("child", row)])
            <==> if nullsFail then HasNull(row, keys) || Get(r, MARKER) == Null
                 else !HasNull(row, keys) && Get(r, MARKER) == Null
    ensures Pick([Binding("parent", r), Binding("child", row)], "child") == row
  {
    var env := [Binding("parent", r), Binding("child", row)];
    BothRowsAreRead(row, "child", r, "parent", keys, [MARKER]);
    assert MARKER in [MARKER];
    AreNullHolds(Some("child"), keys, cx, env, row);
    AreNotNullHolds(Some("child"), keys, cx, env, row);
    var unmatched := IsNull(Column(Some("parent"), MARKER));
    assert Eval(Column(Some("parent"), MARKER), cx, env, []) == Get(r, MARKER);
    assert Eval(unmatched, cx, env, []) == Boolean(Get(r, MARKER).Null?);
    assert env[1..] == [Binding("child", row)];
    hide HasNull, AllOf, AnyOf, Get;
  }

  /** Seen from a child row beside its partner, the condition selects the failing rows. */
  lemma RelationshipSelects(row: Row, d: Draft, cx: Context)
    requires Validated(d) && d.options.Relationship? && MarkerIsClear(d, cx)
    ensures var pk := CanonicalAll(d.options.parentColumns);
            var rights := ParentRows(cx, NameOf(d.options.parent), pk);
            var on := AllOf(AreSame("child", Keys(d), "parent", pk));
            var env := Partnered(row, rights, on, cx);
            && |Filter(on, cx, Candidates(row, rights))| <= 1
            && Pick(env, "child") == row
            && Selects(RelationshipFailure(Keys(d), d.nullsFail), d, cx, env, row)
  {
    var keys, pk := Keys(d), CanonicalAll(d.options.parentColumns);
    var r := PartnerHasKey(row, NameOf(d.options.parent), keys, pk, cx);
    RelationshipHolds(row, r, keys, d.nullsFail, cx);
    NoNullKey(row, keys);
    NoNullKey(r, pk);
    assert Get(map[], MARKER) == Null;
    hide HasNull, KeyOf, KeysOf, AllOf, AreSame, Partnered, Filter, Candidates, ParentRows, NoNull, Holds,
      RelationshipFailure, Pick, CanonicalAll, Get;
  }

  lemma RelationshipIsRight(d: Draft, cx: Context)
    requires Validated(d) && d.options.Relationship? && MarkerIsClear(d, cx)
    ensures var from := Joined(NameOf(d.target), Keys(d), NameOf(d.options.parent),
                               CanonicalAll(d.options.parentColumns));
            IsFailingBag(Rows(SelectRows("child", from, RelationshipFailure(Keys(d), d.nullsFail)), cx, []), d, cx)
  {
    var pk, parent, rows := CanonicalAll(d.options.parentColumns), NameOf(d.options.parent), TargetRows(d, cx);
    var from := Joined(NameOf(d.target), Keys(d), parent, pk);
    var on := AllOf(AreSame("child", Keys(d), "parent", pk));
    var rights := ParentRows(cx, parent, pk);
    forall row ensures |Filter(on, cx, Candidates(row, rights))| <= 1
                       && Pick(Partnered(row, rights, on, cx), "child") == row
                       && Selects(RelationshipFailure(Keys(d), d.nullsFail), d, cx, Partnered(row, rights, on, cx), row)
    {
      RelationshipSelects(row, d, cx);
    }
    JoinIsOneToOne(rows, rights, on, cx);
    assert FromRows(from, cx, []) == Join(Bind(rows, "child", []), rights, "parent", on, cx);
    hide Joined, Fails, Partnered, Join, Selects, RelationshipFailure;
    SelectionIsRight("child", from, RelationshipFailure(Keys(d), d.nullsFail), d, cx);
  }

  // ---------------------------------------------------------------------
  // A parent key column with the marker's name.
  // ---------------------------------------------------------------------

  /** One row that is its own parent. */
  function SelfParented(d: Draft): Context
    requires d.options.Relationship?
  {
    var row: Row := map n | n in Keys(d) + CanonicalAll(d.options.parentColumns) :: Number(1.0);
    Context(map[NameOf(d.target) := [row], NameOf(d.options.parent) := [row]], map[], map[], 0, false)
  }

  lemma SelfParentedFindsNoPartner(d: Draft)
    requires Validated(d) && d.options.Relationship? && MARKER in CanonicalAll(d.options.parentColumns)
    ensures var cx, keys, pk := SelfParented(d), Keys(d), CanonicalAll(d.options.parentColumns);
            var on := AllOf(AreSame("child", keys, "parent", pk));
            var rights := ParentRows(cx, NameOf(d.options.parent), pk);
            forall row :: row in TargetRows(d, cx) ==> Filter(on, cx, Candidates(row, rights)) == []
  {
    var cx, keys, pk := SelfParented(d), Keys(d), CanonicalAll(d.options.parentColumns);
    var parent := NameOf(d.options.parent);
    var row := TargetRows(d, cx)[0];
    var on := AllOf(AreSame("child", keys, "parent", pk));
    ParentRowsAreMarked(cx, parent, pk);
    var rights := ParentRows(cx, parent, pk);
    var k :| 0 <= k < |pk| && pk[k] == MARKER;
    assert keys[k] in keys + pk && MARKER in pk + [MARKER];
    forall i | 0 <= i < |rights| ensures !Holds(on, cx, Candidates(row, rights)[i]) {
      assert rights[i] in rights;
      var p :| p in TableRows(cx, parent) && rights[i] == MarkedRow(p, parent.object_, pk, cx);
      OnHolds(row, rights, keys, pk, cx, i);
      assert KeyOf(row, keys)[k] == Number(1.0) && KeyOf(rights[i], pk)[k] == TRUE;
    }
    FilterKeeps(on, cx, Candidates(row, rights));
  }

  lemma OwnParentIsFine(d: Draft)
    requires Validated(d) && d.options.Relationship?
    ensures var cx := SelfParented(d);
            && Catalogued(d, cx) && |TargetRows(d, cx)| == 1
            && !HasNull(TargetRows(d, cx)[0], Keys(d)) && !Fails(d, cx, TargetRows(d, cx)[0])
  {
    var cx, keys, pk := SelfParented(d), Keys(d), CanonicalAll(d.options.parentColumns);
    var row := TargetRows(d, cx)[0];
    assert TableRows(cx, NameOf(d.options.parent)) == [row];
    forall k | k in keys + pk ensures Get(row, k) == Number(1.0) {}
    forall k | k in keys ensures k in keys + pk {}
    forall i | 0 <= i < |keys| ensures keys[i] in keys + pk && pk[i] in keys + pk {}
    assert KeyOf(row, keys) == KeyOf(row, pk);
    assert KeysOf([row], pk)[0] == KeyOf(row, keys);
  }

  /** On that table the join finds no partner for the row. */
  lemma SelfParentedJoin(d: Draft, row: Row)
    requires Validated(d) && d.options.Relationship? && MARKER in CanonicalAll(d.options.parentColumns)
    requires TargetRows(d, SelfParented(d)) == [row]
    ensures var cx, pk := SelfParented(d), CanonicalAll(d.options.parentColumns);
            FromRows(Joined(NameOf(d.target), Keys(d), NameOf(d.options.parent), pk), cx, [])
            == [[Binding("parent", map[]), Binding("child", row)]]
  {
    var cx, keys, pk := SelfParented(d), Keys(d), CanonicalAll(d.options.parentColumns);
    var parent := NameOf(d.options.parent);
    SelfParentedFindsNoPartner(d);
    var on := AllOf(AreSame("child", keys, "parent", pk));
    var rights := ParentRows(cx, parent, pk);
    hide SelfParented, AllOf, AreSame, CanonicalAll, Candidates;
    var env := [Binding("parent", map[]), Binding("child", row)];
    assert row in TargetRows(d, cx);
    hide ParentRows, Keys, NameOf;
    JoinIsOneToOne([row], rights, on, cx);
    assert Partnered(row, rights, on, cx) == env;
    assert FromRows(Table(NameOf(d.target), "child"), cx, []) == Bind([row], "child", []);
    assert FromRows(Joined(NameOf(d.target), keys, parent, pk), cx, [])
        == Join(Bind([row], "child", []), rights, "parent", on, cx);
  }

  /** If a parent key column has the marker's name and the name refers to the marker, a
      child row is reported that has its parent. */
  lemma AmbiguousMarkerMisreports(d: Draft)
    requires Validated(d) && d.options.Relationship? && MARKER in CanonicalAll(d.options.parentColumns)
    ensures var cx := SelfParented(d);
            var from := Joined(NameOf(d.target), Keys(d), NameOf(d.options.parent),
                               CanonicalAll(d.options.parentColumns));
            && Catalogued(d, cx)
            && !IsFailingBag(Rows(SelectRows("child", from, RelationshipFailure(Keys(d), d.nullsFail)), cx, []), d, cx)
  {
    var cx, keys, pk := SelfParented(d), Keys(d), CanonicalAll(d.options.parentColumns);
    OwnParentIsFine(d);
    var row := TargetRows(d, cx)[0];
    assert TargetRows(d, cx) == [row];
    SelfParentedJoin(d, row);
    var from := Joined(NameOf(d.target), keys, NameOf(d.options.parent), pk);
    var env := [Binding("parent", map[]), Binding("child", row)];
    var failure := RelationshipFailure(keys, d.nullsFail);
    hide SelfParented, CanonicalAll, Joined, Keys, NameOf, Fails;
    RelationshipHolds(row, map[], keys, d.nullsFail, cx);
    assert Get(map[], MARKER) == Null;
    hide RelationshipFailure, FromRows;
    assert Filter(failure, cx, []) == [];
    assert [env][..0] == [];
    assert Filter(failure, cx, [env]) == [env];
    var shown := Rows(SelectRows("child", from, failure), cx, []);
    assert shown == PickAll([env], "child");
    assert shown == [row];
    assert multiset(shown)[row] == 1;
  }
}
