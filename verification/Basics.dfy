/** Shared vocabulary: optional values, identifiers, clock arithmetic and the
    order in which the program compares identifiers. */
module Basics {

  datatype Option<+T> = None | Some(value: T)

  /** What a fallible computation returns; an error carries its code. */
  datatype Result<+T> = Ok(value: T) | Err(code: string) {
    predicate IsFailure() { Err? }
    function PropagateFailure<U>(): Result<U> requires Err? { Err(code) }
    function Extract(): T requires Ok? { value }
  }

  /** Profile, connection, snapshot, query and approval identifiers. */
  type Id = string

  /** Readings of the monotonic clock, in milliseconds. */
  type Millis = nat

  /** Text that is measured or hashed is a sequence of bytes. */
  newtype byte = x: int | 0 <= x < 256

  const U32_MAX: nat := 0xFFFF_FFFF
  const U64_MAX: nat := 0xFFFF_FFFF_FFFF_FFFF

  function Min(a: nat, b: nat): nat {
    if a <= b then a else b
  }

  function SaturatingAdd(a: nat, b: nat, limit: nat): nat {
    Min(a + b, limit)
  }

  /** Elapsed time between two clock readings; a later `since` counts as zero. */
  function Elapsed(now: Millis, since: Millis): Millis {
    if now >= since then now - since else 0
  }

  /** A listing of a hash map's keys in iteration order. */
  ghost predicate Lists<V>(order: seq<Id>, m: map<Id, V>) {
    && (forall id :: id in order <==> id in m)
    && (forall i, j :: 0 <= i < j < |order| ==> order[i] != order[j])
  }

  // ---------------------------------------------------------------------
  // Lexicographic comparison of identifiers.
  // ---------------------------------------------------------------------

  predicate Before(a: Id, b: Id) {
    if b == [] then false
    else if a == [] then true
    else a[0] < b[0] || (a[0] == b[0] && Before(a[1..], b[1..]))
  }

  lemma {:induction false} BeforeIrreflexive(a: Id)
    ensures !Before(a, a)
  {
    if a != [] { BeforeIrreflexive(a[1..]); }
  }

  lemma {:induction false} BeforeTransitive(a: Id, b: Id, c: Id)
    requires Before(a, b) && Before(b, c)
    ensures Before(a, c)
  {
    if a != [] && a[0] == b[0] && b[0] == c[0] {
      BeforeTransitive(a[1..], b[1..], c[1..]);
    }
  }

  lemma {:induction false} BeforeTotal(a: Id, b: Id)
    ensures a == b || Before(a, b) || Before(b, a)
  {
    if a != [] && b != [] && a[0] == b[0] {
      BeforeTotal(a[1..], b[1..]);
      assert a == [a[0]] + a[1..] && b == [b[0]] + b[1..];
    }
  }

  lemma BeforeAsymmetric(a: Id, b: Id)
    requires Before(a, b)
    ensures !Before(b, a) && a != b
  {
    BeforeIrreflexive(a);
    if Before(b, a) { BeforeTransitive(a, b, a); }
  }

  // ---------------------------------------------------------------------
  // Identifier lists.
  // ---------------------------------------------------------------------

  /** The list without any occurrence of `id`. */
  function Without(ids: seq<Id>, id: Id): seq<Id> {
    if ids == [] then []
    else
      var init := Without(ids[..|ids| - 1], id);
      if ids[|ids| - 1] == id then init else init + [ids[|ids| - 1]]
  }

  method Retained(ids: seq<Id>, id: Id) returns (kept: seq<Id>)
    ensures kept == Without(ids, id)
  {
    kept := [];
    for i := 0 to |ids|
      invariant kept == Without(ids[..i], id)
    {
      assert ids[..i + 1][..i] == ids[..i];
      if ids[i] != id { kept := kept + [ids[i]]; }
    }
    assert ids[..|ids|] == ids;
  }

  lemma {:induction false} WithoutDrops(ids: seq<Id>, id: Id)
    ensures forall i :: i in Without(ids, id) <==> i in ids && i != id
    ensures |Without(ids, id)| <= |ids|
    ensures id !in ids ==> Without(ids, id) == ids
    ensures |Without(ids, id)| == |ids| ==> Without(ids, id) == ids
  {
    if ids != [] {
      WithoutDrops(ids[..|ids| - 1], id);
      assert ids == ids[..|ids| - 1] + [ids[|ids| - 1]];
    }
  }
}
