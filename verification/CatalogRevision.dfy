/** The catalog revision token: 64-bit FNV-1a (section 2 of draft-eastlake-fnv)
    over the NUL-terminated fields of the catalog, printed as sixteen hex digits. */
module CatalogRevision {
  import opened Basics

  const TWO_TO_64: nat := 0x1_0000_0000_0000_0000
  const FNV_OFFSET_BASIS: nat := 0xcbf29ce484222325
  const FNV_PRIME: nat := 0x100000001b3
  /** The multiplicative inverse of the prime modulo 2^64. */
  const FNV_INVERSE: nat := 14886173955864302971

  type Word = x: nat | x < TWO_TO_64

  /** Names are modelled as their UTF-8 bytes. */
  datatype CatalogObject = CatalogObject(database: seq<byte>, schema: seq<byte>, name: seq<byte>, kind: seq<byte>)

  datatype CatalogColumn = CatalogColumn(
    database: seq<byte>, schema: seq<byte>, object_: seq<byte>, name: seq<byte>, dataType: seq<byte>, nullable: bool)

  // ---------------------------------------------------------------------
  // The hashed byte stream.
  // ---------------------------------------------------------------------

  function Terminated(field: seq<byte>): seq<byte> {
    field + [0]
  }

  function Fields(fields: seq<seq<byte>>): seq<byte> {
    if fields == [] then [] else Fields(fields[..|fields| - 1]) + Terminated(fields[|fields| - 1])
  }

  function ObjectFields(o: CatalogObject): seq<seq<byte>> {
    [o.database, o.schema, o.name, o.kind]
  }

  /** The bytes of "1" and "0". */
  function NullableField(nullable: bool): seq<byte> {
    if nullable then [49] else [48]
  }

  function ColumnFields(c: CatalogColumn): seq<seq<byte>> {
    [c.database, c.schema, c.object_, c.name, c.dataType, NullableField(c.nullable)]
  }

  function AllObjectFields(objects: seq<CatalogObject>): seq<seq<byte>> {
    if objects == [] then []
    else AllObjectFields(objects[..|objects| - 1]) + ObjectFields(objects[|objects| - 1])
  }

  function AllColumnFields(columns: seq<CatalogColumn>): seq<seq<byte>> {
    if columns == [] then []
    else AllColumnFields(columns[..|columns| - 1]) + ColumnFields(columns[|columns| - 1])
  }

  function Stream(objects: seq<CatalogObject>, columns: seq<CatalogColumn>): seq<byte> {
    Fields(AllObjectFields(objects) + AllColumnFields(columns))
  }

  // ---------------------------------------------------------------------
  // The hash.
  // ---------------------------------------------------------------------

  function Pow2(n: nat): nat {
    if n == 0 then 1 else 2 * Pow2(n - 1)
  }

  /** Bitwise exclusive-or of the low `width` bits. */
  function Xor(a: nat, b: nat, width: nat): (r: nat)
    ensures r < Pow2(width)
  {
    if width == 0 then 0
    else 2 * Xor(a / 2, b / 2, width - 1) + (if a % 2 == b % 2 then 0 else 1)
  }

  /** One step of FNV-1a: exclusive-or with the byte, then a wrapping multiplication. */
  function Mix(hash: Word, b: byte): Word {
    (Xor(hash, b as nat, 64) * FNV_PRIME) % TWO_TO_64
  }

  function Fold(hash: Word, bytes: seq<byte>): Word {
    if bytes == [] then hash else Mix(Fold(hash, bytes[..|bytes| - 1]), bytes[|bytes| - 1])
  }

  const HEX: string := "0123456789abcdef"

  function HexDigits(value: nat, width: nat): (s: string)
    ensures |s| == width
  {
    if width == 0 then "" else HexDigits(value / 16, width - 1) + [HEX[value % 16]]
  }

  function Revision(objects: seq<CatalogObject>, columns: seq<CatalogColumn>): string {
    HexDigits(Fold(FNV_OFFSET_BASIS, Stream(objects, columns)), 16)
  }

  // ---------------------------------------------------------------------
  // The loop.
  // ---------------------------------------------------------------------

  method WriteField(hash: Word, field: seq<byte>) returns (mixed: Word)
    ensures mixed == Fold(hash, Terminated(field))
  {
    var bytes := Terminated(field);
    mixed := hash;
    for i := 0 to |bytes|
      invariant mixed == Fold(hash, bytes[..i])
    {
      assert bytes[..i + 1][..i] == bytes[..i];
      mixed := Mix(mixed, bytes[i]);
    }
    assert bytes[..|bytes|] == bytes;
  }

  method WriteFields(hash: Word, ghost before: seq<byte>, fields: seq<seq<byte>>) returns (mixed: Word)
    requires hash == Fold(FNV_OFFSET_BASIS, before)
    ensures mixed == Fold(FNV_OFFSET_BASIS, before + Fields(fields))
  {
    mixed := hash;
    assert before + Fields(fields[..0]) == before;
    for i := 0 to |fields|
      invariant mixed == Fold(FNV_OFFSET_BASIS, before + Fields(fields[..i]))
    {
      mixed := WriteField(mixed, fields[i]);
      OneMoreField(before, fields, i);
      FoldJoins(FNV_OFFSET_BASIS, before + Fields(fields[..i]), Terminated(fields[i]));
    }
    assert fields[..|fields|] == fields;
  }

  lemma OneMoreObject(objects: seq<CatalogObject>, i: nat)
    requires i < |objects|
    ensures Fields(AllObjectFields(objects[..i + 1]))
            == Fields(AllObjectFields(objects[..i])) + Fields(ObjectFields(objects[i]))
  {
    assert objects[..i + 1][..i] == objects[..i];
    FieldsJoin(AllObjectFields(objects[..i]), ObjectFields(objects[i]));
  }

  lemma OneMoreColumn(head: seq<seq<byte>>, columns: seq<CatalogColumn>, i: nat)
    requires i < |columns|
    ensures Fields(head + AllColumnFields(columns[..i + 1]))
            == Fields(head + AllColumnFields(columns[..i])) + Fields(ColumnFields(columns[i]))
  {
    assert columns[..i + 1][..i] == columns[..i];
    FieldsJoin(head + AllColumnFields(columns[..i]), ColumnFields(columns[i]));
    assert head + AllColumnFields(columns[..i + 1])
           == head + AllColumnFields(columns[..i]) + ColumnFields(columns[i]);
  }

  method ComputeRevision(objects: seq<CatalogObject>, columns: seq<CatalogColumn>) returns (revision: string)
    ensures revision == Revision(objects, columns)
  {
    var hash: Word := FNV_OFFSET_BASIS;
    ghost var written: seq<byte> := [];
    ghost var head := AllObjectFields(objects);
    assert written == Fields(AllObjectFields(objects[..0])) && hash == Fold(FNV_OFFSET_BASIS, written);
    assert head + AllColumnFields(columns[..0]) == head;
    hide Fold, Fields, HexDigits, AllObjectFields, AllColumnFields, ObjectFields, ColumnFields;
    for i := 0 to |objects|
      invariant written == Fields(AllObjectFields(objects[..i]))
      invariant hash == Fold(FNV_OFFSET_BASIS, written)
    {
      hash := WriteFields(hash, written, ObjectFields(objects[i]));
      OneMoreObject(objects, i);
      written := written + Fields(ObjectFields(objects[i]));
    }
    assert objects[..|objects|] == objects;
    for i := 0 to |columns|
      invariant written == Fields(head + AllColumnFields(columns[..i]))
      invariant hash == Fold(FNV_OFFSET_BASIS, written)
    {
      hash := WriteFields(hash, written, ColumnFields(columns[i]));
      OneMoreColumn(head, columns, i);
      written := written + Fields(ColumnFields(columns[i]));
    }
    assert columns[..|columns|] == columns;
    revision := HexDigits(hash, 16);
  }

  lemma OneMoreField(before: seq<byte>, fields: seq<seq<byte>>, i: nat)
    requires i < |fields|
    ensures before + Fields(fields[..i + 1]) == before + Fields(fields[..i]) + Terminated(fields[i])
  {
    assert fields[..i + 1][..i] == fields[..i];
  }

  lemma {:induction false} FoldJoins(hash: Word, a: seq<byte>, b: seq<byte>)
    ensures Fold(hash, a + b) == Fold(Fold(hash, a), b)
  {
    if b == [] {
      assert a + b == a;
    } else {
      FoldJoins(hash, a, b[..|b| - 1]);
      assert (a + b)[..|a + b| - 1] == a + b[..|b| - 1];
    }
  }

  lemma {:induction false} FieldsJoin(a: seq<seq<byte>>, b: seq<seq<byte>>)
    ensures Fields(a + b) == Fields(a) + Fields(b)
  {
    if b == [] {
      assert a + b == a;
    } else {
      var init, last := b[..|b| - 1], b[|b| - 1];
      FieldsJoin(a, init);
      assert (a + b)[..|a + b| - 1] == a + init && (a + b)[|a + b| - 1] == last;
      assert Fields(a + b) == Fields(a + init) + Terminated(last);
      assert Fields(b) == Fields(init) + Terminated(last);
      hide Fields, Terminated;
    }
  }

  // ---------------------------------------------------------------------
  // The hash is FNV-1a.
  // ---------------------------------------------------------------------

  function Bit(a: nat, i: nat): nat {
    if i == 0 then a % 2 else Bit(a / 2, i - 1)
  }

  /** Exclusive-or, bit by bit: a bit of the result is set exactly if the two bits differ. */
  lemma {:induction false} XorComparesBits(a: nat, b: nat, width: nat, i: nat)
    requires i < width
    ensures Bit(Xor(a, b, width), i) == 1 <==> Bit(a, i) != Bit(b, i)
  {
    if i > 0 { XorComparesBits(a / 2, b / 2, width - 1, i - 1); }
  }

  lemma {:induction false} XorWithZero(a: nat, width: nat)
    requires a < Pow2(width)
    ensures Xor(a, 0, width) == a
  {
    if width > 0 { XorWithZero(a / 2, width - 1); }
  }

  lemma {:induction false} XorWithItself(a: nat, width: nat)
    ensures Xor(a, a, width) == 0
  {
    if width > 0 { XorWithItself(a / 2, width - 1); }
  }

  /** The number that hexadecimal digits stand for. */
  function ReadHex(s: string): int {
    if s == "" then 0
    else
      var c := s[|s| - 1];
      16 * ReadHex(s[..|s| - 1]) + if '0' <= c <= '9' then c as int - '0' as int else c as int - 'a' as int + 10
  }

  lemma {:induction false} DigitsAreReadBack(value: nat, width: nat)
    requires value < Pow16(width)
    ensures ReadHex(HexDigits(value, width)) == value
  {
    if width > 0 {
      DigitsAreReadBack(value / 16, width - 1);
      var s := HexDigits(value, width);
      assert s[..|s| - 1] == HexDigits(value / 16, width - 1);
    }
  }

  lemma FieldsAppend(fields: seq<seq<byte>>, field: seq<byte>)
    ensures Fields(fields + [field]) == Fields(fields) + field + [0]
  {
    assert (fields + [field])[..|fields|] == fields;
  }

  lemma FieldsOfObject(o: CatalogObject)
    ensures Fields(ObjectFields(o)) == o.database + [0] + o.schema + [0] + o.name + [0] + o.kind + [0]
  {
    hide Fields;
    FieldsAppend([], o.database);
    FieldsAppend([o.database], o.schema);
    FieldsAppend([o.database, o.schema], o.name);
    FieldsAppend([o.database, o.schema, o.name], o.kind);
    assert Fields([]) == [] by { NoFields(); }
    assert [] + [o.database] == [o.database] && [o.database] + [o.schema] == [o.database, o.schema]
           && [o.database, o.schema] + [o.name] == [o.database, o.schema, o.name]
           && [o.database, o.schema, o.name] + [o.kind] == ObjectFields(o);
  }

  lemma NoFields()
    ensures Fields([]) == []
  {
  }

  lemma FieldsOfColumn(c: CatalogColumn)
    ensures Fields(ColumnFields(c))
            == c.database + [0] + c.schema + [0] + c.object_ + [0] + c.name + [0] + c.dataType + [0]
               + [if c.nullable then 49 else 48, 0]
  {
    hide Fields;
    var three := [c.database, c.schema, c.object_];
    FieldsAppend([], c.database);
    FieldsAppend([c.database], c.schema);
    FieldsAppend([c.database, c.schema], c.object_);
    FieldsAppend(three, c.name);
    FieldsAppend(three + [c.name], c.dataType);
    FieldsAppend(three + [c.name] + [c.dataType], NullableField(c.nullable));
    assert Fields([]) == [] by { NoFields(); }
    assert [] + [c.database] == [c.database] && [c.database] + [c.schema] == [c.database, c.schema]
           && [c.database, c.schema] + [c.object_] == three
           && three + [c.name] + [c.dataType] + [NullableField(c.nullable)] == ColumnFields(c);
  }

  /** What is hashed of one object and one column, each field ended by a zero byte. */
  lemma StreamOfOne(o: CatalogObject, c: CatalogColumn)
    ensures Stream([o], [c])
            == (o.database + [0] + o.schema + [0] + o.name + [0] + o.kind + [0])
               + (c.database + [0] + c.schema + [0] + c.object_ + [0] + c.name + [0] + c.dataType + [0]
                  + [if c.nullable then 49 else 48, 0])
  {
    OnlyObject(o);
    OnlyColumn(c);
    hide Fields, AllObjectFields, AllColumnFields;
    FieldsJoin(ObjectFields(o), ColumnFields(c));
    FieldsOfObject(o);
    FieldsOfColumn(c);
  }

  lemma OnlyObject(o: CatalogObject)
    ensures AllObjectFields([o]) == ObjectFields(o)
  {
    assert [o][..0] == [];
  }

  lemma OnlyColumn(c: CatalogColumn)
    ensures AllColumnFields([c]) == ColumnFields(c)
  {
    assert [c][..0] == [];
  }

  /** A revision is the hash of the stream, in base sixteen. */
  lemma RevisionIsTheHash(objects: seq<CatalogObject>, columns: seq<CatalogColumn>)
    ensures |Revision(objects, columns)| == 16
    ensures ReadHex(Revision(objects, columns)) == Fold(FNV_OFFSET_BASIS, Stream(objects, columns))
  {
    SixteenDigits();
    DigitsAreReadBack(Fold(FNV_OFFSET_BASIS, Stream(objects, columns)), 16);
  }

  /** Exclusive-or of the offset basis with the byte "a", which has seven bits. */
  lemma BasisWithA()
    ensures Xor(FNV_OFFSET_BASIS, 97, 64) == 0xcbf29ce484222344
  {
    SixtyFourBits();
    assert Pow2(57) == 2 * Pow2(56);
    XorWithZero(0x197e539c9084446, 57);
    assert Xor(0x197e539c9084446, 0, 57) == 0x197e539c9084446;
    assert Xor(0x32fca739210888c, 1, 58) == 0x32fca739210888d;
    assert Xor(0x65f94e724211119, 3, 59) == 0x65f94e72421111a;
    assert Xor(0xcbf29ce48422232, 6, 60) == 0xcbf29ce48422234;
    assert Xor(0x197e539c90844464, 12, 61) == 0x197e539c90844468;
    assert Xor(0x32fca739210888c9, 24, 62) == 0x32fca739210888d1;
    assert Xor(0x65f94e7242111192, 48, 63) == 0x65f94e72421111a2;
    assert Xor(0xcbf29ce484222325, 97, 64) == 0xcbf29ce484222344;
  }

  lemma RemainderIs(a: nat, q: nat, r: Word)
    requires a == q * TWO_TO_64 + r
    ensures a % TWO_TO_64 == r
  {
  }

  lemma MixOfA()
    ensures Mix(FNV_OFFSET_BASIS, 97) == 0xaf63dc4c8601ec8c
  {
    BasisWithA();
    var product := 0xcbf29ce484222344 * FNV_PRIME;
    hide Xor;
    RemainderIs(product, 875948729822, 0xaf63dc4c8601ec8c);
    assert Mix(FNV_OFFSET_BASIS, 97) == product % TWO_TO_64;
  }

  /** The published value for the one-byte text "a". */
  lemma HashOfA()
    ensures Fold(FNV_OFFSET_BASIS, [97]) == 0xaf63dc4c8601ec8c
  {
    var a: seq<byte> := [97];
    assert a[..0] == [];
    MixOfA();
    hide Mix;
  }

  // ---------------------------------------------------------------------
  // Every step is injective in each argument.
  // ---------------------------------------------------------------------

  lemma {:induction false} XorIsInjective(a: nat, b: nat, c: nat, d: nat, width: nat)
    requires a < Pow2(width) && b < Pow2(width) && c < Pow2(width) && d < Pow2(width)
    requires Xor(a, b, width) == Xor(c, d, width) && (a == c || b == d)
    ensures a == c && b == d
  {
    if width > 0 {
      XorIsInjective(a / 2, b / 2, c / 2, d / 2, width - 1);
    }
  }

  lemma SixtyFourBits()
    ensures Pow2(56) == 0x100_0000_0000_0000 && Pow2(64) == TWO_TO_64
  {
    assert Pow2(8) == 256;
    assert Pow2(16) == 65536;
    assert Pow2(24) == 256 * 65536;
    assert Pow2(32) == 65536 * 65536;
    assert Pow2(40) == 256 * 65536 * 65536;
    assert Pow2(48) == 65536 * 65536 * 65536;
    assert Pow2(56) == 256 * 65536 * 65536 * 65536;
  }

  lemma QuotientIsZero(d: int, k: int)
    requires d == TWO_TO_64 * k && d < TWO_TO_64 && -d < TWO_TO_64
    ensures d == 0
  {
  }

  /** Multiplication by the prime is injective modulo 2^64. */
  lemma PrimeIsInvertible(a: Word, b: Word)
    requires (a * FNV_PRIME) % TWO_TO_64 == (b * FNV_PRIME) % TWO_TO_64
    ensures a == b
  {
    var qa, qb := (a * FNV_PRIME) / TWO_TO_64, (b * FNV_PRIME) / TWO_TO_64;
    var d, k := a - b, qa - qb;
    assert d * FNV_PRIME == TWO_TO_64 * k;
    var excess := (FNV_PRIME * FNV_INVERSE - 1) / TWO_TO_64;
    assert FNV_PRIME * FNV_INVERSE == 1 + TWO_TO_64 * excess;
    assert d + TWO_TO_64 * excess * d == TWO_TO_64 * k * FNV_INVERSE;
    assert d == TWO_TO_64 * (k * FNV_INVERSE - excess * d);
    QuotientIsZero(d, k * FNV_INVERSE - excess * d);
  }

  lemma MixIsInjective(h: Word, b: byte, h': Word, b': byte)
    requires Mix(h, b) == Mix(h', b') && (h == h' || b == b')
    ensures h == h' && b == b'
  {
    SixtyFourBits();
    PrimeIsInvertible(Xor(h, b as nat, 64), Xor(h', b' as nat, 64));
    XorIsInjective(h, b as nat, h', b' as nat, 64);
  }

  lemma {:induction false} FoldIsInjective(h: Word, h': Word, bytes: seq<byte>)
    requires Fold(h, bytes) == Fold(h', bytes)
    ensures h == h'
  {
    if bytes != [] {
      var init, last := bytes[..|bytes| - 1], bytes[|bytes| - 1];
      MixIsInjective(Fold(h, init), last, Fold(h', init), last);
      FoldIsInjective(h, h', init);
    }
  }

  lemma {:induction false} HexIsInjective(a: nat, b: nat, width: nat)
    requires HexDigits(a, width) == HexDigits(b, width) && a < Pow16(width) && b < Pow16(width)
    ensures a == b
  {
    if width > 0 {
      var s, t := HexDigits(a, width), HexDigits(b, width);
      assert s[..width - 1] == HexDigits(a / 16, width - 1) && t[..width - 1] == HexDigits(b / 16, width - 1);
      assert HEX[a % 16] == s[width - 1] == t[width - 1] == HEX[b % 16];
      HexIsInjective(a / 16, b / 16, width - 1);
    }
  }

  function Pow16(n: nat): nat {
    if n == 0 then 1 else 16 * Pow16(n - 1)
  }

  lemma SixteenDigits()
    ensures Pow16(16) == TWO_TO_64
  {
    assert Pow16(4) == 65536;
    assert Pow16(8) == 65536 * 65536;
    assert Pow16(12) == 65536 * 65536 * 65536;
  }

  // ---------------------------------------------------------------------
  // Sensitivity.
  // ---------------------------------------------------------------------

  /** Streams of equal length that differ in exactly one byte hash differently. */
  lemma OneByteChangesTheHash(s: seq<byte>, t: seq<byte>, i: nat)
    requires |s| == |t| && i < |s| && s[i] != t[i]
    requires forall j :: 0 <= j < |s| && j != i ==> s[j] == t[j]
    ensures Fold(FNV_OFFSET_BASIS, s) != Fold(FNV_OFFSET_BASIS, t)
  {
    var prefix, suffix := s[..i], s[i + 1..];
    assert s == prefix + [s[i]] + suffix && t == prefix + [t[i]] + suffix;
    FoldJoins(FNV_OFFSET_BASIS, prefix + [s[i]], suffix);
    FoldJoins(FNV_OFFSET_BASIS, prefix + [t[i]], suffix);
    if Fold(FNV_OFFSET_BASIS, s) == Fold(FNV_OFFSET_BASIS, t) {
      FoldIsInjective(Fold(FNV_OFFSET_BASIS, prefix + [s[i]]), Fold(FNV_OFFSET_BASIS, prefix + [t[i]]), suffix);
      assert (prefix + [s[i]])[..i] == prefix && (prefix + [t[i]])[..i] == prefix;
      MixIsInjective(Fold(FNV_OFFSET_BASIS, prefix), s[i], Fold(FNV_OFFSET_BASIS, prefix), t[i]);
    }
  }

  lemma HashesPrintApart(a: Word, b: Word)
    requires a != b
    ensures HexDigits(a, 16) != HexDigits(b, 16)
  {
    SixteenDigits();
    if HexDigits(a, 16) == HexDigits(b, 16) { HexIsInjective(a, b, 16); }
  }

  lemma OneByteChangesTheRevision(o: seq<CatalogObject>, c: seq<CatalogColumn>,
                                  o': seq<CatalogObject>, c': seq<CatalogColumn>, i: nat)
    requires var s, t := Stream(o, c), Stream(o', c');
             && |s| == |t| && i < |s| && s[i] != t[i]
             && forall j :: 0 <= j < |s| && j != i ==> s[j] == t[j]
    ensures Revision(o, c) != Revision(o', c')
  {
    OneByteChangesTheHash(Stream(o, c), Stream(o', c'), i);
    HashesPrintApart(Fold(FNV_OFFSET_BASIS, Stream(o, c)), Fold(FNV_OFFSET_BASIS, Stream(o', c')));
  }

  /** Making one column nullable, or not nullable, always changes the revision. */
  lemma NullabilityChangesTheRevision(o: seq<CatalogObject>, c: seq<CatalogColumn>, k: nat)
    requires k < |c|
    ensures Revision(o, c) != Revision(o, c[k := c[k].(nullable := !c[k].nullable)])
  {
    hide Fold, Fields, AllColumnFields, AllObjectFields, HexDigits, Revision;
    var c' := c[k := c[k].(nullable := !c[k].nullable)];
    var head, rest := AllObjectFields(o), AllColumnFields(c[k + 1..]);
    var shared := head + AllColumnFields(c[..k])
                  + [c[k].database, c[k].schema, c[k].object_, c[k].name, c[k].dataType];
    ColumnsSplit(c, k);
    ColumnsSplit(c', k);
    assert c'[..k] == c[..k] && c'[k + 1..] == c[k + 1..];
    var f, f' := NullableField(c[k].nullable), NullableField(!c[k].nullable);
    assert head + AllColumnFields(c) == shared + [f] + rest;
    assert head + AllColumnFields(c') == shared + [f'] + rest;
    StreamAround(shared, f, rest);
    StreamAround(shared, f', rest);
    OneByteChangesTheRevision(o, c, o, c', |Fields(shared)|);
  }

  lemma {:induction false} ColumnsSplit(c: seq<CatalogColumn>, k: nat)
    requires k < |c|
    ensures AllColumnFields(c) == AllColumnFields(c[..k]) + ColumnFields(c[k]) + AllColumnFields(c[k + 1..])
  {
    var n := |c| - 1;
    if k == n {
      assert c[k + 1..] == [] && c[..n] == c[..k];
    } else {
      ColumnsSplit(c[..n], k);
      assert c[..n][..k] == c[..k] && c[..n][k + 1..] == c[k + 1..][..n - k - 1];
      assert c[k + 1..][n - k - 1] == c[n];
      hide ColumnFields;
    }
  }

  lemma StreamAround(before: seq<seq<byte>>, field: seq<byte>, after: seq<seq<byte>>)
    ensures Fields(before + [field] + after) == Fields(before) + Terminated(field) + Fields(after)
  {
    FieldsJoin(before + [field], after);
    FieldsJoin(before, [field]);
    assert [field][..0] == [] && Fields([field]) == Fields([]) + Terminated(field);
  }

  // ---------------------------------------------------------------------
  // What the stream tells apart.
  // ---------------------------------------------------------------------

  predicate NulFree(field: seq<byte>) {
    0 !in field
  }

  /** Fields without NUL bytes can be read back from the stream. */
  lemma {:induction false} FieldsAreReadable(a: seq<seq<byte>>, b: seq<seq<byte>>)
    requires forall i :: 0 <= i < |a| ==> NulFree(a[i])
    requires forall i :: 0 <= i < |b| ==> NulFree(b[i])
    requires Fields(a) == Fields(b)
    ensures a == b
  {
    if a == [] || b == [] {
      assert a == b;
    } else {
      var s := Fields(a);
      var x, y := a[|a| - 1], b[|b| - 1];
      var sa, sb := Fields(a[..|a| - 1]), Fields(b[..|b| - 1]);
      assert s == sa + Terminated(x) && s == sb + Terminated(y);
      EndsWithNul(a[..|a| - 1]);
      EndsWithNul(b[..|b| - 1]);
      assert sa != [] ==> s[|sa| - 1] == 0;
      assert sb != [] ==> s[|sb| - 1] == 0;
      assert |sa| == |sb|;
      assert x == s[|sa|..|s| - 1] && y == s[|sb|..|s| - 1];
      assert sa == s[..|sa|] && sb == s[..|sb|];
      FieldsAreReadable(a[..|a| - 1], b[..|b| - 1]);
    }
  }

  lemma {:induction false} EndsWithNul(a: seq<seq<byte>>)
    ensures a != [] ==> Fields(a) != [] && Fields(a)[|Fields(a)| - 1] == 0
  {
  }

  predicate NulFreeFields(fields: seq<seq<byte>>) {
    forall i :: 0 <= i < |fields| ==> NulFree(fields[i])
  }

  lemma SameSplit(a: seq<seq<byte>>, f: seq<seq<byte>>, a': seq<seq<byte>>, f': seq<seq<byte>>)
    requires |a| == |a'| && a + f == a' + f'
    ensures a == a' && f == f'
  {
    assert a == (a + f)[..|a|] && a' == (a' + f')[..|a|];
    assert f == (a + f)[|a|..] && f' == (a' + f')[|a|..];
  }

  lemma {:induction false} ObjectFieldsTellObjects(o: seq<CatalogObject>, o': seq<CatalogObject>)
    requires |o| == |o'| && AllObjectFields(o) == AllObjectFields(o')
    ensures o == o'
  {
    if o != [] {
      var n := |o| - 1;
      var a, a' := AllObjectFields(o[..n]), AllObjectFields(o'[..n]);
      ObjectFieldCount(o[..n]);
      ObjectFieldCount(o'[..n]);
      SameSplit(a, ObjectFields(o[n]), a', ObjectFields(o'[n]));
      ObjectFieldsTellObjects(o[..n], o'[..n]);
      ObjectIsRead(o[n], o'[n]);
      assert o == o[..n] + [o[n]] && o' == o'[..n] + [o'[n]];
    }
  }

  lemma ObjectIsRead(x: CatalogObject, y: CatalogObject)
    requires ObjectFields(x) == ObjectFields(y)
    ensures x == y
  {
    var f, g := ObjectFields(x), ObjectFields(y);
    assert f[0] == g[0] && f[1] == g[1] && f[2] == g[2] && f[3] == g[3];
  }

  lemma ColumnIsRead(x: CatalogColumn, y: CatalogColumn)
    requires ColumnFields(x) == ColumnFields(y)
    ensures x == y
  {
    var f, g := ColumnFields(x), ColumnFields(y);
    assert f[0] == g[0] && f[1] == g[1] && f[2] == g[2] && f[3] == g[3] && f[4] == g[4] && f[5][0] == g[5][0];
  }

  lemma {:induction false} ObjectFieldCount(o: seq<CatalogObject>)
    ensures |AllObjectFields(o)| == 4 * |o|
  {
    if o != [] { ObjectFieldCount(o[..|o| - 1]); }
  }

  lemma {:induction false} ColumnFieldsTellColumns(c: seq<CatalogColumn>, c': seq<CatalogColumn>)
    requires |c| == |c'| && AllColumnFields(c) == AllColumnFields(c')
    ensures c == c'
  {
    if c != [] {
      var n := |c| - 1;
      var a, a' := AllColumnFields(c[..n]), AllColumnFields(c'[..n]);
      ColumnFieldCount(c[..n]);
      ColumnFieldCount(c'[..n]);
      SameSplit(a, ColumnFields(c[n]), a', ColumnFields(c'[n]));
      ColumnFieldsTellColumns(c[..n], c'[..n]);
      ColumnIsRead(c[n], c'[n]);
      assert c == c[..n] + [c[n]] && c' == c'[..n] + [c'[n]];
    }
  }

  lemma {:induction false} ColumnFieldCount(c: seq<CatalogColumn>)
    ensures |AllColumnFields(c)| == 6 * |c|
  {
    if c != [] { ColumnFieldCount(c[..|c| - 1]); }
  }

  /** For a given number of objects and columns, and names without NUL bytes, the
      hashed stream determines the catalog. */
  lemma StreamDeterminesCatalog(o: seq<CatalogObject>, c: seq<CatalogColumn>,
                                o': seq<CatalogObject>, c': seq<CatalogColumn>)
    requires |o| == |o'| && |c| == |c'|
    requires NulFreeFields(AllObjectFields(o) + AllColumnFields(c))
    requires NulFreeFields(AllObjectFields(o') + AllColumnFields(c'))
    requires Stream(o, c) == Stream(o', c')
    ensures o == o' && c == c'
  {
    var a, a' := AllObjectFields(o), AllObjectFields(o');
    var b, b' := AllColumnFields(c), AllColumnFields(c');
    FieldsAreReadable(a + b, a' + b');
    ObjectFieldCount(o);
    ObjectFieldCount(o');
    assert a == (a + b)[..4 * |o|] && a' == (a' + b')[..4 * |o|];
    assert b == (a + b)[4 * |o|..] && b' == (a' + b')[4 * |o|..];
    ObjectFieldsTellObjects(o, o');
    ColumnFieldsTellColumns(c, c');
  }

  // ---------------------------------------------------------------------
  // Catalogs of different shapes.
  // ---------------------------------------------------------------------

  /** Two different catalogs, their names free of NUL bytes, that hash the same stream. */
  ghost predicate Collide(o: seq<CatalogObject>, c: seq<CatalogColumn>,
                          o': seq<CatalogObject>, c': seq<CatalogColumn>) {
    && NulFreeFields(AllObjectFields(o) + AllColumnFields(c))
    && NulFreeFields(AllObjectFields(o') + AllColumnFields(c'))
    && Stream(o, c) == Stream(o', c')
    && !(o == o' && c == c')
  }

  /** Colliding catalogs write the same fields. */
  lemma CollidingFields(o: seq<CatalogObject>, c: seq<CatalogColumn>,
                        o': seq<CatalogObject>, c': seq<CatalogColumn>)
    requires Collide(o, c, o', c')
    ensures AllObjectFields(o) + AllColumnFields(c) == AllObjectFields(o') + AllColumnFields(c')
    ensures 4 * |o| + 6 * |c| == 4 * |o'| + 6 * |c'| && |o| != |o'|
  {
    FieldsAreReadable(AllObjectFields(o) + AllColumnFields(c), AllObjectFields(o') + AllColumnFields(c'));
    ObjectFieldCount(o);
    ObjectFieldCount(o');
    ColumnFieldCount(c);
    ColumnFieldCount(c');
    if |o| == |o'| { StreamDeterminesCatalog(o, c, o', c'); }
  }

  const ZERO_OBJECT := CatalogObject([48], [48], [48], [48])
  const ZERO_COLUMN := CatalogColumn([48], [48], [48], [48], [48], false)

  function Zeros(n: nat): seq<seq<byte>> {
    seq(n, i => [48])
  }

  lemma {:induction false} ZeroObjectFields(m: nat)
    ensures AllObjectFields(seq(m, i => ZERO_OBJECT)) == Zeros(4 * m)
  {
    if m > 0 {
      ZeroObjectFields(m - 1);
      var o := seq(m, i => ZERO_OBJECT);
      assert o[..m - 1] == seq(m - 1, i => ZERO_OBJECT);
      assert Zeros(4 * m) == Zeros(4 * (m - 1)) + [[48], [48], [48], [48]];
    }
  }

  lemma {:induction false} ZeroColumnFields(n: nat)
    ensures AllColumnFields(seq(n, i => ZERO_COLUMN)) == Zeros(6 * n)
  {
    if n > 0 {
      ZeroColumnFields(n - 1);
      var c := seq(n, i => ZERO_COLUMN);
      assert c[..n - 1] == seq(n - 1, i => ZERO_COLUMN);
      assert Zeros(6 * n) == Zeros(6 * (n - 1)) + [[48], [48], [48], [48], [48], [48]];
    }
  }

  lemma ZeroCatalogsCollide(m: nat, n: nat, m': nat, n': nat)
    requires (m != m' || n != n') && 4 * m + 6 * n == 4 * m' + 6 * n'
    ensures Collide(seq(m, i => ZERO_OBJECT), seq(n, i => ZERO_COLUMN),
                    seq(m', i => ZERO_OBJECT), seq(n', i => ZERO_COLUMN))
  {
    var o, c := seq(m, i => ZERO_OBJECT), seq(n, i => ZERO_COLUMN);
    var o', c' := seq(m', i => ZERO_OBJECT), seq(n', i => ZERO_COLUMN);
    ZeroObjectFields(m);
    ZeroObjectFields(m');
    ZeroColumnFields(n);
    ZeroColumnFields(n');
    hide AllObjectFields, AllColumnFields, Fields;
    assert Zeros(4 * m) + Zeros(6 * n) == Zeros(4 * m + 6 * n) == Zeros(4 * m') + Zeros(6 * n');
    assert |o| != |o'| || |c| != |c'|;
  }

  /** Nothing in the stream separates objects from columns: catalogs with m objects and n
      columns, and with m' and n', can collide exactly if these are different shapes with
      the same number of fields. */
  lemma ShapesCollideIff(m: nat, n: nat, m': nat, n': nat)
    ensures (exists o, c, o', c' :: |o| == m && |c| == n && |o'| == m' && |c'| == n' && Collide(o, c, o', c'))
            <==> (m != m' || n != n') && 4 * m + 6 * n == 4 * m' + 6 * n'
  {
    hide Collide;
    if o, c, o', c' :| |o| == m && |c| == n && |o'| == m' && |c'| == n' && Collide(o, c, o', c') {
      CollidingFields(o, c, o', c');
    }
    if (m != m' || n != n') && 4 * m + 6 * n == 4 * m' + 6 * n' {
      ZeroCatalogsCollide(m, n, m', n');
    }
  }

  /** Every column belongs to a listed object. */
  predicate Listed(o: seq<CatalogObject>, c: seq<CatalogColumn>) {
    forall j :: 0 <= j < |c| ==> exists i :: 0 <= i < |o| && o[i].database == c[j].database
                                             && o[i].schema == c[j].schema && o[i].name == c[j].object_
  }

  lemma ObjectFieldsOf(o: seq<CatalogObject>, x: CatalogObject)
    ensures AllObjectFields(o + [x]) == AllObjectFields(o) + ObjectFields(x)
  {
    assert (o + [x])[..|o|] == o;
  }

  lemma ColumnFieldsOf(c: seq<CatalogColumn>, x: CatalogColumn)
    ensures AllColumnFields(c + [x]) == AllColumnFields(c) + ColumnFields(x)
  {
    assert (c + [x])[..|c|] == c;
  }

  /** Also catalogs whose columns all belong to listed objects can collide: one object with
      two columns, and four objects without any. */
  lemma ListedCatalogsCanCollide(x: seq<byte>)
    requires NulFree(x)
    ensures var one: seq<byte> := [49];
            var first, column := CatalogObject(x, x, x, x), CatalogColumn(x, x, x, x, x, true);
            var o, c := [] + [first], [] + [column] + [column];
            var o' := o + [first] + [CatalogObject(x, one, x, x)] + [CatalogObject(x, x, x, one)];
            Listed(o, c) && Listed(o', []) && Collide(o, c, o', [])
  {
    var one: seq<byte> := [49];
    var first, column := CatalogObject(x, x, x, x), CatalogColumn(x, x, x, x, x, true);
    var o, c := [] + [first], [] + [column] + [column];
    var third, fourth := CatalogObject(x, one, x, x), CatalogObject(x, x, x, one);
    ObjectFieldsOf([], first);
    ObjectFieldsOf(o, first);
    ObjectFieldsOf(o + [first], third);
    ObjectFieldsOf(o + [first] + [third], fourth);
    ColumnFieldsOf([], column);
    ColumnFieldsOf([] + [column], column);
    var o' := o + [first] + [third] + [fourth];
    assert AllObjectFields([]) == [] && AllColumnFields([]) == [];
    hide AllObjectFields, AllColumnFields, Fields;
    var fields := [x, x, x, x, x, x, x, x, x, one, x, x, x, x, x, one];
    assert AllObjectFields(o') + AllColumnFields([]) == fields;
    assert AllObjectFields(o) + AllColumnFields(c) == fields;
    assert o'[1] == first && |o'| == 4 && |o| == 1 && o[0] == first;
  }

  lemma {:induction false} KindAt(o: seq<CatalogObject>, i: nat)
    requires i < |o|
    ensures 4 * i + 3 < |AllObjectFields(o)| && AllObjectFields(o)[4 * i + 3] == o[i].kind
  {
    var n := |o| - 1;
    ObjectFieldCount(o[..n]);
    if i < n { KindAt(o[..n], i); }
  }

  lemma {:induction false} NullableAt(c: seq<CatalogColumn>, j: nat)
    requires j < |c|
    ensures 6 * j + 5 < |AllColumnFields(c)| && AllColumnFields(c)[6 * j + 5] == NullableField(c[j].nullable)
  {
    var n := |c| - 1;
    ColumnFieldCount(c[..n]);
    if j < n { NullableAt(c[..n], j); }
  }

  /** Where the shorter list of objects has gone over to columns, the flag of its second
      column stands in for an object's kind. */
  lemma CollisionPutsFlagForKind(o: seq<CatalogObject>, c: seq<CatalogColumn>,
                                 o': seq<CatalogObject>, c': seq<CatalogColumn>)
    requires Collide(o, c, o', c') && |o| < |o'|
    ensures |o| + 2 < |o'| && o'[|o| + 2].kind in {[48], [49]}
  {
    CollidingFields(o, c, o', c');
    var i := |o| + 2;
    assert |o'| - |o| == 3 * ((|o'| - |o|) / 3) && |c| >= 2;
    ObjectFieldCount(o);
    ObjectFieldCount(o');
    KindAt(o', i);
    NullableAt(c, 1);
    var fields := AllObjectFields(o) + AllColumnFields(c);
    assert fields[4 * |o| + 11] == AllColumnFields(c)[11];
    assert fields == AllObjectFields(o') + AllColumnFields(c');
    assert fields[4 * i + 3] == AllObjectFields(o')[4 * i + 3];
  }

  const TABLE: seq<byte> := [116, 97, 98, 108, 101]
  const VIEW: seq<byte> := [118, 105, 101, 119]

  /** The engine lists tables and views only. */
  predicate TablesAndViews(o: seq<CatalogObject>) {
    forall i :: 0 <= i < |o| ==> o[i].kind in {TABLE, VIEW}
  }

  /** So among the catalogs that the engine reports, of whatever shapes, no two collide. */
  lemma EngineCatalogsNeverCollide(o: seq<CatalogObject>, c: seq<CatalogColumn>,
                                   o': seq<CatalogObject>, c': seq<CatalogColumn>)
    requires TablesAndViews(o) && TablesAndViews(o')
    ensures !Collide(o, c, o', c')
  {
    if Collide(o, c, o', c') {
      CollidingFields(o, c, o', c');
      assert |[48 as byte]| == |[49 as byte]| == 1 && |TABLE| == 5 && |VIEW| == 4;
      if |o| < |o'| {
        CollisionPutsFlagForKind(o, c, o', c');
      } else {
        CollisionPutsFlagForKind(o', c', o, c);
      }
    }
  }
}
