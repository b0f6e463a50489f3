/** Quoted identifiers and string literals (sections 5.2 and 5.3 of ISO/IEC 9075-2):
    the printer of the quality compiler, and a lexer that undoes it. */
module SqlText {
  import opened Basics

  const QUOTE: char := '"'
  const APOSTROPHE: char := '\''

  // ---------------------------------------------------------------------
  // Trimming.
  // ---------------------------------------------------------------------

  /** The code points with the Unicode property White_Space. */
  predicate IsWhite(c: char) {
    '\U{9}' <= c <= '\U{D}' || c == ' ' || c == '\U{85}' || c == '\U{A0}' || c == '\U{1680}'
    || '\U{2000}' <= c <= '\U{200A}' || c == '\U{2028}' || c == '\U{2029}' || c == '\U{202F}'
    || c == '\U{205F}' || c == '\U{3000}'
  }

  function TrimStart(s: string): string {
    if s != [] && IsWhite(s[0]) then TrimStart(s[1..]) else s
  }

  function TrimTail(s: string): string {
    if s != [] && IsWhite(s[|s| - 1]) then TrimTail(s[..|s| - 1]) else s
  }

  function Trim(s: string): string {
    TrimTail(TrimStart(s))
  }

  predicate Trimmed(s: string) {
    s == [] || (!IsWhite(s[0]) && !IsWhite(s[|s| - 1]))
  }

  lemma {:induction false} TrimStartStarts(s: string)
    ensures TrimStart(s) == [] || !IsWhite(TrimStart(s)[0])
  {
    if s != [] && IsWhite(s[0]) { TrimStartStarts(s[1..]); }
  }

  lemma {:induction false} TrimTailEnds(s: string)
    ensures TrimTail(s) == [] || !IsWhite(TrimTail(s)[|TrimTail(s)| - 1])
    ensures TrimTail(s) <= s
  {
    if s != [] && IsWhite(s[|s| - 1]) { TrimTailEnds(s[..|s| - 1]); }
  }

  /** Trimming leaves no white space at either end, and changes nothing that has none. */
  lemma TrimTrims(s: string)
    ensures Trimmed(Trim(s))
    ensures Trimmed(s) ==> Trim(s) == s
  {
    TrimStartStarts(s);
    TrimTailEnds(TrimStart(s));
  }

  /** Letters without regard to their case; other characters as they are. */
  function LowerCase(s: string): string {
    if s == [] then []
    else [if 'A' <= s[0] <= 'Z' then s[0] - 'A' + 'a' else s[0]] + LowerCase(s[1..])
  }

  /** How a name is compared: trimmed and without regard to case. */
  function Canonical(name: string): string {
    LowerCase(Trim(name))
  }

  function LowerOf(c: char): char {
    if 'A' <= c <= 'Z' then c - 'A' + 'a' else c
  }

  lemma {:induction false} LowerCaseIsCharByChar(s: string, k: nat)
    requires k < |s|
    ensures |LowerCase(s)| == |s| && LowerCase(s)[k] == LowerOf(s[k])
  {
    if k > 0 { LowerCaseIsCharByChar(s[1..], k - 1); } else if |s| > 1 { LowerCaseIsCharByChar(s[1..], 0); }
  }

  /** Two names are compared as equal exactly if, trimmed, they are equal up to the case of
      ASCII letters. */
  lemma NamesAgreeIff(a: string, b: string)
    ensures Canonical(a) == Canonical(b)
            <==> |Trim(a)| == |Trim(b)| && forall k :: 0 <= k < |Trim(a)| ==> LowerOf(Trim(a)[k]) == LowerOf(Trim(b)[k])
  {
    var s, t := Trim(a), Trim(b);
    if s != [] { LowerCaseIsCharByChar(s, 0); }
    if t != [] { LowerCaseIsCharByChar(t, 0); }
    forall k | 0 <= k < |s| ensures LowerCase(s)[k] == LowerOf(s[k]) { LowerCaseIsCharByChar(s, k); }
    forall k | 0 <= k < |t| ensures LowerCase(t)[k] == LowerOf(t[k]) { LowerCaseIsCharByChar(t, k); }
    hide LowerCase, LowerOf, Trim;
  }

  // ---------------------------------------------------------------------
  // Printing.
  // ---------------------------------------------------------------------

  /** Every delimiter inside is written twice. */
  function Doubled(s: string, d: char): string {
    if s == [] then []
    else if s[0] == d then [d, d] + Doubled(s[1..], d)
    else [s[0]] + Doubled(s[1..], d)
  }

  function Delimited(s: string, d: char): string {
    [d] + Doubled(s, d) + [d]
  }

  /** A quoted identifier; blank identifiers are an error. */
  function Quote(identifier: string): Option<string> {
    if Trim(identifier) == [] then None else Some(Delimited(Trim(identifier), QUOTE))
  }

  /** Scalars as they come from a check definition; a number has the digits it was
      written with and the value they denote. */
  datatype Json = JNull | JBool(b: bool) | JNumber(digits: string, n: real) | JString(s: string) | JArray | JObject

  /** Numbers keep the digits they were given; arrays and objects are an error. */
  function SqlLiteral(value: Json): Option<string> {
    match value
    case JNull => Some("NULL")
    case JBool(b) => Some(if b then "TRUE" else "FALSE")
    case JNumber(digits, _) => Some(digits)
    case JString(s) => Some(Delimited(s, APOSTROPHE))
    case JArray => None
    case JObject => None
  }

  /** A target's three-part name. */
  function Qualified(database: string, schema: string, object_: string): Option<string> {
    if Quote(database).None? || Quote(schema).None? || Quote(object_).None? then None
    else Some(Quote(database).value + "." + Quote(schema).value + "." + Quote(object_).value)
  }

  // ---------------------------------------------------------------------
  // Scanning.
  // ---------------------------------------------------------------------

  datatype Scanned = Scanned(content: string, rest: string)

  /** The characters of a delimited token up to its closing delimiter; a doubled
      delimiter stands for one. */
  function ScanBody(s: string, d: char): Option<Scanned> {
    if s == [] then None
    else if s[0] != d then
      var tail := ScanBody(s[1..], d);
      if tail.None? then None else Some(Scanned([s[0]] + tail.value.content, tail.value.rest))
    else if |s| >= 2 && s[1] == d then
      var tail := ScanBody(s[2..], d);
      if tail.None? then None else Some(Scanned([d] + tail.value.content, tail.value.rest))
    else Some(Scanned([], s[1..]))
  }

  function Scan(s: string, d: char): Option<Scanned> {
    if s == [] || s[0] != d then None else ScanBody(s[1..], d)
  }

  // ---------------------------------------------------------------------
  // The lexer undoes the printer.
  // ---------------------------------------------------------------------

  function Prepended(c: char, tail: Option<Scanned>): Option<Scanned> {
    if tail.None? then None else Some(Scanned([c] + tail.value.content, tail.value.rest))
  }

  lemma ScanPlain(c: char, tail: string, d: char)
    requires c != d
    ensures ScanBody([c] + tail, d) == Prepended(c, ScanBody(tail, d))
  {
    assert ([c] + tail)[1..] == tail;
  }

  lemma ScanPair(tail: string, d: char)
    ensures ScanBody([d, d] + tail, d) == Prepended(d, ScanBody(tail, d))
  {
    assert ([d, d] + tail)[2..] == tail;
  }

  lemma ScanEnd(rest: string, d: char)
    requires rest == [] || rest[0] != d
    ensures ScanBody([d] + rest, d) == Some(Scanned([], rest))
  {
    assert ([d] + rest)[1..] == rest;
  }

  lemma {:induction false} ScanUndoesDoubling(s: string, d: char, rest: string)
    requires rest == [] || rest[0] != d
    ensures ScanBody(Doubled(s, d) + [d] + rest, d) == Some(Scanned(s, rest))
  {
    hide ScanBody;
    if s == [] {
      assert Doubled(s, d) + [d] + rest == [d] + rest;
      ScanEnd(rest, d);
    } else {
      ScanUndoesDoubling(s[1..], d, rest);
      var tail := Doubled(s[1..], d) + [d] + rest;
      assert Doubled(s, d) + [d] + rest == (if s[0] == d then [d, d] else [s[0]]) + tail;
      hide Doubled;
      if s[0] == d { ScanPair(tail, d); } else { ScanPlain(s[0], tail, d); }
      assert s == [s[0]] + s[1..];
    }
  }

  lemma ScanUndoesDelimiting(s: string, d: char, rest: string)
    requires rest == [] || rest[0] != d
    ensures Scan(Delimited(s, d) + rest, d) == Some(Scanned(s, rest))
  {
    ScanUndoesDoubling(s, d, rest);
    assert (Delimited(s, d) + rest)[1..] == Doubled(s, d) + [d] + rest;
  }

  /** Whatever follows a quoted identifier, unless another quote, scanning gives back
      the trimmed identifier and what follows. */
  lemma QuotedIsScannedBack(identifier: string, rest: string)
    requires Quote(identifier).Some? && (rest == [] || rest[0] != QUOTE)
    ensures Scan(Quote(identifier).value + rest, QUOTE) == Some(Scanned(Trim(identifier), rest))
  {
    ScanUndoesDelimiting(Trim(identifier), QUOTE, rest);
  }

  /** String literals likewise, without trimming. */
  lemma LiteralIsScannedBack(s: string, rest: string)
    requires rest == [] || rest[0] != APOSTROPHE
    ensures Scan(SqlLiteral(JString(s)).value + rest, APOSTROPHE) == Some(Scanned(s, rest))
  {
    ScanUndoesDelimiting(s, APOSTROPHE, rest);
  }

  // ---------------------------------------------------------------------
  // Reading scalars back.
  // ---------------------------------------------------------------------

  /** The value of decimal digits; nothing if there is none, or something else among them. */
  function DigitsValue(s: string): Option<nat> {
    if s == [] || !('0' <= s[|s| - 1] <= '9') then None
    else if |s| == 1 then Some((s[0] - '0') as nat)
    else
      var init := DigitsValue(s[..|s| - 1]);
      if init.None? then None else Some(10 * init.value + (s[|s| - 1] - '0') as nat)
  }

  function PowerOfTen(n: nat): (power: real)
    ensures power > 0.0
  {
    if n == 0 then 1.0 else 10.0 * PowerOfTen(n - 1)
  }

  /** Where the first of these characters is, or the end. */
  function FirstOf(s: string, marks: set<char>): (k: nat)
    ensures k <= |s|
  {
    if s == [] || s[0] in marks then 0 else 1 + FirstOf(s[1..], marks)
  }

  /** Digits, with a fraction or without. */
  function DecimalValue(s: string): Option<real> {
    var k := FirstOf(s, {'.'});
    var whole := DigitsValue(s[..k]);
    if whole.None? then None
    else if k == |s| then Some(whole.value as real)
    else
      var fraction := DigitsValue(s[k + 1..]);
      if fraction.None? then None
      else Some(whole.value as real + fraction.value as real / PowerOfTen(|s| - k - 1))
  }

  function Shifted(mantissa: real, exponent: string): Option<real> {
    if exponent == [] then None
    else
      var n := DigitsValue(if exponent[0] in {'+', '-'} then exponent[1..] else exponent);
      if n.None? then None
      else Some(if exponent[0] == '-' then mantissa / PowerOfTen(n.value) else mantissa * PowerOfTen(n.value))
  }

  /** The number that a signed decimal with or without an exponent denotes. */
  function NumberOf(s: string): Option<real> {
    var unsigned := if s != [] && s[0] == '-' then s[1..] else s;
    var k := FirstOf(unsigned, {'e', 'E'});
    var mantissa := DecimalValue(unsigned[..k]);
    var value := if mantissa.None? || k == |unsigned| then mantissa else Shifted(mantissa.value, unsigned[k + 1..]);
    if value.None? then None else Some(if unsigned == s then value.value else -value.value)
  }

  /** The scalar that a literal stands for. */
  function ReadLiteral(text: string): Option<Json> {
    if text == "NULL" then Some(JNull)
    else if text == "TRUE" then Some(JBool(true))
    else if text == "FALSE" then Some(JBool(false))
    else if text != [] && text[0] == APOSTROPHE then
      var scanned := Scan(text, APOSTROPHE);
      if scanned.Some? && scanned.value.rest == [] then Some(JString(scanned.value.content)) else None
    else if NumberOf(text).Some? then Some(JNumber(text, NumberOf(text).value))
    else None
  }

  lemma NumbersAreNoWords(s: string)
    requires NumberOf(s).Some?
    ensures s != [] && (s[0] == '-' || '0' <= s[0] <= '9')
  {
    var unsigned := if s != [] && s[0] == '-' then s[1..] else s;
    var m := unsigned[..FirstOf(unsigned, {'e', 'E'})];
    var whole := m[..FirstOf(m, {'.'})];
    DigitsBeginWithDigit(whole);
    assert whole[0] == unsigned[0];
  }

  lemma {:induction false} DigitsBeginWithDigit(s: string)
    requires DigitsValue(s).Some?
    ensures s != [] && '0' <= s[0] <= '9'
  {
    if |s| > 1 { DigitsBeginWithDigit(s[..|s| - 1]); }
  }

  lemma WholeIsRead()
    ensures DigitsValue("1905") == Some(1905)
  {
    var s := "1905";
    assert s[..3] == "190" && s[..3][..2] == "19" && s[..3][..2][..1] == "1";
    assert DigitsValue(s[..3][..2][..1]) == Some(1);
    assert DigitsValue(s[..3][..2]) == Some(19);
    assert DigitsValue(s[..3]) == Some(190);
  }

  lemma FractionIsRead()
    ensures DecimalValue("2.5") == Some(2.5)
  {
    var s := "2.5";
    assert s[1..][0] == '.' && FirstOf(s, {'.'}) == 1;
    assert s[..1] == "2" && s[2..] == "5" && DigitsValue("2") == Some(2) && DigitsValue("5") == Some(5);
    assert PowerOfTen(1) == 10.0;
  }

  lemma ExponentIsRead()
    ensures Shifted(5.0, "-1") == Some(0.5) && Shifted(5.0, "1") == Some(50.0)
  {
    var minus, one := "-1", "1";
    assert minus[0] == '-' && minus[1..] == one && one[0] == '1';
    assert DigitsValue(one) == Some(1);
    assert PowerOfTen(1) == 10.0 by { assert PowerOfTen(0) == 1.0; }
  }

  /** Numbers are read in base ten: digits, fractions and powers of ten. */
  lemma NumbersAreRead()
    ensures DigitsValue("1905") == Some(1905) && DecimalValue("2.5") == Some(2.5)
    ensures Shifted(5.0, "-1") == Some(0.5) && Shifted(5.0, "1") == Some(50.0)
  {
    WholeIsRead();
    FractionIsRead();
    ExponentIsRead();
  }

  /** Every scalar's literal stands for that scalar, given that a number's digits denote it;
      lists and objects have no literal. */
  lemma LiteralsAreReadBack(value: Json)
    requires value.JNumber? ==> NumberOf(value.digits) == Some(value.n)
    ensures SqlLiteral(value).Some? <==> !value.JArray? && !value.JObject?
    ensures SqlLiteral(value).Some? ==> ReadLiteral(SqlLiteral(value).value) == Some(value)
  {
    match value
    case JNumber(digits, _) => NumbersAreNoWords(digits);
    case JString(s) =>
      var text := Delimited(s, APOSTROPHE);
      assert text + [] == text;
      LiteralIsScannedBack(s, []);
    case _ =>
  }

  /** Three-part names are told apart by what remains after trimming, and fail only
      on a blank part. */
  lemma QualifiedIsInjective(d: string, s: string, o: string, d': string, s': string, o': string)
    requires Qualified(d, s, o).Some? && Qualified(d, s, o) == Qualified(d', s', o')
    ensures Trim(d) == Trim(d') && Trim(s) == Trim(s') && Trim(o) == Trim(o')
  {
    ReadBack(d, s, o);
    ReadBack(d', s', o');
  }

  /** Reading the three parts back one after the other. */
  function ReadQualified(text: string): Option<(string, string, string)> {
    var a := Scan(text, QUOTE);
    if a.None? || a.value.rest == [] then None
    else
      var b := Scan(a.value.rest[1..], QUOTE);
      if b.None? || b.value.rest == [] then None
      else
        var c := Scan(b.value.rest[1..], QUOTE);
        if c.None? then None else Some((a.value.content, b.value.content, c.value.content))
  }

  lemma ReadBack(d: string, s: string, o: string)
    requires Qualified(d, s, o).Some?
    ensures ReadQualified(Qualified(d, s, o).value) == Some((Trim(d), Trim(s), Trim(o)))
  {
    var qd, qs, qo := Quote(d).value, Quote(s).value, Quote(o).value;
    var rest := "." + qs + "." + qo;
    assert Qualified(d, s, o).value == qd + rest;
    QuotedIsScannedBack(d, rest);
    assert rest[1..] == qs + ("." + qo);
    QuotedIsScannedBack(s, "." + qo);
    assert ("." + qo)[1..] == qo + [];
    QuotedIsScannedBack(o, []);
  }
}
