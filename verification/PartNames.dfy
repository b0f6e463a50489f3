/** Export part names: the engine's padded printer, and the recogniser with which
    a guarded export looks for files it would replace. */
module PartNames {
  import opened Basics

  const MAX_COLLISION_SCAN_ENTRIES: nat := 10_000
  const DIGITS: string := "0123456789"

  predicate IsDigit(c: char) {
    '0' <= c <= '9'
  }

  predicate AllDigits(s: string) {
    forall i :: 0 <= i < |s| ==> IsDigit(s[i])
  }

  // ---------------------------------------------------------------------
  // Printing.
  // ---------------------------------------------------------------------

  function Decimal(n: nat): (s: string)
    ensures |s| > 0 && AllDigits(s)
  {
    if n < 10 then [DIGITS[n]] else Decimal(n / 10) + [DIGITS[n % 10]]
  }

  function Zeros(count: nat): (s: string)
    ensures |s| == count && forall i :: 0 <= i < count ==> s[i] == '0'
  {
    if count == 0 then "" else "0" + Zeros(count - 1)
  }

  /** Decimal digits, padded with zeros to at least five. */
  function Padded(n: nat): (s: string)
    ensures |s| >= 5 && AllDigits(s)
  {
    var d := Decimal(n);
    if |d| >= 5 then d else Zeros(5 - |d|) + d
  }

  /** The name of a part; part numbers start at one. */
  function PartFileName(base: string, n: nat, extension: string): Option<string> {
    if n == 0 then None else Some(base + "-part-" + Padded(n) + "." + extension)
  }

  // ---------------------------------------------------------------------
  // Recognising.
  // ---------------------------------------------------------------------

  function StripPrefix(s: string, prefix: string): (rest: Option<string>)
    ensures rest.Some? <==> prefix <= s
    ensures rest.Some? ==> s == prefix + rest.value
  {
    if prefix <= s then Some(s[|prefix|..]) else None
  }

  function StripSuffix(s: string, suffix: string): (rest: Option<string>)
    ensures rest.Some? ==> s == rest.value + suffix
    ensures (exists r :: s == r + suffix) ==> rest.Some?
  {
    if |suffix| <= |s| && s[|s| - |suffix|..] == suffix then Some(s[..|s| - |suffix|]) else None
  }

  function DigitValue(c: char): nat
    requires IsDigit(c)
  {
    (c - '0') as nat
  }

  function Value(s: string): nat
    requires AllDigits(s)
  {
    if s == "" then 0 else Value(s[..|s| - 1]) * 10 + DigitValue(s[|s| - 1])
  }

  /** A 64-bit unsigned parse: digits only, at least one, no overflow. */
  function ParseU64(s: string): Option<nat> {
    if s == "" || !AllDigits(s) || Value(s) > U64_MAX then None else Some(Value(s))
  }

  function PartNumber(name: string, base: string, extension: string): Option<nat> {
    var rest := StripPrefix(name, base + "-part-");
    if rest.None? then None
    else
      var sequence := StripSuffix(rest.value, "." + extension);
      if sequence.None? then None else ParseU64(sequence.value)
  }

  predicate Canonical(name: string, base: string, extension: string) {
    var n := PartNumber(name, base, extension);
    n.Some? && n.value > 0 && Some(name) == PartFileName(base, n.value, extension)
  }

  // ---------------------------------------------------------------------
  // The recogniser agrees with the printer.
  // ---------------------------------------------------------------------

  lemma {:induction false} ValueOfDecimal(n: nat)
    ensures Value(Decimal(n)) == n
  {
    if n >= 10 {
      ValueOfDecimal(n / 10);
      var d := Decimal(n);
      assert d[..|d| - 1] == Decimal(n / 10);
    }
  }

  lemma {:induction false} ValueOfZeros(count: nat, s: string)
    requires AllDigits(s)
    ensures AllDigits(Zeros(count) + s) && Value(Zeros(count) + s) == Value(s)
  {
    if s == "" {
      if count > 0 {
        ValueOfZeros(count - 1, "");
        var z := Zeros(count);
        assert z + "" == z;
        assert z[..count - 1] == Zeros(count - 1);
        assert Zeros(count - 1) + "" == Zeros(count - 1);
      }
    } else {
      var z := Zeros(count) + s;
      ValueOfZeros(count, s[..|s| - 1]);
      assert z[..|z| - 1] == Zeros(count) + s[..|s| - 1];
    }
  }

  lemma ValueOfPadded(n: nat)
    ensures Value(Padded(n)) == n
  {
    hide Decimal, Value, Zeros;
    ValueOfDecimal(n);
    if |Decimal(n)| < 5 { ValueOfZeros(5 - |Decimal(n)|, Decimal(n)); }
  }

  /** Stripping a printed name leaves its number. */
  lemma PartNumberOfName(base: string, digits: string, extension: string)
    ensures PartNumber(base + "-part-" + digits + "." + extension, base, extension) == ParseU64(digits)
  {
    var name := base + "-part-" + digits + "." + extension;
    var prefix, suffix := base + "-part-", "." + extension;
    assert name == prefix + (digits + suffix);
    assert prefix <= name && name[|prefix|..] == digits + suffix;
    assert (digits + suffix)[|digits|..] == suffix && (digits + suffix)[..|digits|] == digits;
  }

  /** A name is recognised exactly when it is the printed name of some part number
      that fits in 64 bits. */
  lemma RecogniserAgreesWithPrinter(name: string, base: string, extension: string)
    ensures Canonical(name, base, extension) <==>
            exists n: nat :: 1 <= n <= U64_MAX && PartFileName(base, n, extension) == Some(name)
  {
    if n: nat :| 1 <= n <= U64_MAX && PartFileName(base, n, extension) == Some(name) {
      PartNumberOfName(base, Padded(n), extension);
      ValueOfPadded(n);
    }
  }

  /** Two printed names with the same extension agree only if base and number do:
      the digits are the last digits before the extension, however often the
      separator occurs in the base. */
  lemma NamesAreDistinct(base1: string, n1: nat, base2: string, n2: nat, extension: string)
    requires n1 > 0 && n2 > 0
    requires PartFileName(base1, n1, extension) == PartFileName(base2, n2, extension)
    ensures base1 == base2 && n1 == n2
  {
    var p1, p2 := Padded(n1), Padded(n2);
    var h1, h2 := base1 + "-part-" + p1, base2 + "-part-" + p2;
    var name := h1 + "." + extension;
    var tail := "." + extension;
    assert name == h1 + tail && h2 + "." + extension == h2 + tail;
    assert h1 == name[..|name| - |tail|] && h2 == name[..|name| - |tail|];
    assert h1 == base1 + "-part" + "-" + p1 && h2 == base2 + "-part" + "-" + p2;
    DigitsFromTheEnd(base1 + "-part", p1, base2 + "-part", p2);
    ValueOfPadded(n1);
    ValueOfPadded(n2);
    assert base1 == (base1 + "-part")[..|base1|] && base2 == (base2 + "-part")[..|base2|];
  }

  lemma DigitsFromTheEnd(a: string, p: string, b: string, q: string)
    requires AllDigits(p) && AllDigits(q) && a + "-" + p == b + "-" + q
    ensures a == b && p == q
  {
    var s := a + "-" + p;
    var t := b + "-" + q;
    assert s[|a|] == t[|a|] && s[|b|] == t[|b|];
    assert |p| == |q|;
    assert a == s[..|a|] && b == t[..|b|];
    assert p == s[|a| + 1..] && q == t[|b| + 1..];
  }

  /** The number that a recognised name carries is unique. */
  lemma PartNumberIsUnique(name: string, base: string, extension: string, m: nat, n: nat)
    requires PartFileName(base, m, extension) == Some(name) && PartFileName(base, n, extension) == Some(name)
    ensures m == n
  {
    NamesAreDistinct(base, m, base, n, extension);
  }

  lemma {:induction false} DecimalHasNoLeadingZero(n: nat)
    requires n > 0
    ensures Decimal(n)[0] != '0'
  {
    if n >= 10 { DecimalHasNoLeadingZero(n / 10); }
  }

  /** A part's name is the base name, its number in five digits or, if that is not enough, as
      many as it takes, and the extension. */
  lemma PartNameIsPrinted(base: string, n: nat, extension: string) returns (digits: string)
    requires n > 0
    ensures PartFileName(base, n, extension) == Some(base + "-part-" + digits + "." + extension)
    ensures |digits| >= 5 && AllDigits(digits) && Value(digits) == n && (|digits| > 5 ==> digits[0] != '0')
  {
    digits := Padded(n);
    ValueOfPadded(n);
    DecimalHasNoLeadingZero(n);
    hide Decimal, Value;
  }

  // ---------------------------------------------------------------------
  // Scanning the destination folder.
  // ---------------------------------------------------------------------

  datatype FileKind = RegularFile | NotRegular | Unreadable

  /** One directory entry: it cannot be read, its name is not Unicode text, or it
      has a name and, on closer look, a kind. */
  datatype Entry = Broken | Nameless | Named(name: string, kind: FileKind)

  datatype Scan = Collision | Clear | FolderMissing | FolderTooLarge | FolderUnsafe | TargetNotRegular

  /** Entry `i` ends the scan. */
  predicate Stops(entries: seq<Entry>, i: nat, base: string, extension: string)
    requires i < |entries|
  {
    i >= MAX_COLLISION_SCAN_ENTRIES || entries[i].Broken?
    || (entries[i].Named? && Canonical(entries[i].name, base, extension))
  }

  predicate FirstStop(entries: seq<Entry>, i: nat, base: string, extension: string)
    requires i < |entries|
  {
    Stops(entries, i, base, extension)
    && forall j :: 0 <= j < i ==> !Stops(entries, j, base, extension)
  }

  /** What the scan reports when it stops at entry `i`. */
  function StopReport(entries: seq<Entry>, i: nat): Scan
    requires i < |entries|
  {
    if i >= MAX_COLLISION_SCAN_ENTRIES then FolderTooLarge
    else match entries[i]
      case Broken => FolderUnsafe
      case Nameless => Clear
      case Named(name, kind) =>
        match kind
        case RegularFile => Collision
        case NotRegular => TargetNotRegular
        case Unreadable => FolderUnsafe
  }

  function ScanFrom(entries: seq<Entry>, i: nat, base: string, extension: string): Scan
    requires i <= |entries|
    decreases |entries| - i
  {
    if i == |entries| then Clear
    else if Stops(entries, i, base, extension) then StopReport(entries, i)
    else ScanFrom(entries, i + 1, base, extension)
  }

  function ScanFolder(folder: Option<seq<Entry>>, base: string, extension: string): Scan {
    if folder.None? then FolderMissing else ScanFrom(folder.value, 0, base, extension)
  }

  /** The scan reports its first stop, and is clear when there is none. */
  lemma {:induction false} ScanReportsFirstStop(entries: seq<Entry>, i: nat, base: string, extension: string)
    requires i <= |entries|
    requires forall j :: 0 <= j < i ==> !Stops(entries, j, base, extension)
    ensures forall k :: 0 <= k < |entries| && FirstStop(entries, k, base, extension)
              ==> ScanFrom(entries, i, base, extension) == StopReport(entries, k)
    ensures (forall k :: 0 <= k < |entries| ==> !Stops(entries, k, base, extension))
              ==> ScanFrom(entries, i, base, extension) == Clear
    decreases |entries| - i
  {
    if i < |entries| {
      if Stops(entries, i, base, extension) {
        assert FirstStop(entries, i, base, extension);
      } else {
        ScanReportsFirstStop(entries, i + 1, base, extension);
      }
    }
  }

  method HasCanonicalCollision(folder: Option<seq<Entry>>, base: string, extension: string) returns (scan: Scan)
    ensures scan == ScanFolder(folder, base, extension)
  {
    if folder.None? { return FolderMissing; }
    var entries := folder.value;
    for i := 0 to |entries|
      invariant ScanFrom(entries, 0, base, extension) == ScanFrom(entries, i, base, extension)
    {
      if i >= MAX_COLLISION_SCAN_ENTRIES { return FolderTooLarge; }
      match entries[i]
      case Broken => return FolderUnsafe;
      case Nameless =>
      case Named(name, kind) =>
        if Canonical(name, base, extension) {
          match kind {
            case RegularFile => return Collision;
            case NotRegular => return TargetNotRegular;
            case Unreadable => return FolderUnsafe;
          }
        }
    }
    return Clear;
  }

  lemma {:induction false} ClearScanStopsNowhere(entries: seq<Entry>, i: nat, base: string, extension: string)
    requires i <= |entries| && ScanFrom(entries, i, base, extension) == Clear
    ensures forall j :: i <= j < |entries| ==> !Stops(entries, j, base, extension)
    decreases |entries| - i
  {
    if i < |entries| && !Stops(entries, i, base, extension) {
      ClearScanStopsNowhere(entries, i + 1, base, extension);
    }
  }

  /** After a clear scan no part the export could write exists yet, whatever its number. */
  lemma ClearMeansNothingToReplace(entries: seq<Entry>, base: string, extension: string, n: nat, name: string)
    requires ScanFolder(Some(entries), base, extension) == Clear
    requires 1 <= n <= U64_MAX && PartFileName(base, n, extension) == Some(name)
    ensures forall i :: 0 <= i < |entries| && entries[i].Named? ==> entries[i].name != name
  {
    RecogniserAgreesWithPrinter(name, base, extension);
    ClearScanStopsNowhere(entries, 0, base, extension);
    forall i | 0 <= i < |entries| && entries[i].Named? ensures entries[i].name != name {
      assert !Stops(entries, i, base, extension);
    }
  }
}
