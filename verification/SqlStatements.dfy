/** Top-level statements of a SQL text, as the engine splits it: quotes, comments and
    semicolons; and what becomes of a statement that is pasted into a count query. */
module SqlStatements {
  import opened Basics
  import opened SqlText

  const SEMICOLON: char := ';'

  /** Where a reader of the text stands. After a dash, a slash or what may be the end of a
      string literal, the next character decides. */
  datatype Mode =
    | Code
    | Dash
    | Slash
    | Quoted(mark: char)
    | MaybeClosed
    | LineComment
    | Comment(nesting: nat)
    | CommentStar(nesting: nat)
    | CommentSlash(nesting: nat)

  /** The reader's notes: whether the current statement has content, where it began, how far
      the text is read, the statements so far, the semicolons and the parentheses open. */
  datatype Reader = Reader(
    mode: Mode,
    content: bool,
    begin: nat,
    at: nat,
    pieces: seq<(nat, nat)>,
    semicolons: nat,
    depth: int)

  const START := Reader(Code, false, 0, 0, [], 0, 0)

  function Flat(r: Reader, c: char): Reader {
    match c
    case '\'' => r.(mode := Quoted(c), content := true)
    case '"' => r.(mode := Quoted(c), content := true)
    case '-' => r.(mode := Dash)
    case '/' => r.(mode := Slash)
    case ';' => r.(mode := Code, content := false, begin := r.at + 1, semicolons := r.semicolons + 1,
                   pieces := if r.content then r.pieces + [(r.begin, r.at)] else r.pieces)
    case '(' => r.(mode := Code, content := true, depth := r.depth + 1)
    case ')' => r.(mode := Code, content := true, depth := r.depth - 1)
    case _ => r.(mode := Code, content := r.content || !IsWhite(c))
  }

  function Next(r: Reader, c: char): Reader {
    match r.mode
    case Code => Flat(r, c)
    case Dash => if c == '-' then r.(mode := LineComment) else Flat(r.(content := true), c)
    case Slash => if c == '*' then r.(mode := Comment(1)) else Flat(r.(content := true), c)
    case Quoted(mark) => if c != mark then r else r.(mode := if mark == '\'' then MaybeClosed else Code)
    case MaybeClosed => if c == '\'' then r.(mode := Quoted(c)) else Flat(r, c)
    case LineComment => if c == '\n' then r.(mode := Code) else r
    case Comment(n) => r.(mode := if c == '*' then CommentStar(n) else if c == '/' then CommentSlash(n) else Comment(n))
    case CommentStar(n) =>
      r.(mode := if c == '/' then (if n <= 1 then Code else Comment(n - 1))
                 else if c == '*' then r.mode else Comment(n))
    case CommentSlash(n) => r.(mode := if c == '*' then Comment(n + 1) else if c == '/' then r.mode else Comment(n))
  }

  function Step(r: Reader, c: char): Reader {
    Next(r, c).(at := r.at + 1)
  }

  function Read(r: Reader, s: string): Reader {
    if s == [] then r else Step(Read(r, s[..|s| - 1]), s[|s| - 1])
  }

  /** Outside quotes and comments. */
  predicate Open(m: Mode) {
    m.Code? || m.Dash? || m.Slash? || m.MaybeClosed?
  }

  predicate HasContent(r: Reader) {
    r.content || r.mode.Dash? || r.mode.Slash?
  }

  function PiecesOf(r: Reader): seq<(nat, nat)> {
    if HasContent(r) then r.pieces + [(r.begin, r.at)] else r.pieces
  }

  function Cut(s: string, pieces: seq<(nat, nat)>): seq<string> {
    seq(|pieces|, i requires 0 <= i < |pieces| =>
      if pieces[i].0 <= pieces[i].1 <= |s| then Trim(s[pieces[i].0..pieces[i].1]) else [])
  }

  /** The text's statements, trimmed; pieces without content are dropped. */
  function Statements(s: string): seq<string> {
    Cut(s, PiecesOf(Read(START, s)))
  }

  // ---------------------------------------------------------------------
  // The splitting loop.
  // ---------------------------------------------------------------------

  function Upto(s: string, i: nat): Reader
    requires i <= |s|
  {
    Read(START, s[..i])
  }

  lemma OneMore(s: string, i: nat)
    requires i < |s|
    ensures Upto(s, i + 1) == Step(Upto(s, i), s[i])
  {
    assert s[..i + 1][..i] == s[..i];
  }

  lemma {:induction false} ReadsAt(s: string, i: nat)
    requires i <= |s|
    ensures Upto(s, i).at == i
  {
    if i > 0 {
      ReadsAt(s, i - 1);
      OneMore(s, i - 1);
    }
  }

  /** The next character does not join the one before. */
  predicate Settled(r: Reader, s: string, i: nat)
    requires i <= |s|
  {
    && Open(r.mode)
    && (i < |s| ==> !(r.mode.Dash? && s[i] == '-') && !(r.mode.Slash? && s[i] == '*')
                    && !(r.mode.MaybeClosed? && s[i] == '\''))
  }

  /** Reading on from `i` to `j` inside quotes or comments leaves all but the mode. */
  predicate Skips(s: string, i: nat, j: nat)
    requires i <= |s| && j <= |s|
  {
    Upto(s, j) == Upto(s, i).(mode := Upto(s, j).mode, at := j) && !Upto(s, j).mode.Dash? && !Upto(s, j).mode.Slash?
  }

  /** To the end of a quoted text; a doubled apostrophe stays inside. */
  method SkipQuoted(s: string, i: nat, mark: char) returns (j: nat)
    requires i <= |s| && Upto(s, i).mode == Quoted(mark) && mark in {'\'', '"'}
    ensures i <= j <= |s| && Skips(s, i, j)
    ensures Settled(Upto(s, j), s, j) || j == |s|
  {
    j := i;
    ReadsAt(s, i);
    while j < |s|
      invariant i <= j <= |s| && Upto(s, j).mode == Quoted(mark) && Skips(s, i, j)
    {
      OneMore(s, j);
      var c := s[j];
      j := j + 1;
      if c == mark {
        if mark == '\'' && j < |s| && s[j] == '\'' {
          OneMore(s, j);
          j := j + 1;
        } else {
          return;
        }
      }
    }
  }

  /** To the end of the line. */
  method SkipLine(s: string, i: nat) returns (j: nat)
    requires i <= |s| && Upto(s, i).mode.LineComment?
    ensures i <= j <= |s| && Skips(s, i, j)
    ensures Settled(Upto(s, j), s, j) || j == |s|
  {
    j := i;
    ReadsAt(s, i);
    while j < |s|
      invariant i <= j <= |s| && Upto(s, j).mode.LineComment? && Skips(s, i, j)
    {
      OneMore(s, j);
      j := j + 1;
      if s[j - 1] == '\n' { return; }
    }
  }

  /** The reader stands inside a comment of this nesting, and the next character does not
      join the one before. */
  predicate InComment(m: Mode, nesting: nat, s: string, j: nat)
    requires j <= |s|
  {
    && (m == Comment(nesting) || m == CommentStar(nesting) || m == CommentSlash(nesting))
    && (j < |s| ==> !(m.CommentStar? && s[j] == '/') && !(m.CommentSlash? && s[j] == '*'))
  }

  lemma CommentGoesOn(s: string, i: nat, j: nat, nesting: nat)
    requires i <= j < |s| && Skips(s, i, j) && InComment(Upto(s, j).mode, nesting, s, j)
    requires j + 1 < |s| ==> !(s[j] == '*' && s[j + 1] == '/') && !(s[j] == '/' && s[j + 1] == '*')
    ensures Skips(s, i, j + 1) && InComment(Upto(s, j + 1).mode, nesting, s, j + 1)
  {
    ReadsAt(s, j);
    OneMore(s, j);
    hide Upto;
  }

  lemma CommentNests(s: string, i: nat, j: nat, nesting: nat)
    requires i <= j && j + 1 < |s| && nesting > 0 && Skips(s, i, j) && InComment(Upto(s, j).mode, nesting, s, j)
    requires (s[j] == '*' && s[j + 1] == '/') || (s[j] == '/' && s[j + 1] == '*')
    ensures Skips(s, i, j + 2)
    ensures Upto(s, j + 2).mode
            == if s[j] == '/' then Comment(nesting + 1) else if nesting == 1 then Code else Comment(nesting - 1)
  {
    ReadsAt(s, j);
    OneMore(s, j);
    OneMore(s, j + 1);
    hide Upto;
  }

  /** To the end of a comment and of those nested in it. */
  method SkipComment(s: string, i: nat) returns (j: nat)
    requires i <= |s| && Upto(s, i).mode == Comment(1)
    ensures i <= j <= |s| && Skips(s, i, j)
    ensures Settled(Upto(s, j), s, j) || j == |s|
  {
    j := i;
    ReadsAt(s, i);
    var nesting: nat := 1;
    while nesting > 0 && j < |s|
      invariant i <= j <= |s| && Skips(s, i, j)
      invariant if nesting > 0 then InComment(Upto(s, j).mode, nesting, s, j) else Upto(s, j).mode.Code?
      decreases |s| - j
    {
      if j + 1 < |s| && s[j] == '*' && s[j + 1] == '/' {
        CommentNests(s, i, j, nesting);
        j := j + 2;
        nesting := nesting - 1;
      } else if j + 1 < |s| && s[j] == '/' && s[j + 1] == '*' {
        CommentNests(s, i, j, nesting);
        j := j + 2;
        nesting := nesting + 1;
      } else {
        CommentGoesOn(s, i, j, nesting);
        j := j + 1;
      }
      hide Upto, Skips;
    }
  }

  /** What the splitting loop knows at the head. */
  predicate Noted(s: string, i: nat, begin: nat, content: bool, pieces: seq<(nat, nat)>)
    requires i <= |s|
  {
    && (Settled(Upto(s, i), s, i) || i == |s|)
    && Upto(s, i).pieces == pieces && Upto(s, i).begin == begin && HasContent(Upto(s, i)) == content
  }

  lemma AfterQuote(s: string, i: nat, begin: nat, content: bool, pieces: seq<(nat, nat)>)
    requires i < |s| && Noted(s, i, begin, content, pieces) && s[i] in {'\'', '"'}
    ensures Upto(s, i + 1).mode == Quoted(s[i])
    ensures Upto(s, i + 1).pieces == pieces && Upto(s, i + 1).begin == begin && HasContent(Upto(s, i + 1))
  {
    OneMore(s, i);
    hide Read;
  }

  lemma AfterOpening(s: string, i: nat, begin: nat, content: bool, pieces: seq<(nat, nat)>)
    requires i + 1 < |s| && Noted(s, i, begin, content, pieces)
    requires (s[i] == '-' && s[i + 1] == '-') || (s[i] == '/' && s[i + 1] == '*')
    ensures Upto(s, i + 2).mode == if s[i] == '-' then LineComment else Comment(1)
    ensures Upto(s, i + 2).pieces == pieces && Upto(s, i + 2).begin == begin && HasContent(Upto(s, i + 2)) == content
  {
    OneMore(s, i);
    OneMore(s, i + 1);
    hide Read;
  }

  lemma AfterSemicolon(s: string, i: nat, begin: nat, content: bool, pieces: seq<(nat, nat)>)
    requires i < |s| && Noted(s, i, begin, content, pieces) && s[i] == SEMICOLON
    ensures Noted(s, i + 1, i + 1, false, if content then pieces + [(begin, i)] else pieces)
  {
    ReadsAt(s, i);
    OneMore(s, i);
    hide Read;
  }

  lemma AfterOther(s: string, i: nat, begin: nat, content: bool, pieces: seq<(nat, nat)>)
    requires i < |s| && Noted(s, i, begin, content, pieces) && s[i] !in {'\'', '"', SEMICOLON}
    requires i + 1 < |s| ==> !(s[i] == '-' && s[i + 1] == '-') && !(s[i] == '/' && s[i + 1] == '*')
    ensures Noted(s, i + 1, begin, content || !IsWhite(s[i]), pieces)
  {
    OneMore(s, i);
    hide Read;
  }

  method SplitStatements(s: string) returns (statements: seq<string>)
    ensures statements == Statements(s)
  {
    var i: nat, begin: nat, content := 0, 0, false;
    var pieces: seq<(nat, nat)> := [];
    assert Noted(s, i, begin, content, pieces);
    while i < |s|
      invariant i <= |s| && Noted(s, i, begin, content, pieces)
    {
      var c := s[i];
      if c == '\'' || c == '"' {
        AfterQuote(s, i, begin, content, pieces);
        content := true;
        i := SkipQuoted(s, i + 1, c);
      } else if c == '-' && i + 1 < |s| && s[i + 1] == '-' {
        AfterOpening(s, i, begin, content, pieces);
        i := SkipLine(s, i + 2);
      } else if c == '/' && i + 1 < |s| && s[i + 1] == '*' {
        AfterOpening(s, i, begin, content, pieces);
        i := SkipComment(s, i + 2);
      } else if c == SEMICOLON {
        AfterSemicolon(s, i, begin, content, pieces);
        if content { pieces := pieces + [(begin, i)]; }
        content := false;
        i := i + 1;
        begin := i;
      } else {
        AfterOther(s, i, begin, content, pieces);
        if !IsWhite(c) { content := true; }
        i := i + 1;
      }
      hide Upto, Open;
    }
    assert s[..|s|] == s;
    ReadsAt(s, |s|);
    if content { pieces := pieces + [(begin, |s|)]; }
    statements := Cut(s, pieces);
  }

  // ---------------------------------------------------------------------
  // Reading one text after another.
  // ---------------------------------------------------------------------

  lemma {:induction false} ReadJoins(r: Reader, a: string, b: string)
    ensures Read(r, a + b) == Read(Read(r, a), b)
  {
    if b == [] {
      assert a + b == a;
    } else {
      ReadJoins(r, a, b[..|b| - 1]);
      assert (a + b)[..|a + b| - 1] == a + b[..|b| - 1];
    }
  }

  /** Text without quotes, comments, semicolons and parentheses. */
  predicate Bland(s: string) {
    forall i :: 0 <= i < |s| ==> s[i] !in {'\'', '"', '-', '/', SEMICOLON, '(', ')'}
  }

  lemma {:induction false} BlandIsContent(r: Reader, s: string)
    requires Bland(s) && Open(r.mode) && (r.mode.Slash? ==> s == [] || s[0] != '*')
    ensures var e := Read(r, s);
            && Open(e.mode) && (s != [] ==> e.mode.Code?)
            && e.semicolons == r.semicolons && e.depth == r.depth && e.pieces == r.pieces && e.begin == r.begin
            && (HasContent(e) <==> HasContent(r) || exists i :: 0 <= i < |s| && !IsWhite(s[i]))
  {
    if s != [] {
      var n := |s| - 1;
      BlandIsContent(r, s[..n]);
      var e := Read(r, s[..n]);
      if exists i :: 0 <= i < n && !IsWhite(s[i]) {
        var i :| 0 <= i < n && !IsWhite(s[i]);
        assert !IsWhite(s[..n][i]);
      }
    }
  }

  /** A semicolon between two texts with content makes them two statements. */
  lemma SemicolonsSplit(a: string, b: string)
    requires Bland(a) && Bland(b)
    requires exists i :: 0 <= i < |a| && !IsWhite(a[i])
    requires exists i :: 0 <= i < |b| && !IsWhite(b[i])
    ensures Statements(a + [SEMICOLON] + b) == [Trim(a), Trim(b)]
  {
    var s := a + [SEMICOLON] + b;
    var r := Read(START, a);
    BlandIsContent(START, a);
    assert Upto(a, |a|) == r by { assert a[..|a|] == a; }
    ReadsAt(a, |a|);
    var m := Step(r, SEMICOLON);
    assert Read(START, a + [SEMICOLON]) == m by { assert (a + [SEMICOLON])[..|a|] == a; }
    assert m == Reader(Code, false, |a| + 1, |a| + 1, [(0, |a|)], m.semicolons, m.depth);
    ReadJoins(START, a + [SEMICOLON], b);
    BlandIsContent(m, b);
    var e := Read(m, b);
    assert Upto(s, |s|) == e by { assert s[..|s|] == s; }
    ReadsAt(s, |s|);
    hide Read, IsWhite;
    assert PiecesOf(e) == [(0, |a|), (|a| + 1, |s|)];
    assert s[0..|a|] == a && s[|a| + 1..|s|] == b;
  }

  lemma {:induction false} TextIsRead(r: Reader, x: string)
    requires r.mode == Quoted('\'') && '\'' !in x
    ensures var e := Read(r, x); e == r.(at := e.at)
  {
    if x != [] { TextIsRead(r, x[..|x| - 1]); }
  }

  /** Whatever a text literal holds, semicolons and dashes too, it stays one statement. */
  lemma TextsAreOneStatement(x: string)
    requires '\'' !in x
    ensures |Statements("'" + x + "'")| == 1
  {
    var s := "'" + x + "'";
    var r := Step(START, '\'');
    assert Read(START, "'") == r by { assert "'"[..0] == []; }
    ReadJoins(START, "'", x);
    TextIsRead(r, x);
    assert Read(START, s) == Step(Read(r, x), '\'') by { assert s[..|s| - 1] == "'" + x; }
    hide Read;
  }

  lemma {:induction false} LineIsRead(r: Reader, x: string)
    requires r.mode.LineComment? && '\n' !in x
    ensures var e := Read(r, x); e == r.(at := e.at)
  {
    if x != [] { LineIsRead(r, x[..|x| - 1]); }
  }

  /** What follows two dashes on a line, semicolons and quotes too, is no statement. */
  lemma LineCommentsAreNoStatement(x: string)
    requires '\n' !in x
    ensures Statements("--" + x) == [] && Statements("--" + x + "\n") == []
  {
    var s, r := "--" + x, Step(Step(START, '-'), '-');
    assert Read(START, "--") == r by {
      assert "--"[..1] == "-" && "-"[..0] == [];
      assert Read(START, "-") == Step(START, '-');
    }
    ReadJoins(START, "--", x);
    LineIsRead(r, x);
    assert Read(START, s + "\n") == Step(Read(r, x), '\n') by { assert (s + "\n")[..|s|] == s; }
    hide Read;
  }

  /** The mode, the semicolons and the parentheses do not depend on what came before. */
  predicate Alongside(r: Reader, q: Reader, semicolons: int, depth: int) {
    r.mode == q.mode && r.semicolons == q.semicolons + semicolons && r.depth == q.depth + depth
  }

  lemma {:induction false} ReadAlongside(r: Reader, q: Reader, s: string, semicolons: int, depth: int)
    requires Alongside(r, q, semicolons, depth)
    ensures Alongside(Read(r, s), Read(q, s), semicolons, depth)
  {
    if s != [] {
      var init := s[..|s| - 1];
      ReadAlongside(r, q, init, semicolons, depth);
      StepAlongside(Read(r, init), Read(q, init), s[|s| - 1], semicolons, depth);
      hide Step;
    }
  }

  lemma StepAlongside(r: Reader, q: Reader, c: char, semicolons: int, depth: int)
    requires Alongside(r, q, semicolons, depth)
    ensures Alongside(Step(r, c), Step(q, c), semicolons, depth)
  {
    FlatAlongside(r, q, c, semicolons, depth);
    FlatAlongside(r.(content := true), q.(content := true), c, semicolons, depth);
    hide Flat;
  }

  lemma FlatAlongside(r: Reader, q: Reader, c: char, semicolons: int, depth: int)
    requires Alongside(r, q, semicolons, depth)
    ensures Alongside(Flat(r, c), Flat(q, c), semicolons, depth)
  {
  }

  /** A statement begun with content stays one until a semicolon comes. */
  predicate Begun(r: Reader) {
    if r.semicolons == 0 then r.content && r.pieces == [] else r.pieces != []
  }

  lemma {:induction false} ReadKeepsBegun(r: Reader, s: string)
    requires Begun(r)
    ensures Begun(Read(r, s)) && Read(r, s).semicolons >= r.semicolons
  {
    if s != [] { ReadKeepsBegun(r, s[..|s| - 1]); }
  }

  // ---------------------------------------------------------------------
  // A statement inside a count query.
  // ---------------------------------------------------------------------

  const COUNTING: string := "SELECT count"
  const NAMING: string := "::UBIGINT AS failure_count FROM "
  const OPENING: string := COUNTING + "(" + "*" + ")" + NAMING + "("
  const ALIAS: string := " quality_failures"
  const CLOSING: string := ")" + ALIAS

  function CountText(t: string): string {
    OPENING + t + CLOSING
  }

  /** Closed in itself: no quote, comment or parenthesis is left open, none is closed that
      the text has not opened. */
  predicate Closed(s: string) {
    && (Open(Read(START, s).mode) || Read(START, s).mode.LineComment?)
    && Read(START, s).depth == 0
    && forall i :: 0 <= i <= |s| ==> Upto(s, i).depth >= 0
  }

  /** The count query holds the statement: it is one statement that ends outside comments,
      and the parenthesis before the statement is the one that is closed after it. */
  predicate Held(t: string) {
    var text := CountText(t);
    && |Statements(text)| == 1 && Open(Read(START, text).mode)
    && (forall i :: |OPENING| <= i <= |OPENING| + |t| ==> Upto(text, i).depth >= 1)
    && Read(START, text).depth == 0
  }

  predicate EndsInLineComment(t: string) {
    Read(START, t).mode.LineComment?
  }

  predicate HasSemicolon(t: string) {
    Read(START, t).semicolons > 0
  }

  lemma ReadParenthesis(r: Reader, s: string, c: char)
    requires Open(Read(r, s).mode) && c in {'(', ')'}
    ensures Read(r, s + [c])
            == Read(r, s).(mode := Code, content := true, at := Read(r, s).at + 1,
                           depth := Read(r, s).depth + if c == '(' then 1 else -1)
  {
    assert (s + [c])[..|s|] == s;
  }

  lemma ReadBland(r: Reader, s: string, t: string)
    requires Bland(t) && t != [] && Read(r, s).mode.Code?
    ensures var q, e := Read(r, s), Read(r, s + t);
            && e.mode.Code? && e.semicolons == q.semicolons && e.depth == q.depth && e.pieces == q.pieces
            && (q.content || !IsWhite(t[0]) ==> e.content)
  {
    ReadJoins(r, s, t);
    BlandIsContent(Read(r, s), t);
  }

  lemma OpeningIsBland()
    ensures Bland(COUNTING) && Bland("*") && Bland(NAMING) && !IsWhite(COUNTING[0])
  {
  }

  lemma AfterOpeningText()
    ensures var r := Read(START, OPENING);
            r.mode.Code? && r.content && r.semicolons == 0 && r.pieces == [] && r.depth == 1
  {
    OpeningIsBland();
    assert Read(START, []) == START && [] + COUNTING == COUNTING;
    ReadBland(START, [], COUNTING);
    hide Read, Bland, IsWhite;
    ReadParenthesis(START, COUNTING, '(');
    ReadBland(START, COUNTING + "(", "*");
    ReadParenthesis(START, COUNTING + "(" + "*", ')');
    ReadBland(START, COUNTING + "(" + "*" + ")", NAMING);
    ReadParenthesis(START, COUNTING + "(" + "*" + ")" + NAMING, '(');
  }

  predicate QuotesMark(m: Mode) {
    m.Quoted? ==> m.mark in {'\'', '"'}
  }

  lemma {:induction false} ReadQuotesMark(r: Reader, s: string)
    requires QuotesMark(r.mode)
    ensures QuotesMark(Read(r, s).mode)
  {
    if s != [] { ReadQuotesMark(r, s[..|s| - 1]); }
  }

  /** What is neither a quote nor ends a comment changes nothing inside them. */
  lemma {:induction false} StaysInside(r: Reader, s: string)
    requires QuotesMark(r.mode)
    requires !Open(r.mode) && forall i :: 0 <= i < |s| ==> s[i] !in {'\n', '\'', '"', '*', '/'}
    ensures var e := Read(r, s);
            && QuotesMark(e.mode) && !Open(e.mode) && (e.mode.LineComment? <==> r.mode.LineComment?)
            && e == r.(mode := e.mode, at := e.at)
  {
    if s != [] { StaysInside(r, s[..|s| - 1]); }
  }

  lemma AfterClosing(r: Reader)
    requires QuotesMark(r.mode)
    ensures var e := Read(r, CLOSING);
            && (Open(r.mode) <==> Open(e.mode)) && (r.mode.LineComment? <==> e.mode.LineComment?)
            && (Open(r.mode) ==> HasContent(e))
            && e.depth == (if Open(r.mode) then r.depth - 1 else r.depth)
            && e.semicolons == r.semicolons && e.pieces == r.pieces
  {
    assert Bland(ALIAS) && ALIAS != [];
    assert forall i :: 0 <= i < |CLOSING| ==> CLOSING[i] !in {'\n', '\'', '"', '*', '/'};
    if Open(r.mode) {
      assert Read(r, []) == r && [] + [')'] == ")";
      ReadParenthesis(r, [], ')');
      ReadBland(r, ")", ALIAS);
    } else {
      StaysInside(r, CLOSING);
    }
    hide Read, Bland, IsWhite;
  }

  /** What reading the count query comes to, from reading the statement by itself. */
  lemma CountReads(t: string) returns (q: Reader, e: Reader)
    ensures q == Read(START, t) && e == Read(START, CountText(t))
    ensures (Open(q.mode) <==> Open(e.mode)) && (q.mode.LineComment? <==> e.mode.LineComment?)
    ensures Open(q.mode) ==> HasContent(e)
    ensures e.depth == (if Open(q.mode) then q.depth else q.depth + 1)
    ensures e.semicolons == q.semicolons && (q.semicolons == 0 ==> e.content && e.pieces == [])
    ensures q.semicolons > 0 ==> e.pieces != []
  {
    AfterOpeningText();
    var r0 := Read(START, OPENING);
    ReadJoins(START, OPENING, t);
    ReadJoins(START, OPENING + t, CLOSING);
    var r := Read(r0, t);
    ReadQuotesMark(r0, t);
    q, e := Read(START, t), Read(r, CLOSING);
    ReadAlongside(r0, START, t, 0, 1);
    ReadKeepsBegun(r0, t);
    ReadKeepsBegun(r, CLOSING);
    AfterClosing(r);
    hide Read;
  }

  lemma DepthInside(t: string, i: nat)
    requires i <= |t|
    ensures Upto(CountText(t), |OPENING| + i).depth == Upto(t, i).depth + 1
  {
    assert CountText(t)[..|OPENING| + i] == OPENING + t[..i];
    ReadJoins(START, OPENING, t[..i]);
    AfterOpeningText();
    ReadAlongside(Read(START, OPENING), START, t[..i], 0, 1);
    hide Read;
  }

  /** A count query holds a statement exactly if the statement is closed in itself, does
      not end in a line comment and has no semicolon of its own. */
  lemma HeldIff(t: string)
    ensures Held(t) <==> Closed(t) && !EndsInLineComment(t) && !HasSemicolon(t)
  {
    var q, e := CountReads(t);
    var text := CountText(t);
    assert |text| == |OPENING| + |t| + |CLOSING|;
    hide Read, HasContent, CountText;
    assert |Statements(text)| == |PiecesOf(e)|;
    forall i | 0 <= i <= |t| ensures Upto(text, |OPENING| + i).depth == Upto(t, i).depth + 1 { DepthInside(t, i); }
    if Held(t) {
      assert e.pieces == [];
      forall i | 0 <= i <= |t| ensures Upto(t, i).depth >= 0 {
        assert Upto(text, |OPENING| + i).depth >= 1;
      }
    }
    if Closed(t) && !EndsInLineComment(t) && !HasSemicolon(t) {
      forall i | |OPENING| <= i <= |OPENING| + |t| ensures Upto(text, i).depth >= 1 {
        assert Upto(text, |OPENING| + (i - |OPENING|)).depth == Upto(t, i - |OPENING|).depth + 1;
      }
    }
  }

  /** Of a statement that is closed in itself, a count query that does not hold it is not
      one statement, or leaves its parenthesis open: the engine refuses it. */
  lemma RefusedUnlessHeld(t: string)
    requires Closed(t) && !Held(t)
    ensures |Statements(CountText(t))| != 1 || Read(START, CountText(t)).depth != 0
  {
    HeldIff(t);
    var q, e := CountReads(t);
    assert |Statements(CountText(t))| == |PiecesOf(e)|;
    hide Read, CountText;
  }

  /** A statement that keeps a semicolon at its end is never held. */
  lemma FinalSemicolonIsNotHeld(t: string)
    requires t != [] && t[|t| - 1] == SEMICOLON
    ensures !Held(t)
  {
    HeldIff(t);
    ReadQuotesMark(START, t[..|t| - 1]);
    hide Held, Upto;
  }

  // ---------------------------------------------------------------------
  // The check of a definition when it is stored.
  // ---------------------------------------------------------------------

  /** A coarser reader: it knows quotes and line comments, but no other comments, and
      counts a comment as content. */
  datatype Tally = Tally(mode: Mode, content: bool, count: nat)

  function TallyFlat(r: Tally, c: char): Tally {
    if c == '\'' || c == '"' then Tally(Quoted(c), true, r.count)
    else if c == '-' then Tally(Dash, true, r.count)
    else if c == SEMICOLON then Tally(Code, false, if r.content then r.count + 1 else r.count)
    else Tally(Code, r.content || !IsWhite(c), r.count)
  }

  function TallyStep(r: Tally, c: char): Tally {
    match r.mode
    case Quoted(mark) => if c == mark then r.(mode := Code) else r
    case LineComment => if c == '\n' then r.(mode := Code) else r
    case Dash => if c == '-' then r.(mode := LineComment) else TallyFlat(r, c)
    case _ => TallyFlat(r, c)
  }

  function TallyUp(s: string): Tally {
    if s == [] then Tally(Code, false, 0) else TallyStep(TallyUp(s[..|s| - 1]), s[|s| - 1])
  }

  /** How many statements the text is taken for when it is stored. */
  function StoredStatements(s: string): nat {
    TallyUp(s).count + if TallyUp(s).content then 1 else 0
  }

  lemma {:induction false} TallyOfText(a: string, x: string)
    requires TallyUp(a).mode == Quoted('\'') && '\'' !in x
    ensures TallyUp(a + x) == TallyUp(a)
  {
    if x == [] {
      assert a + x == a;
    } else {
      TallyOfText(a, x[..|x| - 1]);
      assert (a + x)[..|a + x| - 1] == a + x[..|x| - 1];
    }
  }

  lemma {:induction false} TallyOfLine(a: string, x: string)
    requires TallyUp(a).mode.LineComment? && '\n' !in x
    ensures TallyUp(a + x) == TallyUp(a)
  {
    if x == [] {
      assert a + x == a;
    } else {
      TallyOfLine(a, x[..|x| - 1]);
      assert (a + x)[..|a + x| - 1] == a + x[..|x| - 1];
    }
  }

  /** Stored, too, a text literal is one statement whatever it holds, and so is a comment. */
  lemma TextsAndCommentsAreStoredAsOne(x: string)
    ensures '\'' !in x ==> StoredStatements("'" + x + "'") == 1
    ensures '\n' !in x ==> StoredStatements("--" + x) == 1
  {
    assert "'"[..0] == [] && "--"[..1] == "-" && "-"[..0] == [];
    assert TallyUp("'") == Tally(Quoted('\''), true, 0);
    assert TallyUp("-") == Tally(Dash, true, 0);
    assert TallyUp("--") == Tally(LineComment, true, 0);
    if '\'' !in x {
      TallyOfText("'", x);
      assert ("'" + x + "'")[..|x| + 1] == "'" + x;
    }
    if '\n' !in x { TallyOfLine("--", x); }
  }

  lemma {:induction false} TallyOfBland(a: string, b: string)
    requires Bland(b) && TallyUp(a).mode.Code? && !TallyUp(a).content
    ensures TallyUp(a + b) == Tally(Code, exists i :: 0 <= i < |b| && !IsWhite(b[i]), TallyUp(a).count)
  {
    if b == [] {
      assert a + b == a;
    } else {
      var init := b[..|b| - 1];
      TallyOfBland(a, init);
      assert (a + b)[..|a + b| - 1] == a + init;
      assert (exists i :: 0 <= i < |b| && !IsWhite(b[i]))
        <==> !IsWhite(b[|b| - 1]) || exists i :: 0 <= i < |init| && !IsWhite(init[i]) by {
        if i :| 0 <= i < |b| && !IsWhite(b[i]) {
          if i < |init| { assert init[i] == b[i]; }
        }
      }
    }
  }

  /** And semicolons separate what has content. */
  lemma StoredSemicolonsSplit(a: string, b: string)
    requires Bland(a) && Bland(b)
    ensures StoredStatements(a + [SEMICOLON] + b)
            == (if exists i :: 0 <= i < |a| && !IsWhite(a[i]) then 1 else 0)
               + if exists i :: 0 <= i < |b| && !IsWhite(b[i]) then 1 else 0
  {
    TallyOfBland([], a);
    assert [] + a == a;
    assert (a + [SEMICOLON])[..|a|] == a;
    TallyOfBland(a + [SEMICOLON], b);
  }

  // ---------------------------------------------------------------------
  // Two stored statements that no count query holds.
  // ---------------------------------------------------------------------

  const ENDED_TWICE: string := "SELECT 1; ;"
  const COMMENTED: string := "SELECT 1 -- c"

  lemma {:induction false} BlandTally(s: string)
    requires Bland(s) && s != [] && !IsWhite(s[0])
    ensures TallyUp(s) == Tally(Code, true, 0)
  {
    if |s| == 1 {
      assert s[..0] == [];
    } else {
      BlandTally(s[..|s| - 1]);
    }
  }

  lemma ReadMore(s: string, c: char)
    ensures Read(START, s + [c]) == Step(Read(START, s), c)
    ensures TallyUp(s + [c]) == TallyStep(TallyUp(s), c)
  {
    assert (s + [c])[..|s|] == s;
  }

  lemma AfterSelect(s: string)
    requires s == "SELECT 1"
    ensures TallyUp(s) == Tally(Code, true, 0)
    ensures var r := Read(START, s); r.mode.Code? && r.content && r.semicolons == 0 && r.depth == 0 && r.pieces == []
  {
    assert Bland(s) && s[0] == 'S' && !IsWhite('S');
    BlandTally(s);
    assert Read(START, []) == START && [] + s == s;
    ReadBland(START, [], s);
    hide Read;
  }

  lemma CommentedReads()
    ensures Read(START, COMMENTED).mode.LineComment? && StoredStatements(COMMENTED) == 1
  {
    var s: string := "SELECT 1";
    AfterSelect(s);
    hide Read, TallyUp;
    ReadMore(s, ' ');
    ReadMore(s + [' '], '-');
    ReadMore(s + [' '] + ['-'], '-');
    ReadMore(s + [' '] + ['-'] + ['-'], ' ');
    ReadMore(s + [' '] + ['-'] + ['-'] + [' '], 'c');
    assert s + [' '] + ['-'] + ['-'] + [' '] + ['c'] == COMMENTED;
  }

  lemma {:induction false} DepthOfBland(s: string, i: nat)
    requires i <= |s| && forall j :: 0 <= j < |s| ==> s[j] !in {'(', ')'}
    ensures Upto(s, i).depth == 0
  {
    if i > 0 {
      DepthOfBland(s, i - 1);
      OneMore(s, i - 1);
    }
  }
}
