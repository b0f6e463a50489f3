/** Newline framing over a pipe, with a buffer carried from frame to frame. */
module Framing {
  import opened Basics

  const MAX_BRIDGE_MESSAGE_BYTES: nat := 1024 * 1024
  const NEWLINE: byte := 10
  const RETURN: byte := 13

  // ---------------------------------------------------------------------
  // What a connection serves, as a function of its bytes alone.
  // ---------------------------------------------------------------------

  datatype End = Closed | TooLarge | Stopped

  datatype Served = Served(frames: seq<seq<byte>>, end: End)

  predicate NoNewline(s: seq<byte>) {
    forall i :: 0 <= i < |s| ==> s[i] != NEWLINE
  }

  /** Position of the first newline, or the length if there is none. */
  function LineLength(s: seq<byte>): (n: nat)
    ensures n <= |s| && NoNewline(s[..n]) && (n < |s| ==> s[n] == NEWLINE)
  {
    if s == [] || s[0] == NEWLINE then 0
    else
      var n := LineLength(s[1..]);
      assert forall i :: 0 < i < n + 1 ==> s[i] == s[1..][i - 1];
      n + 1
  }

  /** Drops line ends at the end of a frame. */
  function TrimEnd(s: seq<byte>): seq<byte> {
    if s != [] && (s[|s| - 1] == NEWLINE || s[|s| - 1] == RETURN) then TrimEnd(s[..|s| - 1]) else s
  }

  function Serve(input: seq<byte>): Served
    decreases |input|
  {
    var n := LineLength(input);
    if n < |input| && n < MAX_BRIDGE_MESSAGE_BYTES then
      var rest := Serve(input[n + 1..]);
      Served([TrimEnd(input[..n + 1])] + rest.frames, rest.end)
    else Served([], if |input| > MAX_BRIDGE_MESSAGE_BYTES then TooLarge else Closed)
  }

  // ---------------------------------------------------------------------
  // The reader.
  // ---------------------------------------------------------------------

  /** What one look at the pipe finds: a request to stop, nothing yet, or at least
      one readable byte. */
  datatype Tick = StopNow | Idle | Ready(available: nat)

  datatype Read = Frame(bytes: seq<byte>) | Overlong | Ended | Halted

  class Reader {
    /** Bytes read but not yet delivered. */
    var pending: seq<byte>
    /** Bytes the peer has sent, or is going to send, before it closes. */
    var unread: seq<byte>
    /** How the unread bytes become available. */
    var ticks: seq<Tick>

    constructor (input: seq<byte>, ticks: seq<Tick>)
      ensures pending == [] && unread == input && this.ticks == ticks
    {
      pending, unread, this.ticks := [], input, ticks;
    }

    ghost predicate Bounded()
      reads this
    {
      |pending| <= MAX_BRIDGE_MESSAGE_BYTES + 1
    }

    function Ahead(): seq<byte>
      reads this
    {
      pending + unread
    }

    method TakeChunk(available: nat)
      requires |pending| <= MAX_BRIDGE_MESSAGE_BYTES && unread != []
      modifies this`pending, this`unread
      ensures Bounded() && Ahead() == old(Ahead())
      ensures available > 0 ==> |pending| > |old(pending)|
    {
      var remaining := MAX_BRIDGE_MESSAGE_BYTES + 1 - |pending|;
      var asked := if available < remaining then available else remaining;
      var read := if asked < |unread| then asked else |unread|;
      pending := pending + unread[..read];
      unread := unread[read..];
    }

    method ReadFrame() returns (read: Read)
      requires Bounded()
      modifies this
      ensures Bounded()
      ensures read.Frame? ==>
                old(Ahead()) == read.bytes + Ahead()
                && |read.bytes| == LineLength(old(Ahead())) + 1 <= MAX_BRIDGE_MESSAGE_BYTES + 1
      ensures read.Overlong? ==>
                |old(Ahead())| > MAX_BRIDGE_MESSAGE_BYTES && LineLength(old(Ahead())) > MAX_BRIDGE_MESSAGE_BYTES
      ensures read.Ended? ==>
                |old(Ahead())| <= MAX_BRIDGE_MESSAGE_BYTES && LineLength(old(Ahead())) == |old(Ahead())|
      ensures !read.Frame? ==> Ahead() == old(Ahead())
    {
      while true
        invariant Bounded() && Ahead() == old(Ahead())
        decreases |ticks|
      {
        var end := LineLength(pending);
        LineLengthOfPrefix(pending, unread);
        if end < |pending| {
          read := Frame(pending[..end + 1]);
          pending := pending[end + 1..];
          assert old(Ahead()) == read.bytes + Ahead();
          return;
        }
        if |pending| > MAX_BRIDGE_MESSAGE_BYTES { return Overlong; }
        if ticks == [] || ticks[0].StopNow? { return Halted; }
        var tick := ticks[0];
        ticks := ticks[1..];
        if unread == [] { return Ended; }
        if tick.Ready? { TakeChunk(tick.available); }
      }
    }

    /** Serves frames until the peer closes, a line is too long, or the bridge stops. */
    method HandleConnection() returns (served: Served)
      requires Bounded()
      modifies this
      ensures Bounded()
      ensures !served.end.Stopped? ==> served == Serve(old(Ahead()))
      ensures served.end.Stopped? ==> served.frames <= Serve(old(Ahead())).frames
    {
      hide TrimEnd, LineLength, Serve;
      var frames := [];
      while true
        invariant Bounded()
        invariant Serve(old(Ahead())).frames == frames + Serve(Ahead()).frames
        invariant Serve(old(Ahead())).end == Serve(Ahead()).end
        decreases |Ahead()|
      {
        ghost var whole := Ahead();
        ServeOne(whole);
        var read := ReadFrame();
        match read
        case Frame(bytes) =>
          if |bytes| > MAX_BRIDGE_MESSAGE_BYTES { return Served(frames, TooLarge); }
          assert whole[|bytes|..] == Ahead() && whole[..|bytes|] == bytes;
          frames := frames + [TrimEnd(bytes)];
        case Overlong => return Served(frames, TooLarge);
        case Ended => return Served(frames, Closed);
        case Halted => return Served(frames, Stopped);
      }
    }
  }

  /** What is served starts with the first line, if it is short enough. */
  lemma ServeOne(whole: seq<byte>)
    ensures var n := LineLength(whole);
            Serve(whole)
            == if n < |whole| && n < MAX_BRIDGE_MESSAGE_BYTES
               then var rest := Serve(whole[n + 1..]); Served([TrimEnd(whole[..n + 1])] + rest.frames, rest.end)
               else Served([], if |whole| > MAX_BRIDGE_MESSAGE_BYTES then TooLarge else Closed)
  {
    hide TrimEnd, LineLength;
  }

  // ---------------------------------------------------------------------
  // Lines and their ends.
  // ---------------------------------------------------------------------

  /** A newline found in a prefix is the first of the whole. */
  lemma {:induction false} LineLengthOfPrefix(a: seq<byte>, b: seq<byte>)
    ensures LineLength(a) < |a| ==> LineLength(a + b) == LineLength(a)
    ensures LineLength(a) == |a| ==> LineLength(a + b) == |a| + LineLength(b)
  {
    if a == [] {
      assert a + b == b;
    } else if a[0] != NEWLINE {
      LineLengthOfPrefix(a[1..], b);
      assert (a + b)[1..] == a[1..] + b;
    }
  }

  /** The reader behaves the same for every way in which the same bytes arrive: two
      readers that both get to an end serve the same frames and end alike. */
  method ServedAlike(input: seq<byte>, first: seq<Tick>, second: seq<Tick>) returns (a: Served, b: Served)
    ensures !a.end.Stopped? && !b.end.Stopped? ==> a == b
    ensures !b.end.Stopped? ==> a.frames <= b.frames
  {
    var reader := new Reader(input, first);
    a := reader.HandleConnection();
    var other := new Reader(input, second);
    b := other.HandleConnection();
  }

  // ---------------------------------------------------------------------
  // Round trip: what a client sends line by line is what is served.
  // ---------------------------------------------------------------------

  /** A message that survives framing: no newline inside, no line end at its end,
      and short enough to fit with its line end. */
  predicate Sendable(m: seq<byte>, cr: bool) {
    NoNewline(m) && |m| + (if cr then 2 else 1) <= 1_048_576 && (m != [] ==> m[|m| - 1] != 13)
  }

  /** A message and its line end, with a carriage return or without. */
  function Line(m: seq<byte>, cr: bool): seq<byte> {
    m + if cr then [13, 10] else [10]
  }

  function Lines(messages: seq<seq<byte>>, crs: seq<bool>): seq<byte>
    requires |crs| == |messages|
  {
    if messages == [] then [] else Line(messages[0], crs[0]) + Lines(messages[1..], crs[1..])
  }

  lemma LineLengthOfLine(m: seq<byte>, rest: seq<byte>)
    requires NoNewline(m)
    ensures LineLength(m + [NEWLINE] + rest) == |m|
  {
    var line := m + [NEWLINE];
    LineLengthOfPrefix(line, rest);
    LineLengthOfPrefix(m, [NEWLINE]);
    assert LineLength([NEWLINE]) == 0;
  }

  lemma LineIsServed(m: seq<byte>, cr: bool, rest: seq<byte>)
    requires Sendable(m, cr)
    ensures var input := Line(m, cr) + rest;
            && LineLength(input) < |input| && LineLength(input) < MAX_BRIDGE_MESSAGE_BYTES
            && TrimEnd(input[..LineLength(input) + 1]) == m && input[LineLength(input) + 1..] == rest
  {
    var line := if cr then m + [RETURN] else m;
    assert Line(m, cr) + rest == line + [NEWLINE] + rest;
    LineLengthOfLine(line, rest);
    var input := Line(m, cr) + rest;
    assert input[..|line| + 1] == line + [NEWLINE] && input[|line| + 1..] == rest;
    assert LineLength(input) == |line|;
    assert TrimEnd(line + [NEWLINE]) == TrimEnd(line) by { assert (line + [NEWLINE])[..|line|] == line; }
    assert TrimEnd(line) == TrimEnd(m) by { if cr { assert line[..|m|] == m; } }
    assert TrimEnd(m) == m;
    hide LineLength, TrimEnd;
  }

  lemma {:induction false} SentIsServed(messages: seq<seq<byte>>, crs: seq<bool>)
    requires |crs| == |messages| && forall i :: 0 <= i < |messages| ==> Sendable(messages[i], crs[i])
    ensures Serve(Lines(messages, crs)) == Served(messages, Closed)
  {
    if messages != [] {
      LineIsServed(messages[0], crs[0], Lines(messages[1..], crs[1..]));
      SentIsServed(messages[1..], crs[1..]);
      assert messages == [messages[0]] + messages[1..];
      hide TrimEnd, LineLength, Line, Serve;
      ServeOne(Lines(messages, crs));
    }
  }

  // ---------------------------------------------------------------------
  // Exactly when a connection fails.
  // ---------------------------------------------------------------------

  predicate LineStart(input: seq<byte>, k: nat) {
    k <= |input| && (k == 0 || input[k - 1] == 10)
  }

  /** A line starts at `k` and has no newline in its first mebibyte, though more follows. */
  predicate OverlongAt(input: seq<byte>, k: nat) {
    LineStart(input, k) && |input| - k > 1_048_576 && NoNewline(input[k..k + 1_048_576])
  }

  lemma OverlongAfterLine(input: seq<byte>, n: nat, k: nat)
    requires n < |input| && input[n] == NEWLINE
    ensures OverlongAt(input[n + 1..], k) <==> OverlongAt(input, k + n + 1)
  {
    var rest := input[n + 1..];
    if k <= |rest| && |rest| - k > MAX_BRIDGE_MESSAGE_BYTES {
      assert input[k + n + 1..k + n + 1 + MAX_BRIDGE_MESSAGE_BYTES] == rest[k..k + MAX_BRIDGE_MESSAGE_BYTES];
    }
  }

  lemma OverlongLineIsLater(input: seq<byte>, k: nat)
    requires LineLength(input) < |input| && LineLength(input) < MAX_BRIDGE_MESSAGE_BYTES && OverlongAt(input, k)
    ensures k > LineLength(input)
  {
    hide LineLength;
    var window := input[k..k + MAX_BRIDGE_MESSAGE_BYTES];
    assert forall i :: k <= i < k + MAX_BRIDGE_MESSAGE_BYTES ==> input[i] == window[i - k] != NEWLINE;
  }

  lemma {:induction false} FailsExactlyOnOverlongLines(input: seq<byte>)
    ensures Serve(input).end == TooLarge <==> exists k: nat :: OverlongAt(input, k)
    ensures Serve(input).end == TooLarge || Serve(input).end == Closed
    decreases |input|
  {
    hide OverlongAt;
    var n := LineLength(input);
    if n < |input| && n < MAX_BRIDGE_MESSAGE_BYTES {
      var rest := input[n + 1..];
      FailsExactlyOnOverlongLines(rest);
      if k: nat :| OverlongAt(rest, k) {
        OverlongAfterLine(input, n, k);
      }
      if k: nat :| OverlongAt(input, k) {
        OverlongLineIsLater(input, k);
        OverlongAfterLine(input, n, k - n - 1);
      }
    } else {
      FirstLineOverlong(input);
    }
  }

  lemma FirstLineOverlong(input: seq<byte>)
    requires LineLength(input) == |input| || LineLength(input) >= MAX_BRIDGE_MESSAGE_BYTES
    ensures |input| > MAX_BRIDGE_MESSAGE_BYTES <==> exists k: nat :: OverlongAt(input, k)
  {
    hide LineLength;
    var n := LineLength(input);
    if |input| > MAX_BRIDGE_MESSAGE_BYTES {
      assert forall i :: 0 <= i < MAX_BRIDGE_MESSAGE_BYTES ==> input[..n][i] == input[i];
      assert OverlongAt(input, 0);
    }
  }
}
