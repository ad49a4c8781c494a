/**
 The incremental request parser. `Pass` is one turn of ParseRequest's loop over
 the parser's state and the unread bytes. The loop leaves only through two of its
 branches, so it may never end: `EndsExactly` says for which inputs it does.
 */
module HttpContexts {
  import opened Buffers
  import opened HttpRequests
  import opened Prelude

  datatype State = ExpectRequestLine | ExpectHeaders | ExpectBody | Done

  /** The length of the first line: up to its CRLF, or up to the end if there is none. */
  function LineEnd(s: string): (end: nat)
    ensures end <= |s| && (end < |s| ==> end + 2 <= |s|)
  {
    if |s| < 2 then |s|
    else if s[..2] == CRLF then 0
    else 1 + LineEnd(s[1..])
  }

  predicate HasLine(s: string) {
    LineEnd(s) < |s|
  }

  predicate CrlfFree(s: string) {
    forall k :: 0 <= k < |s| ==> !CrlfAt(s, k)
  }

  lemma {:induction false} LineEndIsFirstCrlf(s: string)
    ensures IsFirstCrlf(s, 0, if HasLine(s) then Some(LineEnd(s)) else None)
    decreases s
  {
    if |s| >= 2 && s[..2] != CRLF {
      LineEndIsFirstCrlf(s[1..]);
      forall k | 1 <= k && CrlfAt(s, k) ensures CrlfAt(s[1..], k - 1) {
        assert s[k..k + 2] == s[1..][k - 1..k + 1];
      }
    }
  }

  lemma FirstCrlfIsLineEnd(s: string, r: Option<nat>)
    requires IsFirstCrlf(s, 0, r)
    ensures r == if HasLine(s) then Some(LineEnd(s)) else None
  {
    LineEndIsFirstCrlf(s);
  }

  /** A line without CRLF, even one that ends in CR, ends at the CRLF that follows it. */
  lemma FirstLine(line: string, rest: string)
    requires CrlfFree(line)
    ensures LineEnd(line + CRLF + rest) == |line|
  {
    var s := line + CRLF + rest;
    assert s[|line|..|line| + 2] == CRLF;
    forall k | 0 <= k < |line| ensures !CrlfAt(s, k) {
      if k + 2 <= |line| {
        assert s[k..k + 2] == line[k..k + 2];
        assert !CrlfAt(line, k);
      } else {
        assert s[k..k + 2][1] == '\r';
      }
    }
    FirstCrlfIsLineEnd(s, Some(|line|));
  }

  // ---------------------------------------------------------------------------
  // The request line

  const VERSION_PREFIX: string := "HTTP/1."

  /** The test of the version: eight characters that `strncmp` tells apart from the prefix. */
  predicate VersionTaken(v: string) {
    |v| == 8 && v != VERSION_PREFIX + ['\0']
  }

  function VersionOf(v: string): Version
    requires |v| == 8
  {
    if v[7] == '1' then Http11 else if v[7] == '0' then Http10 else Unknown
  }

  /** The request after a request line has been read as far as it goes. */
  function AfterLine(r: Request, line: string): Request {
    var space := Find(line, ' ');
    if space == |line| then r else
    var named := r.(method_ := MethodOf(line[..space]));
    var rest := line[space + 1..];
    var space2 := Find(rest, ' ');
    if named.method_.Invalid? || space2 == |rest| then named else
    var question := Find(rest[..space2], '?');
    var located := named.(path := rest[..question], query := rest[question..space2]);
    var v := rest[space2 + 1..];
    if VersionTaken(v) then located.(version := VersionOf(v)) else located
  }

  predicate Accepts(line: string) {
    var space := Find(line, ' ');
    && space < |line| && !MethodOf(line[..space]).Invalid?
    && var rest := line[space + 1..];
       var space2 := Find(rest, ' ');
       space2 < |rest| && VersionTaken(rest[space2 + 1..]) && !VersionOf(rest[space2 + 1..]).Unknown?
  }

  /** `line` is a known method, a target without spaces and eight characters ending in 1 or 0. */
  predicate IsRequestLine(line: string, name: string, target: string, v: string) {
    && line == name + " " + target + " " + v
    && !MethodOf(name).Invalid? && ' ' !in name && ' ' !in target
    && |v| == 8 && (v[7] == '1' || v[7] == '0')
  }

  /** `line` has at least two spaces: before the first, up to the second, and all the rest. */
  predicate HasParts(line: string, name: string, target: string, v: string) {
    line == name + " " + target + " " + v && ' ' !in name && ' ' !in target
  }

  lemma PartsFound(line: string, name: string, target: string, v: string)
    requires HasParts(line, name, target, v)
    ensures Find(line, ' ') == |name| < |line| && line[..|name|] == name
    ensures var rest := line[|name| + 1..];
            Find(rest, ' ') == |target| < |rest| && rest[..|target|] == target && rest[|target| + 1..] == v
  {
    assert line == name + [' '] + (target + " " + v);
    FindFirst(name, ' ', target + " " + v);
    assert line[|name| + 1..] == target + [' '] + v;
    FindFirst(target, ' ', v);
  }

  /**
   What a line with two spaces leaves in the request, accepted or not. An unknown
   method leaves the rest alone; a version of the wrong length leaves the version.
   */
  lemma LineLeaves(r: Request, line: string, name: string, target: string, v: string)
    requires HasParts(line, name, target, v)
    ensures var read := AfterLine(r, line);
            && read.method_ == MethodOf(name) && read.headers == r.headers
            && (MethodOf(name).Invalid? ==> read.path == r.path && read.query == r.query && read.version == r.version)
            && (!MethodOf(name).Invalid? ==>
                  && read.path + read.query == target && '?' !in read.path
                  && (read.query != "" ==> read.query[0] == '?')
                  && read.version == if |v| != 8 || v == "HTTP/1." + ['\0'] then r.version
                                     else if v[7] == '1' then Http11 else if v[7] == '0' then Http10 else Unknown)
    ensures Accepts(line) <==> !MethodOf(name).Invalid? && |v| == 8 && (v[7] == '1' || v[7] == '0')
  {
    PartsFound(line, name, target, v);
    hide MethodOf, Known, Find;
    var rest := line[|name| + 1..];
    var question := Find(target, '?');
    assert rest[..question] == target[..question] && rest[question..|target|] == target[question..];
    assert (VERSION_PREFIX + ['\0'])[7] == '\0';
  }

  /** One with fewer spaces sets the method at most, and is rejected. */
  lemma ShortLineLeaves(r: Request, line: string, name: string, rest: string)
    requires ' ' !in name && ' ' !in rest && (line == name || line == name + " " + rest)
    ensures !Accepts(line)
    ensures AfterLine(r, line) == if line == name then r else r.(method_ := MethodOf(name))
  {
    hide MethodOf, Known;
    if line == name {
      NotFound(line, ' ');
    } else {
      assert line == name + [' '] + rest;
      FindFirst(name, ' ', rest);
      assert line[..|name|] == name && line[|name| + 1..] == rest;
      NotFound(rest, ' ');
    }
  }

  /** What an accepted line means for the request. */
  lemma RequestLineMeaning(r: Request, line: string, name: string, target: string, v: string)
    requires IsRequestLine(line, name, target, v)
    ensures Accepts(line)
    ensures var read := AfterLine(r, line);
            && read.path + read.query == target && '?' !in read.path
            && (read.query != "" ==> read.query[0] == '?')
            && read.method_ == MethodOf(name) && read.version == (if v[7] == '1' then Http11 else Http10)
            && read.headers == r.headers
  {
    hide AfterLine, Accepts, MethodOf;
    LineLeaves(r, line, name, target, v);
    assert ("HTTP/1." + ['\0'])[7] == '\0';
  }

  lemma SplitAt(s: string, i: nat)
    requires i < |s|
    ensures s == s[..i] + [s[i]] + s[i + 1..]
  {}

  lemma AcceptedIsRequestLine(line: string) returns (name: string, target: string, v: string)
    requires Accepts(line)
    ensures IsRequestLine(line, name, target, v)
  {
    hide MethodOf, Known, Find;
    var space := Find(line, ' ');
    var rest := line[space + 1..];
    var space2 := Find(rest, ' ');
    name, target, v := line[..space], rest[..space2], rest[space2 + 1..];
    SplitAt(line, space);
    SplitAt(rest, space2);
    assert name + " " + (target + " " + v) == name + " " + target + " " + v;
  }

  /** The accepted request lines are exactly these, whatever the first seven characters of the version. */
  lemma AcceptsExactly(line: string)
    ensures Accepts(line) <==> exists name, target, v :: IsRequestLine(line, name, target, v)
  {
    hide AfterLine;
    if Accepts(line) {
      hide Accepts, IsRequestLine;
      var name, target, v := AcceptedIsRequestLine(line);
    }
    if name, target, v :| IsRequestLine(line, name, target, v) {
      hide Accepts, IsRequestLine;
      RequestLineMeaning(Request(Invalid, Unknown, "", "", map[]), line, name, target, v);
    }
  }

  /** So a line that names no version of HTTP passes for version 1.1. */
  lemma PrefixIsNotChecked(r: Request)
    ensures Accepts("GET / SPDY/3.1") && AfterLine(r, "GET / SPDY/3.1").version == Http11
  {
    hide AfterLine, Accepts;
    assert "GET / SPDY/3.1" == "GET" + " " + "/" + " " + "SPDY/3.1";
    RequestLineMeaning(r, "GET / SPDY/3.1", "GET", "/", "SPDY/3.1");
  }

  // ---------------------------------------------------------------------------
  // The loop

  /** The parser's variables at the top of a turn; `stopped` is `flag_end`. */
  datatype Cursor = Cursor(state: State, request: Request, unread: string, ok: bool, stopped: bool)

  function Pass(c: Cursor): Cursor {
    var end := LineEnd(c.unread);
    if c.state.ExpectRequestLine? then
      if !HasLine(c.unread) then c.(stopped := true)
      else
        var line := c.unread[..end];
        var read := c.(request := AfterLine(c.request, line), ok := Accepts(line));
        if Accepts(line) then read.(unread := c.unread[end + 2..], state := ExpectHeaders) else read.(stopped := true)
    else if c.state.ExpectHeaders? && HasLine(c.unread) then
      var line := c.unread[..end];
      if ':' in line then c.(request := WithHeader(c.request, line), unread := c.unread[end + 2..])
      else c.(unread := c.unread[end + 2..], state := Done, stopped := true)
    else c
  }

  /** The loop, cut off after `n` turns. */
  function Passes(c: Cursor, n: nat): Cursor
    decreases n
  {
    if n == 0 || c.stopped then c else Passes(Pass(c), n - 1)
  }

  /** A CRLF line without a colon comes, after any number of CRLF lines with one. */
  predicate HeadersEnd(s: string) {
    HasLine(s) && (':' in s[..LineEnd(s)] ==> HeadersEnd(s[LineEnd(s) + 2..]))
  }

  predicate Ends(c: Cursor) {
    c.stopped || match c.state
                 case ExpectRequestLine =>
                   var end := LineEnd(c.unread);
                   HasLine(c.unread) && Accepts(c.unread[..end]) ==> HeadersEnd(c.unread[end + 2..])
                 case ExpectHeaders => HeadersEnd(c.unread)
                 case _ => false
  }

  lemma PassKeepsEnding(c: Cursor)
    requires !c.stopped
    ensures Ends(c) <==> Ends(Pass(c))
  {}

  /** The state in which the loop ends. */
  function Finish(c: Cursor): Cursor
    requires Ends(c)
    decreases |c.unread|, !c.stopped
  {
    if c.stopped then c
    else
      PassKeepsEnding(c);
      Finish(Pass(c))
  }

  lemma {:induction false} StoppedMeansEnds(c: Cursor, n: nat)
    requires Passes(c, n).stopped
    ensures Ends(c) && Finish(c) == Passes(c, n)
    decreases n
  {
    if !c.stopped {
      StoppedMeansEnds(Pass(c), n - 1);
      PassKeepsEnding(c);
    }
  }

  lemma {:induction false} EndsMeansStopped(c: Cursor) returns (n: nat)
    requires Ends(c)
    ensures Passes(c, n).stopped
    decreases |c.unread|, !c.stopped
  {
    if c.stopped {
      n := 0;
    } else {
      PassKeepsEnding(c);
      var rest := EndsMeansStopped(Pass(c));
      n := rest + 1;
    }
  }

  /**
   ParseRequest returns if and only if the bytes hold no complete request line, or
   one that is rejected, or a header block with its end; never in its last two states.
   */
  lemma EndsExactly(c: Cursor)
    ensures Ends(c) <==> exists n: nat :: Passes(c, n).stopped
  {
    if Ends(c) {
      var n := EndsMeansStopped(c);
    }
    if n: nat :| Passes(c, n).stopped {
      StoppedMeansEnds(c, n);
    }
  }

  /** A header line whose end has not arrived keeps the loop turning for ever. */
  lemma IncompleteHeaderNeverEnds(r: Request)
    ensures forall n: nat :: !Passes(Cursor(ExpectHeaders, r, "Host: x", true, false), n).stopped
  {
    var c := Cursor(ExpectHeaders, r, "Host: x", true, false);
    NoLineWithoutCr(c.unread);
    EndsExactly(c);
  }

  lemma {:induction false} NoLineWithoutCr(s: string)
    requires '\r' !in s
    ensures !HasLine(s)
    decreases s
  {
    if |s| >= 2 {
      assert s[..2][0] == s[0];
      NoLineWithoutCr(s[1..]);
    }
  }

  /** So does a call after the message has been read. */
  lemma DoneNeverEnds(c: Cursor)
    requires (c.state.Done? || c.state.ExpectBody?) && !c.stopped
    ensures forall n: nat :: !Passes(c, n).stopped
  {
    EndsExactly(c);
  }

  /** A complete line that is no request line is refused: the result is false and nothing is consumed. */
  lemma RequestRefused(c: Cursor, line: string, rest: string)
    requires c.state.ExpectRequestLine? && !c.stopped && c.unread == line + CRLF + rest && CrlfFree(line)
    requires !exists name, target, v :: IsRequestLine(line, name, target, v)
    ensures Ends(c)
    ensures Finish(c) == Cursor(ExpectRequestLine, AfterLine(c.request, line), c.unread, false, true)
  {
    AcceptsExactly(line);
    FirstLine(line, rest);
    assert c.unread[..|line|] == line;
    hide AfterLine, Accepts, IsRequestLine, LineEnd;
  }

  /** Without a complete line the parser waits for more: nothing changes, and the result stays what it was. */
  lemma LineAwaited(c: Cursor)
    requires c.state.ExpectRequestLine? && !c.stopped && CrlfFree(c.unread)
    ensures Ends(c) && Finish(c) == c.(stopped := true)
  {
    LineEndIsFirstCrlf(c.unread);
    hide AfterLine, Accepts, LineEnd;
    assert HasLine(c.unread) ==> CrlfAt(c.unread, LineEnd(c.unread));
  }

  // ---------------------------------------------------------------------------
  // Framing

  function Lines(lines: seq<string>): string {
    if lines == [] then "" else lines[0] + CRLF + Lines(lines[1..])
  }

  predicate IsHeaderLine(line: string) {
    CrlfFree(line) && ':' in line
  }

  predicate AreHeaderLines(lines: seq<string>) {
    forall i :: 0 <= i < |lines| ==> IsHeaderLine(lines[i])
  }

  function WithHeaders(r: Request, lines: seq<string>): Request
    requires AreHeaderLines(lines)
    decreases lines
  {
    if lines == [] then r
    else
      assert IsHeaderLine(lines[0]);
      WithHeaders(WithHeader(r, lines[0]), lines[1..])
  }

  lemma LineTurn(c: Cursor, line: string, rest: string)
    requires CrlfFree(line) && c.unread == line + CRLF + rest
    ensures HasLine(c.unread) && c.unread[..LineEnd(c.unread)] == line && c.unread[LineEnd(c.unread) + 2..] == rest
  {
    FirstLine(line, rest);
  }

  /** A header block: the lines with a colon are added in order, the first without one ends it. */
  lemma {:induction false} HeadersFramed(c: Cursor, lines: seq<string>, last: string, rest: string)
    requires AreHeaderLines(lines) && CrlfFree(last) && ':' !in last
    requires c.state.ExpectHeaders? && !c.stopped && c.unread == Lines(lines) + last + CRLF + rest
    ensures Ends(c) && Finish(c) == Cursor(Done, WithHeaders(c.request, lines), rest, c.ok, true)
    decreases lines
  {
    if lines == [] {
      assert c.unread == last + CRLF + rest;
      LineTurn(c, last, rest);
    } else {
      assert IsHeaderLine(lines[0]);
      var tail := Lines(lines[1..]) + last + CRLF + rest;
      assert c.unread == lines[0] + CRLF + tail;
      LineTurn(c, lines[0], tail);
      HeadersFramed(Pass(c), lines[1..], last, rest);
    }
  }

  /** A whole message: its headers are folded in, and not a byte after its end is touched. */
  lemma MessageFramed(r: Request, line: string, lines: seq<string>, last: string, rest: string)
    requires CrlfFree(line) && Accepts(line) && AreHeaderLines(lines) && CrlfFree(last) && ':' !in last
    ensures var c := Cursor(ExpectRequestLine, r, line + CRLF + (Lines(lines) + last + CRLF + rest), true, false);
            Ends(c) && Finish(c) == Cursor(Done, WithHeaders(AfterLine(r, line), lines), rest, true, true)
  {
    var block := Lines(lines) + last + CRLF + rest;
    var c := Cursor(ExpectRequestLine, r, line + CRLF + block, true, false);
    LineTurn(c, line, block);
    HeadersFramed(Pass(c), lines, last, rest);
  }

  /** Conversely every block the loop can leave has that form. */
  lemma {:induction false} HeadersDecompose(s: string) returns (lines: seq<string>, last: string, rest: string)
    requires HeadersEnd(s)
    ensures AreHeaderLines(lines) && CrlfFree(last) && ':' !in last && s == Lines(lines) + last + CRLF + rest
    decreases s
  {
    var line, tail := FirstLineOf(s);
    if ':' in line {
      lines, last, rest := HeadersDecompose(tail);
      assert s == line + CRLF + Lines(lines) + last + CRLF + rest;
      lines := [line] + lines;
    } else {
      lines, last, rest := [], line, tail;
      assert s == "" + last + CRLF + rest;
    }
  }

  lemma FirstLineOf(s: string) returns (line: string, tail: string)
    requires HasLine(s)
    ensures line == s[..LineEnd(s)] && tail == s[LineEnd(s) + 2..] && CrlfFree(line) && s == line + CRLF + tail
  {
    var end := LineEnd(s);
    line, tail := s[..end], s[end + 2..];
    LineEndIsFirstCrlf(s);
    forall k ensures !CrlfAt(line, k) {
      if 0 <= k && k + 2 <= end {
        assert !CrlfAt(s, k) && s[k..k + 2] == line[k..k + 2];
      }
    }
    assert s == line + s[end..end + 2] + tail;
  }

  // ---------------------------------------------------------------------------
  // The parser object

  class HttpContext {
    var state: State
    const request: HttpRequest

    constructor ()
      ensures state == ExpectRequestLine && fresh(request)
      ensures request.Value() == Request(Invalid, Unknown, "", "", map[])
    {
      state := ExpectRequestLine;
      request := new HttpRequest();
    }

    /**
     A rejected line still leaves behind what was read of it. The source compares the
     '?' with the end of the line, so a target without one gets an empty query.
     */
    method ParseRequestLine(line: string) returns (succeed: bool)
      modifies request
      ensures succeed == Accepts(line) && request.Value() == AfterLine(old(request.Value()), line)
    {
      hide MethodOf, Known;
      succeed := false;
      var space := Find(line, ' ');
      if space != |line| {
        var known := request.SetMethod(line[..space]);
        if known {
          var rest := line[space + 1..];
          space := Find(rest, ' ');
          if space != |rest| {
            var question := Find(rest[..space], '?');
            assert rest[..space][..question] == rest[..question];
            request.SetPath(rest[..question]);
            request.SetQuery(rest[question..space]);
            succeed := ParseVersion(rest[space + 1..]);
          }
        }
      }
    }

    method ParseVersion(v: string) returns (succeed: bool)
      modifies request`version
      ensures succeed <==> VersionTaken(v) && !VersionOf(v).Unknown?
      ensures request.version == if VersionTaken(v) then VersionOf(v) else old(request.version)
    {
      succeed := |v| == 8 && v != VERSION_PREFIX + ['\0'];
      if succeed {
        var ch := v[7];
        if ch == '1' {
          request.SetVersion(Http11);
        } else if ch == '0' {
          request.SetVersion(Http10);
        } else {
          request.SetVersion(Unknown);
          succeed := false;
        }
      }
    }

    ghost function At(buf: Buffer, ok: bool, stopped: bool): Cursor
      requires buf.Valid()
      reads this, request, buf, buf.data
    {
      Cursor(state, request.Value(), buf.Payload(), ok, stopped)
    }

    /** What `findCRLF` finds is the end of the first line. */
    method NextLine(buf: Buffer) returns (crlf: Option<nat>, line: string)
      requires buf.Valid()
      ensures crlf.Some? <==> HasLine(buf.Payload())
      ensures crlf.Some? ==> crlf.value == buf.readIndex + LineEnd(buf.Payload()) && crlf.value + 2 <= buf.writeIndex
                             && line == buf.Payload()[..LineEnd(buf.Payload())]
    {
      crlf := buf.FindCrlf();
      line := "";
      FirstCrlfIsLineEnd(buf.Payload(), if crlf.Some? then Some(crlf.value - buf.readIndex) else None);
      if crlf.Some? {
        line := buf.data[buf.readIndex..crlf.value];
      }
    }

    /** The `ExpectRequestLine` case. */
    method RequestLineTurn(buf: Buffer) returns (ok: bool, stopped: bool)
      requires buf.Valid() && state.ExpectRequestLine?
      modifies this`state, request, buf`readIndex
      ensures buf.Valid() && At(buf, ok, stopped) == Pass(old(At(buf, true, false)))
    {
      ok, stopped := true, false;
      var crlf, line := NextLine(buf);
      if crlf.Some? {
        ok := ParseRequestLine(line);
        if ok {
          buf.MoveReadIndexUntil(crlf.value + 2);
          state := ExpectHeaders;
        } else {
          stopped := true;
        }
      } else {
        stopped := true;
      }
    }

    /** The `ExpectHeaders` case; without a complete line it changes nothing. */
    method HeaderTurn(buf: Buffer, ok: bool) returns (stopped: bool)
      requires buf.Valid() && state.ExpectHeaders?
      modifies this`state, request`headers, buf`readIndex
      ensures buf.Valid() && At(buf, ok, stopped) == Pass(old(At(buf, ok, false)))
    {
      stopped := false;
      var crlf, line := NextLine(buf);
      if crlf.Some? {
        var colon := Find(line, ':');
        if colon != |line| {
          request.AddHeader(line, colon);
        } else {
          assert line[..colon] == line;
          state := Done;
          stopped := true;
        }
        buf.MoveReadIndexUntil(crlf.value + 2);
      }
    }

    /** Requires exactly that the loop ends. */
    method ParseRequest(buf: Buffer) returns (ok: bool)
      requires buf.Valid() && Ends(At(buf, true, false))
      modifies this`state, request, buf`readIndex
      ensures buf.Valid() && At(buf, ok, true) == Finish(old(At(buf, true, false)))
    {
      ok := true;
      var stopped := false;
      while !stopped
        invariant buf.Valid() && unchanged(buf`data) && unchanged(buf`writeIndex)
        invariant state.ExpectRequestLine? && !stopped ==> ok
        invariant Ends(At(buf, ok, stopped)) && Finish(At(buf, ok, stopped)) == Finish(old(At(buf, true, false)))
        decreases buf.PayloadSize(), !stopped
      {
        PassKeepsEnding(At(buf, ok, false));
        match state
        case ExpectRequestLine =>
          ok, stopped := RequestLineTurn(buf);
        case ExpectHeaders =>
          stopped := HeaderTurn(buf, ok);
        case _ =>
          assert false;
      }
    }
  }
}
