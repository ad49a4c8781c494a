/**
 The response printer, and its round trip: the request parser's header loop
 reads a printed header block back to the headers it was printed from.
 */
module HttpResponses {
  import opened Buffers
  import opened Decimal
  import opened HttpContexts
  import opened HttpRequests

  datatype Response = Response(
    headers: map<string, string>,
    statusCode: int,
    statusMessage: string,
    closeConnection: bool,
    body: string)

  const LINE_SIZE: nat := 32

  /** What `snprintf` leaves of a text in the local buffer, before its NUL. */
  function Snprintf(text: string): string {
    if |text| < LINE_SIZE then text else text[..LINE_SIZE - 1]
  }

  /** The length line survives the local buffer exactly for bodies below ten terabytes. */
  lemma ContentLengthIntact(size: nat)
    ensures Snprintf("Content-Length: " + Text(size) + CRLF) == "Content-Length: " + Text(size) + CRLF
       <==> size < 10_000_000_000_000
  {
    DigitsLength(size, 13);
    Pow10Values();
    var text := "Content-Length: " + Text(size) + CRLF;
    assert |text| == 18 + |Text(size)|;
  }

  /** The status line's number survives for every `int`. */
  lemma StatusCodeIntact(code: int)
    requires -0x8000_0000 <= code < 0x8000_0000
    ensures Snprintf("HTTP/1.1 " + Text(code) + " ") == "HTTP/1.1 " + Text(code) + " "
  {
    DigitsLength(Abs(code), 13);
    Pow10Values();
  }

  // ---------------------------------------------------------------------------
  // The order of std::map

  /** `a <= b` in the order of `std::string`. */
  predicate AtMost(a: string, b: string) {
    a == "" || (b != "" && (a[0] < b[0] || (a[0] == b[0] && AtMost(a[1..], b[1..]))))
  }

  lemma {:induction false} AtMostTotal(a: string, b: string)
    ensures AtMost(a, b) || AtMost(b, a)
    ensures AtMost(a, b) && AtMost(b, a) ==> a == b
    decreases a
  {
    if a != "" && b != "" && a[0] == b[0] {
      AtMostTotal(a[1..], b[1..]);
      assert a == [a[0]] + a[1..] && b == [b[0]] + b[1..];
    }
  }

  lemma {:induction false} AtMostTransitive(a: string, b: string, c: string)
    requires AtMost(a, b) && AtMost(b, c)
    ensures AtMost(a, c)
    decreases a
  {
    if a != "" && a[0] == b[0] == c[0] {
      AtMostTransitive(a[1..], b[1..], c[1..]);
    }
  }

  /** It is the order of dictionaries, by character codes. */
  lemma {:induction false} AtMostExactly(a: string, b: string)
    ensures AtMost(a, b) <==> a <= b || exists k :: Differ(a, b, k) && a[k] < b[k]
    decreases a
  {
    if a != "" && b != "" {
      assert a == [a[0]] + a[1..] && b == [b[0]] + b[1..];
      AtMostExactly(a[1..], b[1..]);
      if a[0] < b[0] { assert Differ(a, b, 0); }
      if k :| Differ(a[1..], b[1..], k) && a[1..][k] < b[1..][k] && a[0] == b[0] {
        assert a[..k + 1] == [a[0]] + a[1..][..k] && b[..k + 1] == [b[0]] + b[1..][..k];
        assert Differ(a, b, k + 1);
      }
      if k :| Differ(a, b, k) && a[k] < b[k] && k > 0 {
        assert a[..k][0] == b[..k][0];
        assert a[1..][..k - 1] == a[..k][1..] && b[1..][..k - 1] == b[..k][1..];
        assert Differ(a[1..], b[1..], k - 1);
      }
    }
  }

  /** The texts first differ at `k`. */
  predicate Differ(a: string, b: string, k: int) {
    0 <= k < |a| && k < |b| && a[..k] == b[..k] && a[k] != b[k]
  }

  predicate IsFirst(k: string, keys: set<string>) {
    k in keys && forall x :: x in keys ==> AtMost(k, x)
  }

  lemma {:induction false} FirstExists(keys: set<string>)
    requires keys != {}
    ensures exists k :: IsFirst(k, keys)
    decreases |keys|
  {
    var k :| k in keys;
    var others := keys - {k};
    AtMostTotal(k, k);
    if others == {} {
      assert keys == {k};
      assert IsFirst(k, keys);
    } else {
      FirstExists(others);
      var first :| IsFirst(first, others);
      AtMostTotal(k, first);
      if AtMost(k, first) {
        forall x | x in keys ensures AtMost(k, x) {
          if x != k { AtMostTransitive(k, first, x); }
        }
        assert IsFirst(k, keys);
      } else {
        assert IsFirst(first, keys);
      }
    }
  }

  ghost function First(keys: set<string>): (k: string)
    requires keys != {}
    ensures IsFirst(k, keys)
  {
    FirstExists(keys);
    var k :| IsFirst(k, keys);
    k
  }

  lemma FirstIsUnique(k: string, keys: set<string>)
    requires IsFirst(k, keys)
    ensures k == First(keys)
  {
    AtMostTotal(k, First(keys));
  }

  /** The headers that iterating over the map yields. */
  ghost function InOrder(headers: map<string, string>, keys: set<string>): seq<Header>
    requires keys <= headers.Keys
    decreases |keys|
  {
    if keys == {} then [] else [Header(First(keys), headers[First(keys)])] + InOrder(headers, keys - {First(keys)})
  }

  /** They are the map's entries, each once, with their keys ascending. */
  lemma {:induction false} InOrderAscends(headers: map<string, string>, keys: set<string>)
    requires keys <= headers.Keys
    ensures var hs := InOrder(headers, keys);
            && (forall h :: h in hs <==> h.key in keys && h.value == headers[h.key])
            && (forall i, j :: 0 <= i < j < |hs| ==> AtMost(hs[i].key, hs[j].key) && hs[i].key != hs[j].key)
    decreases |keys|
  {
    if keys != {} {
      var first, rest := First(keys), InOrder(headers, keys - {First(keys)});
      InOrderAscends(headers, keys - {first});
      assert InOrder(headers, keys) == [Header(first, headers[first])] + rest;
      forall j | 0 <= j < |rest| ensures AtMost(first, rest[j].key) && first != rest[j].key {
        assert rest[j] in rest;
      }
    }
  }

  // ---------------------------------------------------------------------------
  // The printed text

  function Line(h: Header): string {
    h.key + ": " + h.value
  }

  function HeaderLines(hs: seq<Header>): seq<string> {
    if hs == [] then [] else [Line(hs[0])] + HeaderLines(hs[1..])
  }

  function StatusLine(p: Response): string {
    Snprintf("HTTP/1.1 " + Text(p.statusCode) + " ") + p.statusMessage + CRLF
  }

  function FixedHeaders(p: Response): seq<Header> {
    if p.closeConnection then [Header("Connection", "close")]
    else [Header("Content-Length", Text(|p.body|)), Header("Connection", "Keep-Alive")]
  }

  function FixedText(p: Response): string {
    if p.closeConnection then "Connection: close\r\n"
    else Snprintf("Content-Length: " + Text(|p.body|) + CRLF) + "Connection: Keep-Alive\r\n"
  }

  /** The status line shows the code, for every `int`. */
  lemma StatusLineReads(p: Response) returns (number: string)
    requires -0x8000_0000 <= p.statusCode < 0x8000_0000
    ensures StatusLine(p) == "HTTP/1.1 " + number + " " + p.statusMessage + "\r\n"
    ensures ReadInt(number) == p.statusCode && (p.statusCode >= 0 ==> Canonical(number))
  {
    number := Text(p.statusCode);
    StatusCodeIntact(p.statusCode);
    ReadText(p.statusCode);
    TextCanonical(p.statusCode);
    hide Text, Snprintf;
  }

  /** What follows the status line. */
  ghost function Block(p: Response): string {
    FixedText(p) + Lines(HeaderLines(InOrder(p.headers, p.headers.Keys))) + CRLF + p.body
  }

  ghost function Printed(p: Response): string {
    StatusLine(p) + Block(p)
  }

  // ---------------------------------------------------------------------------
  // The round trip

  /** A header that survives printing and parsing. */
  predicate Clean(h: Header) {
    ':' !in h.key && CrlfFree(h.key) && Trimmed(h.value) && CrlfFree(h.value)
  }

  lemma CrlfFreeJoin(a: string, b: string)
    requires CrlfFree(a) && CrlfFree(b)
    requires a == "" || b == "" || a[|a| - 1] != '\r' || b[0] != '\n'
    ensures CrlfFree(a + b)
  {
    var s := a + b;
    forall k | 0 <= k < |s| ensures !CrlfAt(s, k) {
      if k + 2 <= |a| {
        assert s[k..k + 2] == a[k..k + 2] && !CrlfAt(a, k);
      } else if |a| <= k && k + 2 <= |s| {
        assert s[k..k + 2] == b[k - |a|..k - |a| + 2] && !CrlfAt(b, k - |a|);
      } else if k + 2 <= |s| {
        assert k == |a| - 1 && s[k..k + 2][0] == a[k] && s[k..k + 2][1] == b[0];
      }
    }
  }

  lemma CrlfFreeWithoutCr(s: string)
    requires '\r' !in s
    ensures CrlfFree(s)
  {
    forall k | 0 <= k < |s| ensures !CrlfAt(s, k) {
      if k + 2 <= |s| { assert s[k..k + 2][0] == s[k]; }
    }
  }

  lemma CrlfFreeParts(a: string, b: string)
    requires CrlfFree(a + b)
    ensures CrlfFree(a) && CrlfFree(b)
  {
    var s := a + b;
    forall k | 0 <= k < |a| ensures !CrlfAt(a, k) {
      if k + 2 <= |a| { assert s[k..k + 2] == a[k..k + 2] && !CrlfAt(s, k); }
    }
    forall k | 0 <= k < |b| ensures !CrlfAt(b, k) {
      if k + 2 <= |b| { assert s[|a| + k..|a| + k + 2] == b[k..k + 2] && !CrlfAt(s, |a| + k); }
    }
  }

  /** The clean headers are exactly those whose printed line is one header line that reads back to them. */
  lemma CleanExactly(h: Header)
    ensures Clean(h) <==> IsHeaderLine(Line(h)) && ReadHeader(Line(h)) == h
  {
    hide CrlfFree, ReadHeader;
    assert Line(h)[|h.key|] == ':';
    HeaderLineExactly(h.key, h.value);
    if Clean(h) {
      CrlfFreeWithoutCr(": ");
      CrlfFreeJoin(h.key, ": ");
      CrlfFreeJoin(h.key + ": ", h.value);
    }
    if CrlfFree(Line(h)) {
      CrlfFreeParts(h.key + ": ", h.value);
      CrlfFreeParts(h.key, ": ");
    }
  }

  /** The headers of a request once `hs` have been added in order. */
  function Added(headers: map<string, string>, hs: seq<Header>): map<string, string>
    decreases hs
  {
    if hs == [] then headers else Added(headers[hs[0].key := hs[0].value], hs[1..])
  }

  lemma {:induction false} CleanLines(r: Request, hs: seq<Header>)
    requires forall i :: 0 <= i < |hs| ==> Clean(hs[i])
    ensures AreHeaderLines(HeaderLines(hs))
    ensures WithHeaders(r, HeaderLines(hs)) == r.(headers := Added(r.headers, hs))
    decreases hs
  {
    if hs != [] {
      CleanExactly(hs[0]);
      CleanLines(WithHeader(r, Line(hs[0])), hs[1..]);
    }
  }

  lemma {:induction false} LinesAppend(a: seq<Header>, b: seq<Header>)
    ensures Lines(HeaderLines(a + b)) == Lines(HeaderLines(a)) + Lines(HeaderLines(b))
    decreases a
  {
    if a == [] {
      assert a + b == b;
    } else {
      assert (a + b)[1..] == a[1..] + b;
      LinesAppend(a[1..], b);
    }
  }

  lemma {:induction false} AddedAppend(headers: map<string, string>, a: seq<Header>, b: seq<Header>)
    ensures Added(headers, a + b) == Added(Added(headers, a), b)
    decreases a
  {
    if a == [] {
      assert a + b == b;
    } else {
      assert (a + b)[1..] == a[1..] + b;
      AddedAppend(headers[a[0].key := a[0].value], a[1..], b);
    }
  }

  /** Iterating over a map adds all of it, whatever was there before. */
  lemma {:induction false} AddedInOrder(before: map<string, string>, headers: map<string, string>, keys: set<string>)
    requires keys <= headers.Keys
    ensures Added(before, InOrder(headers, keys)) == before + map k | k in keys :: headers[k]
    decreases |keys|
  {
    if keys != {} {
      var k := First(keys);
      AddedInOrder(before[k := headers[k]], headers, keys - {k});
    }
  }

  lemma {:induction false} CleanInOrder(headers: map<string, string>, keys: set<string>)
    requires keys <= headers.Keys
    requires forall k :: k in keys ==> Clean(Header(k, headers[k]))
    ensures forall i :: 0 <= i < |InOrder(headers, keys)| ==> Clean(InOrder(headers, keys)[i])
    decreases |keys|
  {
    if keys != {} {
      CleanInOrder(headers, keys - {First(keys)});
    }
  }

  lemma TextHasOnlyDigits(n: nat)
    ensures AllDigits(Text(n)) && Trimmed(Text(n)) && '\r' !in Text(n)
  {
    DigitsCanonical(n);
  }

  lemma LinesOfOne(h: Header)
    ensures Lines(HeaderLines([h])) == Line(h) + CRLF
  {
    assert HeaderLines([h]) == [Line(h)];
  }

  lemma FixedLines(size: string)
    ensures Line(Header("Connection", "close")) + CRLF == "Connection: close\r\n"
    ensures Line(Header("Connection", "Keep-Alive")) + CRLF == "Connection: Keep-Alive\r\n"
    ensures Line(Header("Content-Length", size)) == "Content-Length: " + size
  {
    assert "Content-Length: " == "Content-Length" + ": ";
  }

  /** The local buffer holds the length line, or there is none. */
  predicate LengthFits(p: Response) {
    p.closeConnection || |p.body| < 10_000_000_000_000
  }

  /** What is left of a longer length, run together with the line that follows it. */
  function CutLength(p: Response): string
    requires !LengthFits(p)
  {
    DigitsLength(|p.body|, 13);
    Pow10Values();
    (Text(|p.body|) + CRLF)[..15] + "Connection: Keep-Alive"
  }

  /** The headers that the fixed text spells. */
  function SpelledHeaders(p: Response): seq<Header> {
    if LengthFits(p) then FixedHeaders(p) else [Header("Content-Length", CutLength(p))]
  }

  lemma CutTextIsLine(p: Response)
    requires !LengthFits(p)
    ensures FixedText(p) == Line(Header("Content-Length", CutLength(p))) + CRLF
  {
    var size := Text(|p.body|);
    var text := "Content-Length: " + size + CRLF;
    DigitsLength(|p.body|, 13);
    Pow10Values();
    FixedLines(CutLength(p));
    hide Text, Line, Pow10;
    assert text == "Content-Length: " + (size + CRLF);
    assert Snprintf(text) == "Content-Length: " + (size + CRLF)[..15];
    var cut := (size + CRLF)[..15];
    assert ("Content-Length: " + cut) + ("Connection: Keep-Alive" + CRLF)
        == "Content-Length: " + (cut + "Connection: Keep-Alive") + CRLF;
  }

  lemma CutLengthClean(p: Response)
    requires !LengthFits(p)
    ensures Clean(Header("Content-Length", CutLength(p))) && CutLength(p) != Text(|p.body|)
  {
    var size := Text(|p.body|);
    TextHasOnlyDigits(|p.body|);
    DigitsLength(|p.body|, 13);
    Pow10Values();
    hide Text, Pow10, CrlfFree;
    CrlfFreeWithoutCr("Content-Length");
    CutIsClean(size);
    assert CutLength(p)[|CutLength(p)| - 1] == 'e';
    assert !IsDigit('e');
  }

  lemma CutIsClean(size: string)
    requires |size| > 13 && AllDigits(size)
    ensures var value := (size + CRLF)[..15] + "Connection: Keep-Alive"; Trimmed(value) && CrlfFree(value)
  {
    var cut := (size + CRLF)[..15];
    assert forall i :: 0 <= i < 15 ==> cut[i] == (size + CRLF)[i];
    assert cut[0] == size[0] && '\n' !in cut;
    CrlfFreeWithoutLf(cut + "Connection: Keep-Alive");
  }

  lemma CrlfFreeWithoutLf(s: string)
    requires '\n' !in s
    ensures CrlfFree(s)
  {
    forall k | 0 <= k < |s| ensures !CrlfAt(s, k) {
      if k + 2 <= |s| { assert s[k..k + 2][1] == s[k + 1]; }
    }
  }

  /** The fixed text is those headers, one per line. */
  lemma FixedTextIsLines(p: Response)
    ensures FixedText(p) == Lines(HeaderLines(SpelledHeaders(p)))
  {
    if !LengthFits(p) {
      CutTextIsLine(p);
      LinesOfOne(Header("Content-Length", CutLength(p)));
      return;
    }
    var size := Text(|p.body|);
    FixedLines(size);
    ContentLengthIntact(|p.body|);
    hide Lines, HeaderLines, Text, Line, Snprintf;
    if p.closeConnection {
      LinesOfOne(Header("Connection", "close"));
    } else {
      var length, keep := Header("Content-Length", size), Header("Connection", "Keep-Alive");
      LinesOfOne(length);
      LinesOfOne(keep);
      LinesAppend([length], [keep]);
      assert [length] + [keep] == [length, keep];
    }
  }

  lemma SpelledHeadersClean(p: Response)
    ensures forall i :: 0 <= i < |SpelledHeaders(p)| ==> Clean(SpelledHeaders(p)[i])
  {
    if LengthFits(p) { FixedHeadersClean(p); } else { CutLengthClean(p); }
  }

  lemma FixedHeadersClean(p: Response)
    ensures forall i :: 0 <= i < |FixedHeaders(p)| ==> Clean(FixedHeaders(p)[i])
  {
    CrlfFreeWithoutCr("Connection");
    CrlfFreeWithoutCr("close");
    CrlfFreeWithoutCr("Keep-Alive");
    CrlfFreeWithoutCr("Content-Length");
    TextHasOnlyDigits(|p.body|);
    CrlfFreeWithoutCr(Text(|p.body|));
  }

  predicate AllClean(headers: map<string, string>) {
    forall k :: k in headers ==> Clean(Header(k, headers[k]))
  }

  /** What parsing a printed block gives, when the response's own headers are clean. */
  lemma BlockParsed(p: Response, c: Cursor)
    requires AllClean(p.headers) && c.state.ExpectHeaders? && !c.stopped && c.unread == Block(p)
    ensures Ends(c)
    ensures Finish(c) == Cursor(Done, c.request.(headers := Added(c.request.headers, SpelledHeaders(p)) + p.headers),
                                p.body, c.ok, true)
  {
    hide FixedText, SpelledHeaders, Lines, HeaderLines, Clean, Ends, Finish;
    var spelled, own := SpelledHeaders(p), InOrder(p.headers, p.headers.Keys);
    FixedTextIsLines(p);
    SpelledHeadersClean(p);
    CleanInOrder(p.headers, p.headers.Keys);
    LinesAppend(spelled, own);
    CleanLines(c.request, spelled + own);
    assert c.unread == Lines(HeaderLines(spelled + own)) + "" + CRLF + p.body;
    HeadersFramed(c, HeaderLines(spelled + own), "", p.body);
    AddedAppend(c.request.headers, spelled, own);
    AddedInOrder(Added(c.request.headers, spelled), p.headers, p.headers.Keys);
    assert (map k | k in p.headers.Keys :: p.headers[k]) == p.headers;
  }

  /** Parsing gives the fixed fields overridden by the response's headers, and leaves exactly the body. */
  predicate RoundTrips(p: Response, c: Cursor) {
    && Ends(c)
    && Finish(c) == Cursor(Done, c.request.(headers := Added(c.request.headers, FixedHeaders(p)) + p.headers),
                           p.body, c.ok, true)
  }

  /** A length that is cut short does no harm when the response overrides both fixed fields. */
  predicate LengthKept(p: Response) {
    LengthFits(p) || ("Content-Length" in p.headers && "Connection" in p.headers)
  }

  lemma SpelledIsFixed(p: Response, before: map<string, string>)
    ensures LengthKept(p) ==> Added(before, SpelledHeaders(p)) + p.headers == Added(before, FixedHeaders(p)) + p.headers
    ensures before == map[] && !LengthKept(p)
            ==> Added(before, SpelledHeaders(p)) + p.headers != Added(before, FixedHeaders(p)) + p.headers
  {
    if !LengthFits(p) {
      CutLengthClean(p);
      var spelled, fixed := SpelledHeaders(p), FixedHeaders(p);
      hide Text, CutLength;
      assert Added(before, spelled) == before["Content-Length" := spelled[0].value];
      AddedTwo(before, fixed[0], fixed[1]);
      SameUnder(before, p.headers, spelled[0].value, fixed[0].value);
    }
  }

  lemma AddedTwo(before: map<string, string>, a: Header, b: Header)
    ensures Added(before, [a, b]) == before[a.key := a.value][b.key := b.value]
  {
    assert [a, b][1..] == [b] && [b][1..] == [];
    var first := before[a.key := a.value];
    assert Added(before, [a, b]) == Added(first, [b]);
    assert Added(first, [b]) == Added(first[b.key := b.value], []);
  }

  lemma SameUnder(before: map<string, string>, own: map<string, string>, cut: string, size: string)
    requires cut != size
    ensures var a := before["Content-Length" := cut] + own;
            var b := before["Content-Length" := size]["Connection" := "Keep-Alive"] + own;
            && ("Content-Length" in own && "Connection" in own ==> a == b)
            && (before == map[] && ("Content-Length" !in own || "Connection" !in own) ==> a != b)
  {
    var a := before["Content-Length" := cut] + own;
    var b := before["Content-Length" := size]["Connection" := "Keep-Alive"] + own;
    if before == map[] && "Connection" !in own {
      assert "Connection" in b && "Connection" !in a;
    } else if before == map[] && "Content-Length" !in own {
      assert a["Content-Length"] != b["Content-Length"];
    }
  }

  /** Whatever a parser reads is clean, so nothing else can come back from printing. */
  lemma {:induction false} ParsedIsClean(c: Cursor)
    requires Ends(c) && c.state.ExpectHeaders? && AllClean(c.request.headers)
    ensures AllClean(Finish(c).request.headers)
    decreases |c.unread|, !c.stopped
  {
    if !c.stopped {
      PassKeepsEnding(c);
      var line, tail := FirstLineOf(c.unread);
      if ':' in line {
        ReadIsClean(line);
        ParsedIsClean(Pass(c));
      }
    }
  }

  lemma CrlfFreeThree(a: string, b: string, c: string)
    requires CrlfFree(a + b + c)
    ensures CrlfFree(a) && CrlfFree(b) && CrlfFree(c)
  {
    CrlfFreeParts(a + b, c);
    CrlfFreeParts(a, b);
  }

  lemma ReadIsClean(line: string)
    requires CrlfFree(line) && ':' in line
    ensures Clean(ReadHeader(line))
  {
    var colon := Find(line, ':');
    assert line[..|line|] == line;
    assert colon < |line| && line[colon] == ':';
    hide CrlfFree, Trim, Find, Trimmed;
    var key, rest := line[..colon], line[colon + 1..];
    assert line == key + [':'] + rest;
    CrlfFreeThree(key, [':'], rest);
    var a, b := TrimSplits(rest);
    CrlfFreeThree(a, Trim(rest), b);
  }

  /**
   A printed block is read back by a fresh request's parser if and only if all the
   response's headers are clean and its length, unless overridden, is not cut short.
   */
  lemma BlockRoundTripExactly(p: Response, c: Cursor)
    requires c.state.ExpectHeaders? && !c.stopped && c.unread == Block(p) && c.request.headers == map[]
    ensures RoundTrips(p, c) <==> AllClean(p.headers) && LengthKept(p)
  {
    hide Ends, Finish, Block, Added, Clean, SpelledHeaders, FixedHeaders, LengthKept;
    if RoundTrips(p, c) {
      ParsedIsClean(c);
      assert forall k :: k in p.headers ==> Finish(c).request.headers[k] == p.headers[k];
    }
    if AllClean(p.headers) {
      BlockParsed(p, c);
      SpelledIsFixed(p, map[]);
    }
  }

  /** Into any request, printing and parsing gives the fixed headers overridden by the response's. */
  lemma BlockRoundTrip(p: Response, c: Cursor)
    requires AllClean(p.headers) && LengthKept(p)
    requires c.state.ExpectHeaders? && !c.stopped && c.unread == Block(p)
    ensures RoundTrips(p, c)
  {
    hide Ends, Finish, Block, Added, Clean, SpelledHeaders, FixedHeaders, LengthKept;
    BlockParsed(p, c);
    SpelledIsFixed(p, c.request.headers);
  }

  function AfterFirstLine(s: string): string
    requires HasLine(s)
  {
    s[LineEnd(s) + 2..]
  }

  /** The first CRLF of a printed response ends its status line. */
  lemma StatusLineEnds(p: Response, rest: string)
    requires -0x8000_0000 <= p.statusCode < 0x8000_0000 && CrlfFree(p.statusMessage)
    ensures HasLine(StatusLine(p) + rest) && AfterFirstLine(StatusLine(p) + rest) == rest
  {
    StatusCodeIntact(p.statusCode);
    DigitsCanonical(Abs(p.statusCode));
    var start := "HTTP/1.1 " + Text(p.statusCode) + " ";
    assert '\r' !in start && start[|start| - 1] == ' ';
    hide Text, CrlfFree, LineEnd;
    CrlfFreeWithoutCr(start);
    CrlfFreeJoin(start, p.statusMessage);
    FirstLine(start + p.statusMessage, rest);
    assert StatusLine(p) == start + p.statusMessage + CRLF;
  }

  /**
   Header round trip: what follows the first line of a printed response is read
   back to the fixed fields overridden by the response's headers, and leaves exactly
   the body. For a request without headers of its own this is so only of such responses.
   */
  lemma HeaderRoundTrip(p: Response, r: Request)
    requires -0x8000_0000 <= p.statusCode < 0x8000_0000 && CrlfFree(p.statusMessage)
    ensures HasLine(Printed(p))
    ensures var c := Cursor(ExpectHeaders, r, AfterFirstLine(Printed(p)), true, false);
            && (AllClean(p.headers) && LengthKept(p) ==> RoundTrips(p, c))
            && (r.headers == map[] && RoundTrips(p, c) ==> AllClean(p.headers) && LengthKept(p))
  {
    hide Block, StatusLine, AfterFirstLine, HasLine, Clean, RoundTrips, LengthKept;
    StatusLineEnds(p, Block(p));
    var c := Cursor(ExpectHeaders, r, Block(p), true, false);
    if AllClean(p.headers) && LengthKept(p) { BlockRoundTrip(p, c); }
    if r.headers == map[] { BlockRoundTripExactly(p, c); }
  }

  /** The headers that a client reads, field by field. */
  lemma HeadersReadBack(p: Response, r: Request) returns (number: string)
    requires AllClean(p.headers) && LengthKept(p) && r.headers == map[]
    requires -0x8000_0000 <= p.statusCode < 0x8000_0000 && CrlfFree(p.statusMessage)
    ensures HasLine(Printed(p))
    ensures var c := Cursor(ExpectHeaders, r, AfterFirstLine(Printed(p)), true, false);
            && Ends(c) && Finish(c).unread == p.body && Finish(c).state.Done?
            && (p.closeConnection ==> Finish(c).request.headers == map["Connection" := "close"] + p.headers)
            && (!p.closeConnection ==>
                  Finish(c).request.headers
                  == map["Content-Length" := number, "Connection" := "Keep-Alive"] + p.headers)
    ensures ReadInt(number) == |p.body| && Canonical(number)
  {
    number := Text(|p.body|);
    ReadText(|p.body|);
    TextCanonical(|p.body|);
    HeaderRoundTrip(p, r);
    hide Printed, AfterFirstLine, HasLine, Ends, Finish, AllClean, LengthKept, Text;
    if p.closeConnection {
      AddedOne(r.headers, Header("Connection", "close"));
    } else {
      AddedTwo(r.headers, Header("Content-Length", number), Header("Connection", "Keep-Alive"));
    }
  }

  lemma AddedOne(before: map<string, string>, h: Header)
    ensures Added(before, [h]) == before[h.key := h.value]
  {
    assert Added(before, [h]) == Added(before[h.key := h.value], []);
  }

  // ---------------------------------------------------------------------------
  // The response object

  class HttpResponse {
    var headers: map<string, string>
    var statusCode: int
    var statusMessage: string
    var closeConnection: bool
    var body: string

    ghost function Value(): Response
      reads this
    {
      Response(headers, statusCode, statusMessage, closeConnection, body)
    }

    constructor (close: bool)
      ensures Value() == Response(map[], 0, "", close, "")
    {
      headers, statusCode, statusMessage, closeConnection, body := map[], 0, "", close, "";
    }

    method AddHeader(key: string, value: string)
      modifies this`headers
      ensures headers == old(headers)[key := value]
    {
      headers := headers[key := value];
    }

    static method Put(output: Buffer, text: string)
      requires output.Valid()
      modifies output, output.data
      ensures output.Valid() && (output.data == old(output.data) || fresh(output.data))
      ensures output.Payload() == old(output.Payload()) + text
    {
      output.Append(text);
      assert output.Contents().payload == output.Payload();
    }

    /** Consecutive appends put one text behind the other. */
    static method PutTwo(output: Buffer, first: string, second: string)
      requires output.Valid()
      modifies output, output.data
      ensures output.Valid() && (output.data == old(output.data) || fresh(output.data))
      ensures output.Payload() == old(output.Payload()) + (first + second)
    {
      Put(output, first);
      Put(output, second);
    }

    method PutStatusLine(output: Buffer)
      requires output.Valid()
      modifies output, output.data
      ensures output.Valid() && (output.data == old(output.data) || fresh(output.data))
      ensures output.Payload() == old(output.Payload()) + StatusLine(Value())
    {
      hide Snprintf, Text, Buffer.Payload;
      PutTwo(output, Snprintf("HTTP/1.1 " + Text(statusCode) + " "), statusMessage);
      Put(output, "\r\n");
    }

    method PutFixed(output: Buffer)
      requires output.Valid()
      modifies output, output.data
      ensures output.Valid() && (output.data == old(output.data) || fresh(output.data))
      ensures output.Payload() == old(output.Payload()) + FixedText(Value())
    {
      hide Snprintf, Text, Buffer.Payload;
      if closeConnection {
        Put(output, "Connection: close\r\n");
      } else {
        PutTwo(output, Snprintf("Content-Length: " + Text(|body|) + CRLF), "Connection: Keep-Alive\r\n");
      }
    }

    method PutHeader(output: Buffer, h: Header)
      requires output.Valid()
      modifies output, output.data
      ensures output.Valid() && (output.data == old(output.data) || fresh(output.data))
      ensures output.Payload() == old(output.Payload()) + (Line(h) + CRLF)
    {
      hide Buffer.Payload;
      PutTwo(output, h.key, ": ");
      PutTwo(output, h.value, "\r\n");
    }

    /** The loop over the map, in the order of its keys. */
    method PutHeaders(output: Buffer)
      requires output.Valid()
      modifies output, output.data
      ensures output.Valid() && (output.data == old(output.data) || fresh(output.data))
      ensures output.Payload() == old(output.Payload()) + Lines(HeaderLines(InOrder(headers, headers.Keys)))
    {
      hide Buffer.Payload, Line;
      var rest := headers.Keys;
      while rest != {}
        invariant rest <= headers.Keys && output.Valid() && (output.data == old(output.data) || fresh(output.data))
        invariant output.Payload() + Lines(HeaderLines(InOrder(headers, rest)))
               == old(output.Payload()) + Lines(HeaderLines(InOrder(headers, headers.Keys)))
        decreases |rest|
      {
        FirstExists(rest);
        var key :| IsFirst(key, rest);
        FirstIsUnique(key, rest);
        PutHeader(output, Header(key, headers[key]));
        rest := rest - {key};
      }
    }

    /** Headers, blank line and body. */
    method PutBlock(output: Buffer)
      requires output.Valid()
      modifies output, output.data
      ensures output.Valid() && output.Payload() == old(output.Payload()) + Block(Value())
    {
      hide Buffer.Payload, FixedText, Lines, HeaderLines, InOrder;
      PutFixed(output);
      PutHeaders(output);
      PutTwo(output, "\r\n", body);
    }

    method AppendToBuffer(output: Buffer)
      requires output.Valid()
      modifies output, output.data
      ensures output.Valid() && output.Payload() == old(output.Payload()) + Printed(Value())
    {
      hide Buffer.Payload, StatusLine, Block;
      PutStatusLine(output);
      PutBlock(output);
    }
  }
}
