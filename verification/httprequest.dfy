/**
 A parsed HTTP request. `Request` is its value; the class updates its fields as
 the parser finds them.
 */
module HttpRequests {

  /** `Invalid` is what an unknown method name leaves behind. */
  datatype Method = Invalid | Get | Post | Head | Put | Delete

  datatype Version = Unknown | Http10 | Http11

  datatype Request = Request(
    method_: Method,
    version: Version,
    path: string,
    query: string,
    headers: map<string, string>)

  /** The known names. DELETE is recorded as GET. */
  const METHODS: map<string, Method> :=
    map["GET" := Get, "POST" := Post, "HEAD" := Head, "PUT" := Put, "DELETE" := Get]

  predicate Known(name: string) {
    name in METHODS
  }

  function MethodOf(name: string): Method {
    if Known(name) then METHODS[name] else Invalid
  }

  /** Name by name. */
  lemma MethodCodes(name: string)
    ensures MethodOf("GET") == Get && MethodOf("POST") == Post && MethodOf("HEAD") == Head
    ensures MethodOf("PUT") == Put && MethodOf("DELETE") == Get
    ensures name !in ["GET", "POST", "HEAD", "PUT", "DELETE"] ==> MethodOf(name) == Invalid
  {}

  /** `isspace` in the C locale. */
  predicate IsSpace(c: char) {
    c == ' ' || '\t' <= c <= '\r'
  }

  lemma SpaceCodes(c: char)
    ensures IsSpace(c) <==> c as int in [9, 10, 11, 12, 13, 32]
  {
    assert ' ' as int == 32 && '\t' as int == 9 && '\r' as int == 13;
  }

  predicate AllSpace(s: string) {
    forall i :: 0 <= i < |s| ==> IsSpace(s[i])
  }

  predicate Trimmed(s: string) {
    s == "" || (!IsSpace(s[0]) && !IsSpace(s[|s| - 1]))
  }

  function TrimLeft(s: string): string {
    if s != "" && IsSpace(s[0]) then TrimLeft(s[1..]) else s
  }

  function TrimRight(s: string): string {
    if s != "" && IsSpace(s[|s| - 1]) then TrimRight(s[..|s| - 1]) else s
  }

  function Trim(s: string): string {
    TrimRight(TrimLeft(s))
  }

  lemma {:induction false} TrimLeftOf(a: string, s: string)
    requires AllSpace(a) && (s == "" || !IsSpace(s[0]))
    ensures TrimLeft(a + s) == s
    decreases a
  {
    if a == "" {
      assert a + s == s;
    } else {
      assert (a + s)[1..] == a[1..] + s;
      TrimLeftOf(a[1..], s);
    }
  }

  lemma {:induction false} TrimRightOf(s: string, b: string)
    requires AllSpace(b) && (s == "" || !IsSpace(s[|s| - 1]))
    ensures TrimRight(s + b) == s
    decreases b
  {
    if b == "" {
      assert s + b == s;
    } else {
      assert (s + b)[..|s + b| - 1] == s + b[..|b| - 1];
      TrimRightOf(s, b[..|b| - 1]);
    }
  }

  lemma {:induction false} TrimLeftSplits(s: string) returns (a: string)
    ensures s == a + TrimLeft(s) && AllSpace(a)
    ensures TrimLeft(s) == "" || !IsSpace(TrimLeft(s)[0])
    decreases s
  {
    a := "";
    if s != "" && IsSpace(s[0]) {
      var rest := TrimLeftSplits(s[1..]);
      a := [s[0]] + rest;
    }
  }

  lemma {:induction false} TrimRightSplits(s: string) returns (b: string)
    ensures s == TrimRight(s) + b && AllSpace(b)
    ensures TrimRight(s) == "" || !IsSpace(TrimRight(s)[|TrimRight(s)| - 1])
    decreases s
  {
    b := "";
    if s != "" && IsSpace(s[|s| - 1]) {
      var rest := TrimRightSplits(s[..|s| - 1]);
      b := rest + [s[|s| - 1]];
    }
  }

  /** Trimming removes whitespace at both ends, and all of it. */
  lemma TrimSplits(s: string) returns (a: string, b: string)
    ensures s == a + Trim(s) + b && AllSpace(a) && AllSpace(b) && Trimmed(Trim(s))
  {
    a := TrimLeftSplits(s);
    b := TrimRightSplits(TrimLeft(s));
  }

  /** Nothing but trimming does that. */
  lemma TrimIsUnique(a: string, t: string, b: string)
    requires AllSpace(a) && Trimmed(t) && AllSpace(b)
    ensures Trim(a + t + b) == t
  {
    if t == "" {
      assert AllSpace(a + b);
      assert a + t + b == (a + b) + "";
      TrimLeftOf(a + b, "");
      TrimRightOf("", "");
    } else {
      assert a + t + b == a + (t + b);
      TrimLeftOf(a, t + b);
      TrimRightOf(t, b);
    }
  }

  /** `std::find`: where `c` first occurs, or the length of `s`. */
  function Find(s: string, c: char): (i: nat)
    ensures i <= |s| && c !in s[..i]
    ensures i < |s| ==> s[i] == c
  {
    if s == "" || s[0] == c then 0
    else
      var i := Find(s[1..], c);
      assert s[..i + 1] == [s[0]] + s[1..][..i];
      i + 1
  }

  lemma {:induction false} FindFirst(before: string, c: char, after: string)
    requires c !in before
    ensures Find(before + [c] + after, c) == |before|
    decreases before
  {
    if before == "" {
      assert before + [c] + after == [c] + after;
    } else {
      assert (before + [c] + after)[1..] == before[1..] + [c] + after;
      FindFirst(before[1..], c, after);
    }
  }

  lemma {:induction false} NotFound(s: string, c: char)
    requires c !in s
    ensures Find(s, c) == |s|
    decreases s
  {
    if s != "" { NotFound(s[1..], c); }
  }

  datatype Header = Header(key: string, value: string)

  function ReadHeader(line: string): Header
    requires ':' in line
  {
    var colon := Find(line, ':');
    assert line[..|line|] == line;
    Header(line[..colon], Trim(line[colon + 1..]))
  }

  /** A later header replaces an earlier one of the same name. */
  function WithHeader(r: Request, line: string): Request
    requires ':' in line
  {
    var header := ReadHeader(line);
    r.(headers := r.headers[header.key := header.value])
  }

  /** A printed header is read back exactly when its key has no colon and its value no outer whitespace. */
  lemma HeaderLineExactly(key: string, value: string)
    ensures ReadHeader(key + ": " + value) == Header(key, value) <==> ':' !in key && Trimmed(value)
  {
    var line := key + ": " + value;
    assert line == key + [':'] + (" " + value);
    if ':' !in key {
      FindFirst(key, ':', " " + value);
      assert line[..|key|] == key && line[|key| + 1..] == " " + value;
      var a, b := TrimSplits(" " + value);
      if Trimmed(value) {
        assert " " + value == " " + value + "";
        TrimIsUnique(" ", value, "");
      }
    } else {
      var colon := Find(line, ':');
      assert ':' !in line[..colon];
    }
  }

  class HttpRequest {
    var method_: Method
    var version: Version
    var path: string
    var query: string
    var headers: map<string, string>

    ghost function Value(): Request
      reads this
    {
      Request(method_, version, path, query, headers)
    }

    constructor ()
      ensures Value() == Request(Invalid, Unknown, "", "", map[])
    {
      method_, version, path, query, headers := Invalid, Unknown, "", "", map[];
    }

    method SetMethod(name: string) returns (known: bool)
      modifies this`method_
      ensures method_ == MethodOf(name) && (known <==> Known(name)) && (known <==> !method_.Invalid?)
    {
      if name == "GET" {
        method_ := Get;
      } else if name == "POST" {
        method_ := Post;
      } else if name == "HEAD" {
        method_ := Head;
      } else if name == "PUT" {
        method_ := Put;
      } else if name == "DELETE" {
        method_ := Get;
      } else {
        method_ := Invalid;
      }
      known := method_ != Invalid;
    }

    method SetVersion(v: Version)
      modifies this`version
      ensures version == v
    {
      version := v;
    }

    method SetPath(s: string)
      modifies this`path
      ensures path == s
    {
      path := s;
    }

    method SetQuery(s: string)
      modifies this`query
      ensures query == s
    {
      query := s;
    }

    /** The field name is taken as it stands; the value loses the whitespace around it. */
    method AddHeader(line: string, colon: nat)
      requires colon < |line|
      modifies this`headers
      ensures headers == old(headers)[line[..colon] := Trim(line[colon + 1..])]
    {
      var field := line[..colon];
      var i := colon + 1;
      while i < |line| && IsSpace(line[i])
        invariant colon + 1 <= i <= |line|
        invariant TrimLeft(line[i..]) == TrimLeft(line[colon + 1..])
      {
        assert line[i..][1..] == line[i + 1..];
        i := i + 1;
      }
      var value := line[i..];
      while value != "" && IsSpace(value[|value| - 1])
        invariant TrimRight(value) == TrimRight(line[i..])
        decreases |value|
      {
        value := value[..|value| - 1];
      }
      headers := headers[field := value];
    }
  }
}
