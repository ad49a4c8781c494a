/**
 The logger's line buffer: `FixedBuffer`, a bounded all-or-nothing appender,
 and `LogStream`, which formats integers in place at the buffer's cursor.
 */
module LogStreams {
  import opened Decimal
  import opened Prelude

  const DEFAULT_SIZE: nat := 4000
  const MAX_NUMERIC_SIZE: nat := 32

  /** `data_` with its cursor `cur_`; `pieces` are the appends accepted since the last reset. */
  class FixedBuffer {
    const data: array<char>
    var cur: nat
    ghost var pieces: seq<string>

    ghost predicate Valid()
      reads this, data
    {
      cur <= data.Length && data[..cur] == Join(pieces)
    }

    constructor (size: nat)
      ensures Valid() && fresh(data) && data.Length == size
      ensures cur == 0 && pieces == []
    {
      data := new char[size];
      cur, pieces := 0, [];
    }

    function Available(): nat
      requires cur <= data.Length
      reads this
    {
      data.Length - cur
    }

    /** Copies all of `s`, or nothing when it does not fit with a byte to spare. */
    method Append(s: string)
      requires Valid()
      modifies this, data
      ensures Valid()
      ensures pieces == if old(Available()) > |s| then old(pieces) + [s] else old(pieces)
    {
      if Available() > |s| {
        forall i | 0 <= i < |s| { data[cur + i] := s[i]; }
        assert data[..cur] == old(data[..cur]);
        assert data[..cur + |s|] == data[..cur] + s;
        JoinSnoc(pieces, s);
        cur := cur + |s|;
        pieces := pieces + [s];
      }
    }

    /** Takes over `piece`, which the caller has already written at the cursor. */
    method Add(len: nat, ghost piece: string)
      requires Valid()
      requires cur + len <= data.Length && data[cur..cur + len] == piece
      modifies this
      ensures Valid() && cur == old(cur) + len
      ensures pieces == old(pieces) + [piece]
    {
      JoinSnoc(pieces, piece);
      assert data[..cur + len] == data[..cur] + data[cur..cur + len];
      cur := cur + len;
      pieces := pieces + [piece];
    }

    method Reset()
      requires Valid()
      modifies this
      ensures Valid() && cur == 0 && pieces == []
    {
      cur, pieces := 0, [];
    }
  }

  /** Division and remainder that truncate toward zero, as the `/` and `%` of C++ do. */
  function TruncDiv(a: int, b: int): int
    requires b > 0
  {
    if a >= 0 then a / b else -((-a) / b)
  }

  function TruncMod(a: int, b: int): int
    requires b > 0
  {
    a - b * TruncDiv(a, b)
  }

  function Reversed(s: string): string {
    seq(|s|, i requires 0 <= i < |s| => s[|s| - 1 - i])
  }

  lemma ReversedSnoc(s: string, c: char)
    ensures Reversed(s + [c]) == [c] + Reversed(s)
  {}

  const SIGNED_DIGITS: string := "9876543210123456789"

  /** One round of the digit loop: the remainder's character is the next digit of |i|. */
  lemma DigitStep(i: int)
    ensures -9 <= TruncMod(i, 10) <= 9
    ensures SIGNED_DIGITS[9 + TruncMod(i, 10)] == DigitChar(Abs(i) % 10)
    ensures Abs(TruncDiv(i, 10)) == Abs(i) / 10
  {}

  /** `std::reverse` on a range of the array. */
  method ReverseRange(buf: array<char>, lo: nat, hi: nat)
    requires lo <= hi <= buf.Length
    modifies buf
    ensures buf[lo..hi] == Reversed(old(buf[lo..hi]))
    ensures forall k :: 0 <= k < buf.Length && !(lo <= k < hi) ==> buf[k] == old(buf[k])
  {
    var i, j := lo, hi;
    while i + 1 < j
      invariant lo <= i <= j + 1 && j <= hi && i - lo == hi - j
      invariant forall k :: lo <= k < i ==> buf[k] == old(buf[lo + hi - 1 - k])
      invariant forall k :: j <= k < hi ==> buf[k] == old(buf[lo + hi - 1 - k])
      invariant forall k :: i <= k < j ==> buf[k] == old(buf[k])
      invariant forall k :: 0 <= k < buf.Length && !(lo <= k < hi) ==> buf[k] == old(buf[k])
      decreases j - i
    {
      j := j - 1;
      buf[i], buf[j] := buf[j], buf[i];
      i := i + 1;
    }
    ghost var was := old(buf[lo..hi]);
    forall k | 0 <= k < hi - lo ensures buf[lo..hi][k] == Reversed(was)[k] {
      assert buf[lo + k] == old(buf[lo + hi - 1 - (lo + k)]);
    }
  }

  /** Moving the low digit of `n` behind the digits already written, in reverse, keeps the whole. */
  lemma PeelDigit(n: nat, written: string)
    ensures Digits(n) + Reversed(written)
         == (if n < 10 then "" else Digits(n / 10)) + Reversed(written + [DigitChar(n % 10)])
  {
    var digit := DigitChar(n % 10);
    ReversedSnoc(written, digit);
    if n >= 10 {
      assert Digits(n) + Reversed(written) == Digits(n / 10) + ([digit] + Reversed(written));
    }
  }

  /** The digit loop: the digits of |value| from the lowest up, ending before `p`. */
  method WriteDigits(buf: array<char>, start: nat, value: int) returns (p: nat)
    requires start + |Digits(Abs(value))| <= buf.Length
    modifies buf
    ensures p == start + |Digits(Abs(value))|
    ensures Reversed(buf[start..p]) == Digits(Abs(value))
    ensures forall k :: 0 <= k < buf.Length && !(start <= k < p) ==> buf[k] == old(buf[k])
  {
    ghost var total, written := Digits(Abs(value)), "";
    var i, more := value, true;
    p := start;
    while more
      invariant start <= p <= buf.Length && buf[start..p] == written
      invariant (if more then Digits(Abs(i)) else "") + Reversed(written) == total
      invariant forall k :: 0 <= k < buf.Length && !(start <= k < p) ==> buf[k] == old(buf[k])
      decreases if more then 1 + Abs(i) else 0
    {
      DigitStep(i);
      PeelDigit(Abs(i), written);
      var lsd := TruncMod(i, 10);
      written := written + [DigitChar(Abs(i) % 10)];
      i := TruncDiv(i, 10);
      assert p < buf.Length by { assert |total| >= |Reversed(written)| == |written|; }
      buf[p] := SIGNED_DIGITS[9 + lsd];
      p := p + 1;
      more := i != 0;
      assert buf[start..p] == written;
    }
    assert "" + Reversed(written) == Reversed(written);
  }

  /**
   Writes the decimal text of `value` and a terminating NUL at `start`, the low
   digit first and then reversed in place. Bytes outside are not touched.
   */
  method Convert(buf: array<char>, start: nat, value: int) returns (len: nat)
    requires start + |Text(value)| < buf.Length
    modifies buf
    ensures len == |Text(value)|
    ensures buf[start..start + len] == Text(value) && buf[start + len] == '\0'
    ensures forall k :: 0 <= k < buf.Length && !(start <= k <= start + len) ==> buf[k] == old(buf[k])
  {
    var p := WriteDigits(buf, start, value);
    ghost var magnitude := buf[start..p];
    if value < 0 {
      buf[p] := '-';
      p := p + 1;
      assert buf[start..p] == magnitude + ['-'];
      ReversedSnoc(magnitude, '-');
    }
    buf[p] := '\0';
    assert Reversed(buf[start..p]) == Text(value);
    ReverseRange(buf, start, p);
    len := p - start;
  }

  /** What can be inserted with `<<`; a null C string is `Null`. */
  datatype Item = Flag(b: bool) | Number(v: int) | CString(s: string) | Null

  function Render(item: Item): string {
    match item
    case Flag(b) => if b then "1" else "0"
    case Number(v) => Text(v)
    case CString(s) => s
    case Null => "(NULL)"
  }

  /** Numbers need room for any number; everything else room for itself. */
  predicate HasRoom(item: Item, available: nat) {
    if item.Number? then available >= MAX_NUMERIC_SIZE else available > |Render(item)|
  }

  predicate Fits64(item: Item) {
    item.Number? ==> INT64_MIN <= item.v <= UINT64_MAX
  }

  function Insert(pieces: seq<string>, item: Item): seq<string> {
    var used := |Join(pieces)|;
    if used <= DEFAULT_SIZE && HasRoom(item, DEFAULT_SIZE - used) then pieces + [Render(item)] else pieces
  }

  /** What each item reads as. */
  lemma RenderedItem(item: Item)
    ensures item == Flag(true) ==> Render(item) == "1"
    ensures item == Flag(false) ==> Render(item) == "0"
    ensures item.CString? ==> Render(item) == item.s
    ensures item.Null? ==> Render(item) == "(NULL)"
    ensures item.Number? ==> ReadInt(Render(item)) == item.v && (item.v >= 0 ==> Canonical(Render(item)))
  {
    if item.Number? {
      ReadText(item.v);
      TextCanonical(item.v);
    }
  }

  /** An item is appended exactly when 32 bytes are left for a number, or its text and one byte more for another. */
  lemma InsertedExactly(pieces: seq<string>, item: Item)
    ensures Insert(pieces, item) == pieces || Insert(pieces, item) == pieces + [Render(item)]
    ensures |Insert(pieces, item)| == |pieces| + 1
       <==> if item.Number? then |Join(pieces)| + 32 <= 4000 else |Join(pieces)| + |Render(item)| < 4000
  {}

  function InsertAll(pieces: seq<string>, items: seq<Item>): seq<string>
    decreases items
  {
    if items == [] then pieces else InsertAll(Insert(pieces, items[0]), items[1..])
  }

  /** `kept` chooses which of `items` appear, whole and in order. */
  function Select(items: seq<Item>, kept: seq<bool>): seq<string>
    requires |kept| == |items|
  {
    if items == [] then []
    else (if kept[0] then [Render(items[0])] else []) + Select(items[1..], kept[1..])
  }

  /** One insert appends its item whole or not at all, and never reaches the end of the buffer. */
  lemma InsertStaysInside(pieces: seq<string>, item: Item)
    requires |Join(pieces)| < DEFAULT_SIZE && Fits64(item)
    ensures |Join(Insert(pieces, item))| < DEFAULT_SIZE
    ensures Insert(pieces, item) == pieces || Insert(pieces, item) == pieces + [Render(item)]
  {
    if item.Number? { TextLength64(item.v); }
    JoinSnoc(pieces, Render(item));
  }

  /**
   Over any run of inserts the cursor stays strictly inside the buffer, and the
   line is a selection of the rendered items: none torn, none out of order.
   */
  lemma {:induction false} RunStaysInside(pieces: seq<string>, items: seq<Item>) returns (kept: seq<bool>)
    requires |Join(pieces)| < DEFAULT_SIZE
    requires forall i :: 0 <= i < |items| ==> Fits64(items[i])
    ensures |Join(InsertAll(pieces, items))| < DEFAULT_SIZE
    ensures |kept| == |items|
    ensures InsertAll(pieces, items) == pieces + Select(items, kept)
    decreases items
  {
    if items == [] {
      return [];
    }
    var piece, next := Render(items[0]), Insert(pieces, items[0]);
    InsertStaysInside(pieces, items[0]);
    hide Insert, Join, Render;
    var rest := RunStaysInside(next, items[1..]);
    var tail := Select(items[1..], rest);
    kept := [next != pieces] + rest;
    assert kept[1..] == rest;
    if next == pieces {
      assert Select(items, kept) == tail;
    } else {
      assert Select(items, kept) == [piece] + tail;
      assert pieces + [piece] + tail == pieces + ([piece] + tail);
    }
  }

  function RenderAll(items: seq<Item>): seq<string> {
    if items == [] then [] else [Render(items[0])] + RenderAll(items[1..])
  }

  /** A line that stays 32 bytes away from the end drops nothing. */
  lemma {:induction false} NothingDroppedWithRoom(pieces: seq<string>, items: seq<Item>)
    requires |Join(pieces + RenderAll(items))| + MAX_NUMERIC_SIZE <= DEFAULT_SIZE
    ensures InsertAll(pieces, items) == pieces + RenderAll(items)
    decreases items
  {
    if items != [] {
      var piece := Render(items[0]);
      assert pieces + RenderAll(items) == (pieces + [piece]) + RenderAll(items[1..]);
      JoinAppend(pieces + [piece], RenderAll(items[1..]));
      JoinSnoc(pieces, piece);
      NothingDroppedWithRoom(pieces + [piece], items[1..]);
    }
  }

  class LogStream {
    const buffer: FixedBuffer

    ghost predicate Valid()
      reads this, buffer, buffer.data
    {
      buffer.Valid() && buffer.data.Length == DEFAULT_SIZE
    }

    constructor ()
      ensures Valid() && fresh(buffer) && fresh(buffer.data) && buffer.pieces == []
    {
      buffer := new FixedBuffer(DEFAULT_SIZE);
    }

    method InsertBool(value: bool)
      requires Valid()
      modifies buffer, buffer.data
      ensures Valid() && buffer.pieces == Insert(old(buffer.pieces), Flag(value))
    {
      buffer.Append(if value then "1" else "0");
    }

    /** `FormatInteger`, which every integer overload of `<<` calls. */
    method FormatInteger(value: int)
      requires Valid() && INT64_MIN <= value <= UINT64_MAX
      modifies buffer, buffer.data
      ensures Valid() && buffer.pieces == Insert(old(buffer.pieces), Number(value))
    {
      if buffer.Available() >= MAX_NUMERIC_SIZE {
        TextLength64(value);
        var len := Convert(buffer.data, buffer.cur, value);
        assert buffer.data[..buffer.cur] == old(buffer.data[..buffer.cur]);
        buffer.Add(len, Text(value));
      }
    }

    method InsertCString(value: Item)
      requires Valid() && (value.CString? || value.Null?)
      modifies buffer, buffer.data
      ensures Valid() && buffer.pieces == Insert(old(buffer.pieces), value)
    {
      if value.Null? {
        buffer.Append("(NULL)");
      } else {
        buffer.Append(value.s);
      }
    }
  }
}
