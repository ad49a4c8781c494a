/**
 The growable byte buffer: an array with a reserved prefix and two indices.
 `Layout` is its abstract value. The class is proved against functions on
 `Layout`, and the lemmas show that these refine a plain byte queue in space
 proportional to the backlog.
 */
module Buffers {
  import opened Prelude

  const BUF_BEGIN: nat := 8
  const DEFAULT_SIZE: nat := 256
  const EXTRA_SIZE: nat := 4096
  const CRLF: string := "\r\n"

  /** What `readv` returns: an errno, or the bytes it scattered over the vectors. */
  datatype ReadResult = Failed(errno: int) | Received(bytes: string)

  /** The payload, where it starts and the size of the array under it. */
  datatype Layout = Layout(payload: string, readIndex: nat, size: nat) {
    predicate Valid() {
      BUF_BEGIN <= readIndex && readIndex + |payload| <= size
    }

    function Remain(): nat
      requires Valid()
    {
      size - readIndex - |payload|
    }

    /** Room for `len` more bytes by growing, or else by moving the payload to the front. */
    function Resize(len: nat): Layout
      requires Valid()
    {
      if readIndex - BUF_BEGIN + Remain() < len
      then this.(size := readIndex + |payload| + len)
      else this.(readIndex := BUF_BEGIN)
    }

    function Append(s: string): Layout
      requires Valid()
    {
      var roomy := if Remain() < |s| then Resize(|s|) else this;
      roomy.(payload := payload + s)
    }

    function Consume(len: nat): Layout
      requires len <= |payload|
    {
      Layout(payload[len..], readIndex + len, size)
    }

    function ConsumeAll(): Layout {
      Layout("", BUF_BEGIN, size)
    }

    /** Bytes past the free tail arrive in the stack buffer and are appended. */
    function Read(bytes: string): Layout
      requires Valid()
    {
      if |bytes| <= Remain() then this.(payload := payload + bytes)
      else this.(payload := payload + bytes[..Remain()]).Append(bytes[Remain()..])
    }
  }

  const FRESH: Layout := Layout("", BUF_BEGIN, BUF_BEGIN + DEFAULT_SIZE)

  predicate CrlfAt(s: string, i: int) {
    0 <= i && i + 2 <= |s| && s[i..i + 2] == CRLF
  }

  /** `r` is the first CRLF of `s` at or after `from`. */
  ghost predicate IsFirstCrlf(s: string, from: nat, r: Option<nat>) {
    match r
    case Some(i) => from <= i && CrlfAt(s, i) && forall k :: from <= k < i ==> !CrlfAt(s, k)
    case None => forall k :: from <= k ==> !CrlfAt(s, k)
  }

  class Buffer {
    var data: array<char>
    var readIndex: nat
    var writeIndex: nat

    ghost predicate Valid()
      reads this
    {
      BUF_BEGIN <= readIndex <= writeIndex <= data.Length
    }

    ghost function Contents(): Layout
      requires Valid()
      reads this, data
    {
      Layout(data[readIndex..writeIndex], readIndex, data.Length)
    }

    ghost function Payload(): string
      requires Valid()
      reads this, data
    {
      data[readIndex..writeIndex]
    }

    constructor ()
      ensures Valid() && fresh(data)
      ensures Contents() == FRESH
    {
      data := new char[BUF_BEGIN + DEFAULT_SIZE](_ => '\0');
      readIndex, writeIndex := BUF_BEGIN, BUF_BEGIN;
    }

    function PayloadSize(): nat
      requires Valid()
      reads this
    {
      writeIndex - readIndex
    }

    function RemainSize(): nat
      requires Valid()
      reads this
    {
      data.Length - writeIndex
    }

    /** The bytes the vectors of `ReadFd` can take: the tail and, when that is short, the stack buffer. */
    function ReadLimit(): nat
      requires Valid()
      reads this
    {
      RemainSize() + if RemainSize() < EXTRA_SIZE then EXTRA_SIZE else 0
    }

    /** Replaces the array by a longer one with the same bytes and a zeroed tail. */
    method Grow(size: nat)
      requires Valid() && data.Length <= size
      modifies this`data
      ensures Valid() && fresh(data) && data.Length == size
      ensures data[..old(data.Length)] == old(data[..])
    {
      var bigger := new char[size](_ => '\0');
      forall i | 0 <= i < data.Length { bigger[i] := data[i]; }
      data := bigger;
    }

    /** The forward copy of `std::copy`: source and destination may overlap. */
    method Compact()
      requires Valid()
      modifies this, data
      ensures Valid() && data == old(data)
      ensures Contents() == old(Contents()).(readIndex := BUF_BEGIN)
    {
      var size := PayloadSize();
      ghost var shift := readIndex - BUF_BEGIN;
      for i := 0 to size
        invariant unchanged(this)
        invariant forall k :: BUF_BEGIN <= k < BUF_BEGIN + i ==> data[k] == old(data[k + shift])
        invariant forall k :: BUF_BEGIN + i <= k < data.Length ==> data[k] == old(data[k])
      {
        data[BUF_BEGIN + i] := data[readIndex + i];
      }
      readIndex := BUF_BEGIN;
      writeIndex := readIndex + size;
    }

    method Resize(len: nat)
      requires Valid()
      modifies this, data
      ensures Valid() && (data == old(data) || fresh(data))
      ensures Contents() == old(Contents()).Resize(len)
      ensures RemainSize() >= len
    {
      if readIndex - BUF_BEGIN + RemainSize() < len {
        ghost var was := data[..];
        Grow(writeIndex + len);
        assert data[readIndex..writeIndex] == was[readIndex..writeIndex] by {
          assert forall k :: readIndex <= k < writeIndex ==> data[k] == data[..|was|][k];
        }
      } else {
        Compact();
      }
    }

    /** `std::copy` of `s` to the tail, which must have room. */
    method CopyIn(s: string)
      requires Valid() && |s| <= RemainSize()
      modifies this`writeIndex, data
      ensures Valid() && Contents() == old(Contents()).(payload := old(Payload()) + s)
    {
      forall i | 0 <= i < |s| { data[writeIndex + i] := s[i]; }
      assert data[readIndex..writeIndex] == old(data[readIndex..writeIndex]);
      assert data[readIndex..writeIndex + |s|] == data[readIndex..writeIndex] + s;
      writeIndex := writeIndex + |s|;
    }

    method Append(s: string)
      requires Valid()
      modifies this, data
      ensures Valid() && (data == old(data) || fresh(data))
      ensures Contents() == old(Contents()).Append(s)
    {
      if RemainSize() < |s| {
        Resize(|s|);
      }
      CopyIn(s);
    }

    /** Scatter read: the kernel fills the free tail first and then the stack buffer. */
    method ReadFd(result: ReadResult) returns (n: int, savedErrno: Option<int>)
      requires Valid()
      requires result.Received? ==> |result.bytes| <= ReadLimit()
      modifies this, data
      ensures Valid() && (data == old(data) || fresh(data))
      ensures result.Failed? ==> n < 0 && savedErrno == Some(result.errno) && Contents() == old(Contents())
      ensures result.Received? ==> n == |result.bytes| && savedErrno == None
                                   && Contents() == old(Contents()).Read(result.bytes)
    {
      savedErrno := None;
      if result.Failed? {
        savedErrno := Some(result.errno);
        return -1, savedErrno;
      }
      var writable := RemainSize();
      n := |result.bytes|;
      if n <= writable {
        CopyIn(result.bytes);
      } else {
        CopyIn(result.bytes[..writable]);
        Append(result.bytes[writable..]);
      }
    }

    method MoveReadIndex(len: nat)
      requires Valid() && len <= PayloadSize()
      modifies this`readIndex
      ensures Valid() && Contents() == old(Contents()).Consume(len)
    {
      readIndex := readIndex + len;
    }

    /** `end` is a position in the array, as `findCRLF` returns it. */
    method MoveReadIndexUntil(end: nat)
      requires Valid() && readIndex <= end <= writeIndex
      modifies this`readIndex
      ensures Valid() && Contents() == old(Contents()).Consume(end - old(readIndex))
    {
      MoveReadIndex(end - readIndex);
    }

    method MoveReadIndexAll()
      requires Valid()
      modifies this`readIndex, this`writeIndex
      ensures Valid() && Contents() == old(Contents()).ConsumeAll()
    {
      readIndex, writeIndex := BUF_BEGIN, BUF_BEGIN;
    }

    method GetString() returns (s: string)
      requires Valid()
      modifies this`readIndex, this`writeIndex
      ensures Valid() && s == old(Payload()) && Contents() == old(Contents()).ConsumeAll()
    {
      s := data[readIndex..writeIndex];
      MoveReadIndexAll();
    }

    /** Position of the first CRLF in the payload at or after `start`. */
    method FindCrlfFrom(start: nat) returns (position: Option<nat>)
      requires Valid() && readIndex <= start <= writeIndex
      ensures position.Some? ==> start <= position.value && position.value + 2 <= writeIndex
      ensures IsFirstCrlf(Payload(), start - readIndex,
                          if position.Some? then Some(position.value - readIndex) else None)
    {
      var i := start;
      while i + 2 <= writeIndex
        invariant start <= i <= writeIndex
        invariant forall k :: start - readIndex <= k < i - readIndex ==> !CrlfAt(Payload(), k)
      {
        assert Payload()[i - readIndex..i - readIndex + 2] == [data[i], data[i + 1]];
        if data[i] == '\r' && data[i + 1] == '\n' {
          return Some(i);
        }
        i := i + 1;
      }
      return None;
    }

    method FindCrlf() returns (position: Option<nat>)
      requires Valid()
      ensures position.Some? ==> readIndex <= position.value && position.value + 2 <= writeIndex
      ensures IsFirstCrlf(Payload(), 0, if position.Some? then Some(position.value - readIndex) else None)
    {
      position := FindCrlfFrom(readIndex);
    }
  }

  // ---------------------------------------------------------------------------
  // Runs of operations: a byte queue, in bounded space

  datatype Op = AppendOp(s: string) | ReadOp(bytes: string) | ConsumeOp(len: nat) | ConsumeAllOp

  predicate Enabled(b: Layout, op: Op) {
    op.ConsumeOp? ==> op.len <= |b.payload|
  }

  function Apply(b: Layout, op: Op): Layout
    requires b.Valid() && Enabled(b, op)
  {
    match op
    case AppendOp(s) => b.Append(s)
    case ReadOp(bytes) => b.Read(bytes)
    case ConsumeOp(len) => b.Consume(len)
    case ConsumeAllOp => b.ConsumeAll()
  }

  /** The bytes a step adds at the back of the payload. */
  function Given(op: Op): string {
    match op
    case AppendOp(s) => s
    case ReadOp(bytes) => bytes
    case _ => ""
  }

  /** What a growing step needs: a read fills the free tail before it grows. */
  function Needed(b: Layout, op: Op): int
    requires b.Valid()
  {
    |b.payload| + 2 * |Given(op)| + 7 - if op.ReadOp? then b.Remain() else 0
  }

  /** If the step grows the array, then its need respects `bound`. */
  predicate GrowsWithin(b: Layout, op: Op, bound: nat)
    requires b.Valid() && Enabled(b, op)
  {
    Apply(b, op).size > b.size ==> Needed(b, op) <= bound
  }

  lemma StepIsSpaceBounded(b: Layout, op: Op, bound: nat)
    requires b.Valid() && Enabled(b, op)
    ensures Apply(b, op).Valid() && b.size <= Apply(b, op).size
    ensures b.size <= bound && GrowsWithin(b, op, bound) ==> Apply(b, op).size <= bound
  {}

  /** The bytes a step takes from the front of the payload before it. */
  function Taken(payload: string, op: Op): string
    requires op.ConsumeOp? ==> op.len <= |payload|
  {
    match op
    case ConsumeOp(len) => payload[..len]
    case ConsumeAllOp => payload
    case _ => ""
  }

  /** Bytes enter at the back of the payload and leave at its front. */
  lemma StepIsByteQueue(b: Layout, op: Op)
    requires b.Valid() && Enabled(b, op)
    ensures b.payload + Given(op) == Taken(b.payload, op) + Apply(b, op).payload
  {
    if op.ReadOp? && |op.bytes| > b.Remain() {
      var free := b.Remain();
      assert b.payload + op.bytes[..free] + op.bytes[free..] == b.payload + op.bytes;
    }
  }

  /** However the kernel scatters a read, its bytes join the payload in order. */
  lemma ReadAddsAll(b: Layout, bytes: string)
    requires b.Valid()
    ensures b.Read(bytes).payload == b.payload + bytes
  {
    StepIsByteQueue(b, ReadOp(bytes));
  }

  /** `trace[i]` is the buffer before `ops[i]`. */
  predicate IsRun(trace: seq<Layout>, ops: seq<Op>) {
    |trace| == |ops| + 1
    && (forall i :: 0 <= i < |trace| ==> trace[i].Valid())
    && forall i :: 0 <= i < |ops| ==> Enabled(trace[i], ops[i]) && trace[i + 1] == Apply(trace[i], ops[i])
  }

  function Appended(ops: seq<Op>): string {
    if ops == [] then "" else Appended(ops[..|ops| - 1]) + Given(ops[|ops| - 1])
  }

  lemma Regroup(rest: string, before: string, added: string, gone: string, after: string)
    requires before + added == gone + after
    ensures (rest + before) + added == (rest + gone) + after
  {
    assert (rest + before) + added == rest + (before + added);
  }

  /** What the first `n` steps of a run took out, in order. */
  function Consumed(trace: seq<Layout>, ops: seq<Op>, n: nat): string
    requires IsRun(trace, ops) && n <= |ops|
  {
    if n == 0 then "" else Consumed(trace, ops, n - 1) + Taken(trace[n - 1].payload, ops[n - 1])
  }

  /** Over any run from a fresh buffer, everything appended is what was taken out and then the payload. */
  lemma {:induction false} RunIsByteQueue(trace: seq<Layout>, ops: seq<Op>, n: nat)
    requires IsRun(trace, ops) && trace[0] == FRESH && n <= |ops|
    ensures Appended(ops[..n]) == Consumed(trace, ops, n) + trace[n].payload
  {
    if n > 0 {
      RunIsByteQueue(trace, ops, n - 1);
      StepIsByteQueue(trace[n - 1], ops[n - 1]);
      assert ops[..n][..n - 1] == ops[..n - 1];
      Regroup(Consumed(trace, ops, n - 1), trace[n - 1].payload, Given(ops[n - 1]),
              Taken(trace[n - 1].payload, ops[n - 1]), trace[n].payload);
    }
  }

  /**
   Space bound: the array never exceeds the larger of its initial size and, over the
   growing steps, payload + 2 * length + 7 less the tail a read has filled, however
   many bytes pass through.
   */
  lemma {:induction false} RunIsSpaceBounded(trace: seq<Layout>, ops: seq<Op>, n: nat, bound: nat)
    requires IsRun(trace, ops) && trace[0] == FRESH && n <= |ops|
    requires forall i :: 0 <= i < n ==> GrowsWithin(trace[i], ops[i], bound)
    ensures trace[n].size <= if bound > 264 then bound else 264
  {
    if n > 0 {
      RunIsSpaceBounded(trace, ops, n - 1, bound);
      StepIsSpaceBounded(trace[n - 1], ops[n - 1], if bound > FRESH.size then bound else FRESH.size);
    }
  }
}
