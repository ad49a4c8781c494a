/**
 The asynchronous logger's double buffering. Buffers are heap objects that move
 between front-end and back-end roles under one mutex. `Log` is the abstract
 value; Append runs on any thread, the other three steps are the thirds of a
 ThreadFunc round, between which Append may run.
 */
module AsyncLoggings {
  import opened Decimal
  import opened LogStreams
  import opened Prelude

  const BIG_SIZE: nat := 4000 * 1000
  const MAX_TO_WRITE: nat := 25

  type Chunk = seq<string>

  /** Where the back-end thread is: at the top of its loop, holding a batch, or having written it. */
  datatype Phase = Top | Taken | Flushed

  datatype Log = Log(
    phase: Phase,
    current: Chunk,
    hasNext: bool,           // next_buffer_ is not null
    hasSpare: bool,          // new_buffer_2 is not null
    buffers: seq<Chunk>,
    inFlight: seq<Chunk>,    // taken and not yet written or dropped
    rounds: seq<seq<Chunk>>, // the batch of each round that has been written
    file: string,
    accepted: seq<string>)   // messages the logger can hold, in lock order

  const FRESH: Log := Log(Top, [], true, true, [], [], [], "", [])

  function Report(dropped: nat): string {
    "Dropped log messages , " + Text(dropped) + " larger buffers\n"
  }

  function Fits(chunk: Chunk, msg: string): bool {
    |Join(chunk)| + |msg| < BIG_SIZE
  }

  /** The messages an Append adds: none if no buffer can hold it. */
  function Told(msg: string): seq<string> {
    if |msg| < BIG_SIZE then [msg] else []
  }

  function Appended(s: Log, msg: string): Log {
    var accepted := s.accepted + Told(msg);
    if Fits(s.current, msg) then s.(current := s.current + [msg], accepted := accepted)
    else s.(buffers := s.buffers + [s.current], hasNext := false, current := Told(msg), accepted := accepted)
  }

  /** The critical section of a round, after its timed wait. */
  function TakeBuffers(s: Log): Log {
    s.(phase := Taken, inFlight := s.buffers + [s.current], buffers := [], current := [],
       hasNext := true, hasSpare := s.hasNext)
  }

  /** What a round writes: everything, or a report and the two oldest buffers. */
  function RenderRound(round: seq<Chunk>): string {
    if |round| > MAX_TO_WRITE then Report(|round| - 2) + Join(Join(round[..2]))
    else Join(Join(round))
  }

  function WriteOut(s: Log): Log {
    s.(phase := Flushed, inFlight := [], rounds := s.rounds + [s.inFlight], file := s.file + RenderRound(s.inFlight))
  }

  function Recycle(s: Log): Log {
    s.(phase := Top, hasSpare := true)
  }

  /** The text of a round, with the number its report shows. */
  lemma RenderedRound(round: seq<Chunk>) returns (number: string)
    ensures |round| <= 25 ==> RenderRound(round) == Join(Join(round))
    ensures |round| > 25 ==>
              && RenderRound(round) == "Dropped log messages , " + number + " larger buffers\n" + Join(Join(round[..2]))
              && Canonical(number) && ReadInt(number) + 2 == |round|
  {
    number := "";
    if |round| > 25 {
      number := Text(|round| - 2);
      ReadText(|round| - 2);
      TextCanonical(|round| - 2);
    }
  }

  function RenderRounds(rounds: seq<seq<Chunk>>): string {
    if rounds == [] then "" else RenderRounds(rounds[..|rounds| - 1]) + RenderRound(rounds[|rounds| - 1])
  }

  function TakenMessages(rounds: seq<seq<Chunk>>): seq<string> {
    Join(Join(rounds))
  }

  /** The messages not yet written or dropped, oldest first. */
  function Pending(s: Log): seq<string> {
    Join(s.inFlight) + Join(s.buffers) + s.current
  }

  predicate Inv(s: Log) {
    && s.accepted == TakenMessages(s.rounds) + Pending(s)
    && s.file == RenderRounds(s.rounds)
    && |Join(s.current)| < BIG_SIZE
    && (!s.hasNext ==> s.buffers != [])
    && (s.phase.Top? ==> s.hasSpare && s.inFlight == [])
    && (s.phase.Taken? ==> s.inFlight != [] && (!s.hasSpare ==> |s.inFlight| >= 2))
    && (s.phase.Flushed? ==> s.inFlight == [])
  }

  datatype Step = AppendStep(msg: string) | TakeStep | WriteStep | RecycleStep

  predicate Enabled(s: Log, step: Step) {
    match step
    case AppendStep(_) => true
    case TakeStep => s.phase.Top?
    case WriteStep => s.phase.Taken?
    case RecycleStep => s.phase.Flushed?
  }

  function Next(s: Log, step: Step): Log {
    match step
    case AppendStep(msg) => Appended(s, msg)
    case TakeStep => TakeBuffers(s)
    case WriteStep => WriteOut(s)
    case RecycleStep => Recycle(s)
  }

  lemma Regroup<T>(a: seq<T>, b: seq<T>, c: seq<T>, d: seq<T>)
    ensures a + b + c + d == a + (b + c) + d == a + b + (c + d)
  {}

  /** A buffer is queued exactly when the line would leave it no byte to spare; the line goes on in the next one. */
  lemma AppendedExactly(s: Log, msg: string)
    ensures var t := Appended(s, msg);
            if |Join(s.current)| + |msg| < 4_000_000
            then t.current == s.current + [msg] && t.buffers == s.buffers && t.hasNext == s.hasNext
            else t.current == (if |msg| < 4_000_000 then [msg] else [])
                 && t.buffers == s.buffers + [s.current] && !t.hasNext
  {}

  lemma PendingAfterAppend(s: Log, msg: string)
    requires |Join(s.current)| < BIG_SIZE
    ensures Pending(Appended(s, msg)) == Pending(s) + Told(msg)
    ensures Appended(s, msg).accepted == s.accepted + Told(msg)
  {
    Regroup(Join(s.inFlight), Join(s.buffers), s.current, Told(msg));
    if !Fits(s.current, msg) { JoinSnoc(s.buffers, s.current); }
  }

  lemma CurrentStaysInside(s: Log, msg: string)
    requires |Join(s.current)| < BIG_SIZE
    ensures |Join(Appended(s, msg).current)| < BIG_SIZE
  {
    JoinSnoc(s.current, msg);
    JoinSnoc([], msg);
    assert [] + [msg] == [msg];
  }

  lemma AppendKeepsInv(s: Log, msg: string)
    requires Inv(s)
    ensures Inv(Appended(s, msg))
  {
    hide Join, TakenMessages, RenderRounds, Pending, Told, Fits;
    PendingAfterAppend(s, msg);
    CurrentStaysInside(s, msg);
    assert s.accepted + Told(msg) == TakenMessages(s.rounds) + (Pending(s) + Told(msg));
  }

  lemma PendingAfterTake(s: Log)
    requires s.inFlight == []
    ensures Pending(TakeBuffers(s)) == Pending(s)
  {
    JoinSnoc(s.buffers, s.current);
  }

  lemma TakeKeepsInv(s: Log)
    requires Inv(s) && s.phase.Top?
    ensures Inv(TakeBuffers(s))
  {
    PendingAfterTake(s);
  }

  lemma PendingAfterWrite(s: Log)
    ensures Join(s.inFlight) + Pending(WriteOut(s)) == Pending(s)
  {
    var taken, queued := Join(s.inFlight), Join(s.buffers);
    assert Join(WriteOut(s).inFlight) == [];
    hide Join;
    assert Pending(WriteOut(s)) == queued + s.current;
    assert taken + (queued + s.current) == taken + queued + s.current;
  }

  lemma TakenAfterWrite(rounds: seq<seq<Chunk>>, round: seq<Chunk>)
    ensures TakenMessages(rounds + [round]) == TakenMessages(rounds) + Join(round)
    ensures RenderRounds(rounds + [round]) == RenderRounds(rounds) + RenderRound(round)
  {
    hide RenderRound;
    JoinSnoc(rounds, round);
    JoinAppend(Join(rounds), round);
    assert (rounds + [round])[..|rounds|] == rounds;
  }

  lemma WriteKeepsInv(s: Log)
    requires Inv(s) && s.phase.Taken?
    ensures Inv(WriteOut(s))
  {
    hide RenderRound, RenderRounds, TakenMessages, Join, Pending;
    PendingAfterWrite(s);
    TakenAfterWrite(s.rounds, s.inFlight);
    var taken, written, rest := TakenMessages(s.rounds), Join(s.inFlight), Pending(WriteOut(s));
    assert taken + (written + rest) == (taken + written) + rest;
  }

  lemma StepKeepsInv(s: Log, step: Step)
    requires Inv(s) && Enabled(s, step)
    ensures Inv(Next(s, step))
  {
    match step
    case AppendStep(msg) => AppendKeepsInv(s, msg);
    case TakeStep => TakeKeepsInv(s);
    case WriteStep => WriteKeepsInv(s);
    case RecycleStep =>
  }

  /** An append in the middle of the unlocked part of a round might as well come before or after it. */
  lemma UnlockedPartIsAtomic(s: Log, msg: string)
    ensures WriteOut(Appended(s, msg)) == Appended(WriteOut(s), msg)
    ensures Recycle(Appended(s, msg)) == Appended(Recycle(s), msg)
  {}

  predicate IsRun(trace: seq<Log>, steps: seq<Step>) {
    && |trace| == |steps| + 1
    && trace[0] == FRESH
    && forall i :: 0 <= i < |steps| ==> Enabled(trace[i], steps[i]) && trace[i + 1] == Next(trace[i], steps[i])
  }

  lemma {:induction false} RunKeepsInv(trace: seq<Log>, steps: seq<Step>, n: nat)
    requires IsRun(trace, steps) && n <= |steps|
    ensures Inv(trace[n])
  {
    if n > 0 {
      RunKeepsInv(trace, steps, n - 1);
      StepKeepsInv(trace[n - 1], steps[n - 1]);
    }
  }

  /** The messages a run was given that a buffer can hold. */
  function Offered(steps: seq<Step>, n: nat): seq<string>
    requires n <= |steps|
  {
    if n == 0 then []
    else Offered(steps, n - 1)
         + if steps[n - 1].AppendStep? && |steps[n - 1].msg| < 4_000_000 then [steps[n - 1].msg] else []
  }

  lemma StepAccepts(s: Log, step: Step)
    ensures Next(s, step).accepted == s.accepted + if step.AppendStep? then Told(step.msg) else []
  {
    assert s.accepted + [] == s.accepted;
  }

  lemma {:induction false} AcceptedIsOffered(trace: seq<Log>, steps: seq<Step>, n: nat)
    requires IsRun(trace, steps) && n <= |steps|
    ensures trace[n].accepted == Offered(steps, n)
  {
    if n > 0 {
      AcceptedIsOffered(trace, steps, n - 1);
      StepAccepts(trace[n - 1], steps[n - 1]);
    }
  }

  /**
   Accounting, in every interleaving: the messages offered are, in order and
   whole, those of the rounds written, then those still buffered; and the file is
   the rounds' renderings, each dropping exactly the buffers it reports.
   */
  lemma Accounting(trace: seq<Log>, steps: seq<Step>, n: nat)
    requires IsRun(trace, steps) && n <= |steps|
    ensures Offered(steps, n) == TakenMessages(trace[n].rounds) + Pending(trace[n])
    ensures trace[n].file == RenderRounds(trace[n].rounds)
  {
    RunKeepsInv(trace, steps, n);
    AcceptedIsOffered(trace, steps, n);
  }

  lemma {:induction false} RenderWithoutOverload(rounds: seq<seq<Chunk>>)
    requires forall i :: 0 <= i < |rounds| ==> |rounds[i]| <= MAX_TO_WRITE
    ensures RenderRounds(rounds) == Join(TakenMessages(rounds))
  {
    if rounds != [] {
      var init, last := rounds[..|rounds| - 1], rounds[|rounds| - 1];
      RenderWithoutOverload(init);
      assert rounds == init + [last];
      JoinSnoc(init, last);
      JoinAppend(Join(init), last);
      JoinAppend(Join(Join(init)), Join(last));
    }
  }

  /** With no overload round nothing is lost: file and buffers together are the whole stream. */
  lemma NothingLostWithoutOverload(trace: seq<Log>, steps: seq<Step>, n: nat)
    requires IsRun(trace, steps) && n <= |steps|
    requires forall i :: 0 <= i < |trace[n].rounds| ==> |trace[n].rounds[i]| <= MAX_TO_WRITE
    ensures trace[n].file + Join(Pending(trace[n])) == Join(Offered(steps, n))
  {
    Accounting(trace, steps, n);
    RenderWithoutOverload(trace[n].rounds);
    JoinAppend(TakenMessages(trace[n].rounds), Pending(trace[n]));
  }

  /** One part of a round after the other: all there is is taken, and what is taken becomes the next round. */
  lemma RoundTakesAll(s: Log)
    ensures var t := TakeBuffers(s);
            t.current == [] && t.buffers == [] && Join(t.inFlight) == Join(s.buffers) + s.current
    ensures WriteOut(s).rounds == s.rounds + [s.inFlight]
  {
    JoinSnoc(s.buffers, s.current);
  }

  predicate WrittenSince(steps: seq<Step>, i: nat, n: nat)
    requires n <= |steps|
  {
    exists j :: i < j < n && steps[j].WriteStep?
  }

  /** Either the batch `taken` is still in flight, as first taken, or all that had been offered is in a round. */
  predicate OnItsWay(s: Log, taken: seq<Chunk>, before: seq<seq<Chunk>>, offered: seq<string>, written: bool) {
    if written then offered <= TakenMessages(s.rounds)
    else s.phase.Taken? && s.inFlight == taken && s.rounds == before
  }

  lemma StepFlushes(s: Log, step: Step, taken: seq<Chunk>, before: seq<seq<Chunk>>, offered: seq<string>, written: bool)
    requires Enabled(s, step) && OnItsWay(s, taken, before, offered, written)
    requires offered == TakenMessages(before) + Join(taken)
    ensures OnItsWay(Next(s, step), taken, before, offered, written || step.WriteStep?)
  {
    hide TakenMessages, Join;
    if step.WriteStep? {
      TakenAfterWrite(s.rounds, s.inFlight);
      if written { PrefixGrows(offered, TakenMessages(s.rounds), Join(s.inFlight)); }
    }
  }

  lemma PrefixGrows(a: seq<string>, b: seq<string>, c: seq<string>)
    requires a <= b
    ensures a <= b + c
  {}

  /** A batch stays as it is until it is written; by then its round holds all that was offered before it was taken. */
  lemma {:induction false} RoundFlushes(trace: seq<Log>, steps: seq<Step>, i: nat, n: nat)
    requires IsRun(trace, steps) && i < n <= |steps| && steps[i].TakeStep?
    ensures OnItsWay(trace[n], trace[i + 1].inFlight, trace[i].rounds, Offered(steps, i), WrittenSince(steps, i, n))
    decreases n
  {
    hide Enabled, Next, TakenMessages, Join, Offered, OnItsWay;
    if i + 1 == n {
      BatchIsTaken(trace, steps, i);
    } else {
      RoundFlushes(trace, steps, i, n - 1);
      TakenIsOffered(trace, steps, i);
      assert WrittenSince(steps, i, n) <==> WrittenSince(steps, i, n - 1) || steps[n - 1].WriteStep?;
      StepFlushes(trace[n - 1], steps[n - 1], trace[i + 1].inFlight, trace[i].rounds, Offered(steps, i),
                  WrittenSince(steps, i, n - 1));
    }
  }

  lemma BatchIsTaken(trace: seq<Log>, steps: seq<Step>, i: nat)
    requires IsRun(trace, steps) && i < |steps| && steps[i].TakeStep?
    ensures OnItsWay(trace[i + 1], trace[i + 1].inFlight, trace[i].rounds, Offered(steps, i), false)
  {
    assert Enabled(trace[i], steps[i]) && trace[i + 1] == TakeBuffers(trace[i]);
  }

  lemma TakenIsOffered(trace: seq<Log>, steps: seq<Step>, i: nat)
    requires IsRun(trace, steps) && i < |steps| && steps[i].TakeStep?
    ensures Offered(steps, i) == TakenMessages(trace[i].rounds) + Join(trace[i + 1].inFlight)
  {
    Accounting(trace, steps, i);
    RunKeepsInv(trace, steps, i);
    assert Enabled(trace[i], steps[i]) && trace[i + 1] == TakeBuffers(trace[i]);
    RoundTakesAll(trace[i]);
    assert [] + Join(trace[i].buffers) == Join(trace[i].buffers);
  }

  // ---------------------------------------------------------------------------
  // The logger object and its buffers

  /** What the logger last used a buffer for. */
  datatype Role = Current | Queued(i: nat) | Batch(i: nat) | Waiting(spare: Spare)

  /** `next_buffer_`, `new_buffer_1` and `new_buffer_2`. */
  datatype Spare = FrontSpare | BackSpare1 | BackSpare2

  type Roles = map<FixedBuffer, Role>

  predicate Is(role: Roles, b: FixedBuffer, r: Role) {
    b in role && role[b] == r
  }

  predicate IsIf(role: Roles, b: FixedBuffer?, r: Role) {
    b != null ==> Is(role, b, r)
  }

  predicate AllQueued(role: Roles, bs: seq<FixedBuffer>) {
    forall i :: 0 <= i < |bs| ==> Is(role, bs[i], Queued(i))
  }

  predicate AllBatch(role: Roles, bs: seq<FixedBuffer>) {
    forall i :: 0 <= i < |bs| ==> Is(role, bs[i], Batch(i))
  }

  /** Each buffer is in its role: the roles being distinct, no buffer is in two places. */
  predicate Placed(role: Roles, current: FixedBuffer, next: FixedBuffer?, buffers: seq<FixedBuffer>,
                   spare1: FixedBuffer?, spare2: FixedBuffer?, toWrite: seq<FixedBuffer>)
  {
    && Is(role, current, Current) && IsIf(role, next, Waiting(FrontSpare))
    && IsIf(role, spare1, Waiting(BackSpare1)) && IsIf(role, spare2, Waiting(BackSpare2))
    && AllQueued(role, buffers) && AllBatch(role, toWrite)
  }

  ghost function Arrays(bs: set<FixedBuffer>): (arrays: set<object>)
    ensures forall o :: o in arrays ==> o is array<char>
  {
    set b | b in bs :: b.data
  }

  ghost predicate BufferOk(b: FixedBuffer)
    reads b, b.data
  {
    b.Valid() && b.data.Length == BIG_SIZE
  }

  /** Every buffer is in order, has an array of its own, and is empty while it waits. */
  ghost predicate Sound(role: Roles)
    reads role.Keys, Arrays(role.Keys)
  {
    && (forall b :: b in role ==> BufferOk(b) && (role[b].Waiting? ==> b.pieces == [] && b.cur == 0))
    && (forall b, c :: b in role && c in role && b != c ==> b.data != c.data)
  }

  /** The same buffers and perhaps a new one; none newly waiting, except perhaps that one. */
  predicate Reassigned(role: Roles, role': Roles, extra: set<FixedBuffer>) {
    role'.Keys == role.Keys + extra
    && forall b :: b in role' && role'[b].Waiting? ==> b in extra || (b in role && role[b].Waiting?)
  }

  /** `chunks` are what the buffers contain. */
  ghost predicate Holds(bs: seq<FixedBuffer>, chunks: seq<Chunk>)
    reads bs
  {
    |chunks| == |bs| && forall i :: 0 <= i < |bs| ==> bs[i].pieces == chunks[i]
  }

  lemma PlacedFresh(b0: FixedBuffer, b1: FixedBuffer, b2: FixedBuffer, b3: FixedBuffer)
    requires b0 != b1 && b0 != b2 && b0 != b3 && b1 != b2 && b1 != b3 && b2 != b3
    ensures var role := map[b0 := Current, b1 := Waiting(FrontSpare),
                            b2 := Waiting(BackSpare1), b3 := Waiting(BackSpare2)];
            role.Keys == {b0, b1, b2, b3} && Placed(role, b0, b1, [], b2, b3, [])
  {}

  lemma SoundFresh(b0: FixedBuffer, b1: FixedBuffer, b2: FixedBuffer, b3: FixedBuffer)
    requires BufferOk(b0) && BufferOk(b1) && BufferOk(b2) && BufferOk(b3)
    requires b0.data != b1.data && b0.data != b2.data && b0.data != b3.data
    requires b1.data != b2.data && b1.data != b3.data && b2.data != b3.data
    requires b0.cur == b1.cur == b2.cur == b3.cur == 0
    requires b0.pieces == b1.pieces == b2.pieces == b3.pieces == []
    ensures Sound(map[b0 := Current, b1 := Waiting(FrontSpare), b2 := Waiting(BackSpare1), b3 := Waiting(BackSpare2)])
  {}

  /** The roles once `empty`, the spare buffer or a new one, has taken over from the current buffer. */
  lemma QueueCurrent(role: Roles, current: FixedBuffer, empty: FixedBuffer, next: FixedBuffer?,
                     buffers: seq<FixedBuffer>, spare1: FixedBuffer?, spare2: FixedBuffer?, toWrite: seq<FixedBuffer>)
    returns (role': Roles)
    requires Placed(role, current, next, buffers, spare1, spare2, toWrite)
    requires empty == next || (next == null && empty !in role)
    ensures Reassigned(role, role', {empty})
    ensures empty == next ==> Reassigned(role, role', {})
    ensures Placed(role', empty, null, buffers + [current], spare1, spare2, toWrite)
  {
    role' := role[current := Queued(|buffers|)][empty := Current];
    forall i | 0 <= i <= |buffers| ensures Is(role', (buffers + [current])[i], Queued(i)) {
      if i < |buffers| { assert Is(role, buffers[i], Queued(i)); }
    }
    forall i | 0 <= i < |toWrite| ensures Is(role', toWrite[i], Batch(i)) {
      assert Is(role, toWrite[i], Batch(i));
    }
  }

  lemma HoldsSnoc(bs: seq<FixedBuffer>, chunks: seq<Chunk>, b: FixedBuffer)
    requires Holds(bs, chunks)
    ensures Holds(bs + [b], chunks + [b.pieces])
  {}

  lemma HoldsNothing()
    ensures Holds([], [])
  {}

  lemma JoinNothing()
    ensures Join(Join<string>([])) == []
  {}

  /** The roles once the queue, with the current buffer behind it, has become the batch. */
  lemma SwapPlaced(role: Roles, current: FixedBuffer, next: FixedBuffer?, buffers: seq<FixedBuffer>,
                   spare1: FixedBuffer, spare2: FixedBuffer?) returns (role': Roles)
    requires Placed(role, current, next, buffers, spare1, spare2, [])
    ensures Reassigned(role, role', {}) && Placed(role', spare1, next, [], null, spare2, buffers + [current])
  {
    role' := (map b | b in role :: if role[b].Queued? then Batch(role[b].i) else role[b])
             [current := Batch(|buffers|)][spare1 := Current];
    forall i | 0 <= i <= |buffers| ensures Is(role', (buffers + [current])[i], Batch(i)) {
      if i < |buffers| { assert Is(role, buffers[i], Queued(i)); }
    }
  }

  /** The roles once the back-end's second spare buffer has become the front-end's. */
  lemma RefillPlaced(role: Roles, current: FixedBuffer, buffers: seq<FixedBuffer>, spare1: FixedBuffer?,
                     spare2: FixedBuffer, toWrite: seq<FixedBuffer>) returns (role': Roles)
    requires Placed(role, current, null, buffers, spare1, spare2, toWrite)
    ensures Reassigned(role, role', {}) && Placed(role', current, spare2, buffers, spare1, null, toWrite)
  {
    role' := role[spare2 := Waiting(FrontSpare)];
    forall i | 0 <= i < |buffers| ensures Is(role', buffers[i], Queued(i)) { assert Is(role, buffers[i], Queued(i)); }
    forall i | 0 <= i < |toWrite| ensures Is(role', toWrite[i], Batch(i)) { assert Is(role, toWrite[i], Batch(i)); }
  }

  /** With the same buffers, none of them newly waiting, everything stays in order. */
  lemma SoundReassigned(role: Roles, role': Roles)
    requires Sound(role) && Reassigned(role, role', {})
    ensures Sound(role') && role'.Keys == role.Keys
  {}

  /** So it does when an empty buffer with an array of its own joins them, or was already there. */
  lemma SoundExtended(role: Roles, role': Roles, b: FixedBuffer)
    requires Sound(role) && Reassigned(role, role', {b})
    requires BufferOk(b) && b.pieces == [] && b.cur == 0
    requires b in role || forall c :: c in role ==> c.data != b.data
    ensures Sound(role')
  {}

  lemma WaitingIsEmpty(role: Roles, b: FixedBuffer, spare: Spare)
    requires Sound(role) && Is(role, b, Waiting(spare))
    ensures b.pieces == [] && b.cur == 0
  {}

  lemma SpelledOut(role: Roles, b: FixedBuffer)
    requires Sound(role) && b in role
    ensures b.cur <= b.data.Length && b.data[..b.cur] == Join(b.pieces)
  {
    assert BufferOk(b);
  }

  lemma MeasuredOut(role: Roles, b: FixedBuffer)
    requires Sound(role) && b in role
    ensures b.cur == |Join(b.pieces)|
  {
    SpelledOut(role, b);
  }

  method ClearedBuffer() returns (b: FixedBuffer)
    ensures fresh(b) && fresh(b.data) && BufferOk(b) && b.cur == 0 && b.pieces == []
  {
    b := new FixedBuffer(BIG_SIZE);
  }

  /** A pair of cleared buffers: the front-end's, and the back-end's. */
  method TwoBuffers() returns (a: FixedBuffer, b: FixedBuffer)
    ensures fresh(a) && fresh(b) && fresh(a.data) && fresh(b.data) && a != b && a.data != b.data
    ensures BufferOk(a) && BufferOk(b)
    ensures a.cur == 0 && a.pieces == [] && b.cur == 0 && b.pieces == []
  {
    a := ClearedBuffer();
    b := ClearedBuffer();
  }

  class AsyncLogging {
    // shared, under the mutex
    var current: FixedBuffer
    var next: FixedBuffer?
    var buffers: seq<FixedBuffer>
    // ThreadFunc's own
    var newBuffer1: FixedBuffer?
    var newBuffer2: FixedBuffer?
    var toWrite: seq<FixedBuffer>
    var file: string
    ghost var role: Roles
    ghost var queuedChunks: seq<Chunk>
    ghost var takenChunks: seq<Chunk>
    ghost var phase: Phase
    ghost var rounds: seq<seq<Chunk>>
    ghost var accepted: seq<string>

    ghost predicate Shape()
      reads this`role, this`current, this`next, this`buffers, this`newBuffer1, this`newBuffer2, this`toWrite
      reads this`queuedChunks, this`takenChunks, role.Keys, Arrays(role.Keys)
    {
      && Placed(role, current, next, buffers, newBuffer1, newBuffer2, toWrite)
      && Sound(role)
      && Holds(buffers, queuedChunks) && Holds(toWrite, takenChunks)
    }

    ghost function State(): Log
      reads this, current
    {
      Log(phase, current.pieces, next != null, newBuffer2 != null, queuedChunks,
          if phase.Taken? then takenChunks else [], rounds, file, accepted)
    }

    /** What the asserts of ThreadFunc need of the back-end's own buffers. */
    ghost predicate BackEnd()
      reads this`phase, this`newBuffer1, this`newBuffer2, this`toWrite
    {
      && (phase.Top? <==> newBuffer1 != null)
      && (phase.Top? ==> newBuffer2 != null && toWrite == [])
      && (!phase.Top? ==> |toWrite| >= 1 && (newBuffer2 == null ==> |toWrite| >= 2))
    }

    /** A missing spare buffer means that a full one is queued: the back-end will find two to recycle. */
    ghost predicate Valid()
      reads this`role, this`current, this`next, this`buffers, this`newBuffer1, this`newBuffer2, this`toWrite
      reads this`queuedChunks, this`takenChunks, this`phase, role.Keys, Arrays(role.Keys)
    {
      Shape() && BackEnd() && (next == null ==> buffers != [])
    }

    /** The logger is none of its buffers' arrays, so its fields can change without touching those. */
    lemma NotAnArray(bs: set<FixedBuffer>)
      ensures this !in Arrays(bs)
    {}

    constructor ()
      ensures Valid() && State() == FRESH && fresh(role.Keys) && fresh(Arrays(role.Keys))
    {
      hide Sound, Join, BufferOk, Placed;
      var b0, b1 := TwoBuffers();
      var b2, b3 := TwoBuffers();
      current, next, newBuffer1, newBuffer2 := b0, b1, b2, b3;
      role := map[b0 := Current, b1 := Waiting(FrontSpare), b2 := Waiting(BackSpare1), b3 := Waiting(BackSpare2)];
      buffers, toWrite, file := [], [], "";
      queuedChunks, takenChunks := [], [];
      phase, rounds, accepted := Top, [], [];
      new;
      PlacedFresh(b0, b1, b2, b3);
      SoundFresh(b0, b1, b2, b3);
    }

    /** Copying into the current buffer leaves every other one alone. */
    method AppendCurrent(msg: string)
      requires Shape()
      modifies current, current.data
      ensures Shape()
      ensures current.pieces
           == if Fits(old(current.pieces), msg) then old(current.pieces) + [msg] else old(current.pieces)
    {
      MeasuredOut(role, current);
      current.Append(msg);
    }

    /** The current buffer is full: queue it and go on with the spare one. */
    method RotateToNext()
      requires Shape() && next != null
      modifies this`current, this`next, this`buffers, this`role, this`queuedChunks
      ensures Shape() && next == null && current == old(next) && current.pieces == []
      ensures queuedChunks == old(queuedChunks) + [old(current.pieces)]
      ensures role.Keys == old(role.Keys)
    {
      WaitingIsEmpty(role, next, FrontSpare);
      hide Sound, Join, Placed, Holds;
      ghost var role' := QueueCurrent(role, current, next, next, buffers, newBuffer1, newBuffer2, toWrite);
      SoundReassigned(role, role');
      HoldsSnoc(buffers, queuedChunks, current);
      NotAnArray(role.Keys);
      role := role';
      buffers, queuedChunks := buffers + [current], queuedChunks + [current.pieces];
      current, next := next, null;
    }

    /** With no spare one, go on with a new one. */
    method RotateToNew()
      requires Shape() && next == null
      modifies this`current, this`buffers, this`role, this`queuedChunks
      ensures Shape() && current.pieces == []
      ensures queuedChunks == old(queuedChunks) + [old(current.pieces)]
      ensures fresh(current) && fresh(current.data) && role.Keys == old(role.Keys) + {current}
    {
      hide Sound, Join, Placed, Holds, BufferOk;
      assert allocated(Arrays(role.Keys));
      var b := ClearedBuffer();
      ghost var role' := QueueCurrent(role, current, b, null, buffers, newBuffer1, newBuffer2, toWrite);
      SoundExtended(role, role', b);
      HoldsSnoc(buffers, queuedChunks, current);
      NotAnArray(role'.Keys);
      role := role';
      buffers, queuedChunks := buffers + [current], queuedChunks + [current.pieces];
      current := b;
    }

    /** Makes a buffer with room for `msg` the current one, unless no buffer has. */
    method MakeRoom(msg: string)
      requires Shape()
      modifies this`current, this`next, this`buffers, this`role, this`queuedChunks
      ensures Shape() && old(role.Keys) <= role.Keys && fresh(role.Keys - old(role.Keys))
      ensures forall b :: b in role && b !in old(role.Keys) ==> fresh(b.data)
      ensures current in role
      ensures Fits(old(current.pieces), msg) ==>
                current.pieces == old(current.pieces) && next == old(next) && queuedChunks == old(queuedChunks)
      ensures !Fits(old(current.pieces), msg) ==>
                current.pieces == [] && next == null && queuedChunks == old(queuedChunks) + [old(current.pieces)]
      ensures next == null ==> buffers != [] || (old(next) == null && old(buffers) == [])
    {
      MeasuredOut(role, current);
      hide Sound, Join;
      if current.Available() <= |msg| {
        if next != null {
          RotateToNext();
        } else {
          RotateToNew();
        }
      }
    }

    /** Both branches end by copying the line. */
    method Store(msg: string)
      requires Valid()
      modifies this`current, this`next, this`buffers, this`role, this`queuedChunks, role.Keys, Arrays(role.Keys)
      ensures Valid() && old(role.Keys) <= role.Keys && fresh(role.Keys - old(role.Keys))
      ensures forall b :: b in role && b !in old(role.Keys) ==> fresh(b.data)
      ensures current.pieces == if Fits(old(current.pieces), msg) then old(current.pieces) + [msg] else Told(msg)
      ensures queuedChunks == if Fits(old(current.pieces), msg) then old(queuedChunks)
                              else old(queuedChunks) + [old(current.pieces)]
      ensures next == if Fits(old(current.pieces), msg) then old(next) else null
    {
      hide Shape;
      MakeRoom(msg);
      AppendCurrent(msg);
    }

    /** Any thread's Append, under the mutex. */
    method Append(msg: string)
      requires Valid()
      modifies this`current, this`next, this`buffers, this`role, this`queuedChunks, this`accepted
      modifies role.Keys, Arrays(role.Keys)
      ensures Valid() && old(role.Keys) <= role.Keys && fresh(role.Keys - old(role.Keys))
      ensures forall b :: b in role && b !in old(role.Keys) ==> fresh(b.data)
      ensures State() == Appended(old(State()), msg)
    {
      hide Shape;
      Store(msg);
      NotAnArray(role.Keys);
      accepted := accepted + Told(msg);
    }

    /** Moves the queue and the current buffer to the back-end, and an empty one to the front. */
    method TakeQueue()
      requires Shape() && newBuffer1 != null && toWrite == []
      modifies this`current, this`buffers, this`newBuffer1, this`toWrite, this`role, this`queuedChunks, this`takenChunks
      ensures Shape() && role.Keys == old(role.Keys)
      ensures newBuffer1 == null && buffers == [] && toWrite == old(buffers) + [old(current)]
      ensures current.pieces == [] && queuedChunks == [] && takenChunks == old(queuedChunks) + [old(current.pieces)]
    {
      WaitingIsEmpty(role, newBuffer1, BackSpare1);
      hide Sound, Join, Placed, Holds;
      HoldsSnoc(buffers, queuedChunks, current);
      HoldsNothing();
      ghost var role' := SwapPlaced(role, current, next, buffers, newBuffer1, newBuffer2);
      SoundReassigned(role, role');
      NotAnArray(role.Keys);
      role := role';
      takenChunks, queuedChunks := queuedChunks + [current.pieces], [];
      buffers := buffers + [current];
      current, newBuffer1 := newBuffer1, null;
      toWrite, buffers := buffers, toWrite;
    }

    /** Gives the front-end a spare buffer if it has used its own. */
    method RefillNext()
      requires Shape() && newBuffer2 != null
      modifies this`next, this`newBuffer2, this`role
      ensures Shape() && role.Keys == old(role.Keys)
      ensures next != null && (newBuffer2 == null <==> old(next) == null)
    {
      hide Sound, Join, Placed, Holds;
      if next == null {
        ghost var role' := RefillPlaced(role, current, buffers, newBuffer1, newBuffer2, toWrite);
        SoundReassigned(role, role');
        NotAnArray(role.Keys);
        role := role';
        next, newBuffer2 := newBuffer2, null;
      }
    }

    /** The critical section of a round, once its timed wait is over. */
    method SwapLocked()
      requires Shape() && newBuffer1 != null && newBuffer2 != null && toWrite == []
      modifies this`current, this`next, this`buffers, this`newBuffer1, this`newBuffer2, this`toWrite
      modifies this`role, this`queuedChunks, this`takenChunks
      ensures Shape() && role.Keys == old(role.Keys)
      ensures newBuffer1 == null && next != null && buffers == [] && |toWrite| == |old(buffers)| + 1
      ensures newBuffer2 == null <==> old(next) == null
      ensures current.pieces == [] && queuedChunks == [] && takenChunks == old(queuedChunks) + [old(current.pieces)]
    {
      hide Shape;
      TakeQueue();
      RefillNext();
    }

    /** From the top of a round to the end of its critical section. */
    method SwapBuffers()
      requires Valid() && phase.Top?
      modifies this`current, this`next, this`buffers, this`newBuffer1, this`newBuffer2, this`toWrite
      modifies this`role, this`queuedChunks, this`takenChunks, this`phase
      ensures Valid() && role.Keys == old(role.Keys)
      ensures State() == TakeBuffers(old(State()))
    {
      hide Sound, Join, Holds;
      WaitingIsEmpty(role, newBuffer1, BackSpare1);
      WaitingIsEmpty(role, newBuffer2, BackSpare2);
      assert newBuffer1 != null && newBuffer1.cur == 0;
      assert newBuffer2 != null && newBuffer2.cur == 0;
      assert toWrite == [];
      hide Shape;
      SwapLocked();
      NotAnArray(role.Keys);
      phase := Taken;
    }

    /** Overload: reports and forgets all but the two oldest buffers. */
    method DropExcess()
      requires Shape()
      modifies this`toWrite, this`takenChunks, this`file
      ensures Shape()
      ensures |old(toWrite)| > MAX_TO_WRITE ==>
                |toWrite| == 2 && takenChunks == old(takenChunks)[..2] && file == old(file) + Report(|old(toWrite)| - 2)
      ensures |old(toWrite)| <= MAX_TO_WRITE ==>
                toWrite == old(toWrite) && takenChunks == old(takenChunks) && file == old(file)
    {
      if |toWrite| > MAX_TO_WRITE {
        file := file + "Dropped log messages , " + Text(|toWrite| - 2) + " larger buffers\n";
        assert file == old(file) + Report(|toWrite| - 2);
        Trim(2);
      }
    }

    /** Forgets all but the first `n` buffers of the batch. */
    method Trim(n: nat)
      requires Shape() && n <= |toWrite|
      modifies this`toWrite, this`takenChunks
      ensures Shape() && toWrite == old(toWrite)[..n] && takenChunks == old(takenChunks)[..n]
    {
      hide Sound, Join;
      NotAnArray(role.Keys);
      toWrite, takenChunks := toWrite[..n], takenChunks[..n];
    }

    /** Writes the bytes of every buffer up to its cursor. */
    method WriteAll()
      requires Shape()
      modifies this`file
      ensures file == old(file) + Join(Join(takenChunks))
    {
      hide Sound, Join, Placed;
      assert takenChunks[..0] == [];
      JoinNothing();
      NotAnArray(role.Keys);
      for i := 0 to |toWrite|
        invariant file == old(file) + Join(Join(takenChunks[..i]))
      {
        BatchIsKnown(i);
        SpelledOut(role, toWrite[i]);
        file := file + toWrite[i].data[..toWrite[i].cur];
        assert takenChunks[..i + 1] == takenChunks[..i] + [takenChunks[i]];
        JoinSnoc(takenChunks[..i], takenChunks[i]);
        JoinAppend(Join(takenChunks[..i]), takenChunks[i]);
      }
      assert takenChunks[..|toWrite|] == takenChunks;
    }

    lemma BatchIsKnown(i: nat)
      requires Placed(role, current, next, buffers, newBuffer1, newBuffer2, toWrite) && i < |toWrite|
      ensures Is(role, toWrite[i], Batch(i))
    {}

    method WriteRound()
      requires Shape()
      modifies this`toWrite, this`takenChunks, this`file
      ensures Shape() && file == old(file) + RenderRound(old(takenChunks))
      ensures |toWrite| == if |old(toWrite)| > MAX_TO_WRITE then 2 else |old(toWrite)|
    {
      assert |takenChunks| == |toWrite|;
      hide Shape, Join, Report;
      DropExcess();
      NotAnArray(role.Keys);
      WriteAll();
      if |old(toWrite)| > MAX_TO_WRITE {
        var dropped, kept := Report(|old(toWrite)| - 2), Join(Join(takenChunks));
        assert (old(file) + dropped) + kept == old(file) + (dropped + kept);
      }
    }

    /** The part of a round that writes the file. */
    method WriteBuffers()
      requires Valid() && phase.Taken?
      modifies this`toWrite, this`takenChunks, this`file, this`rounds, this`phase
      ensures Valid()
      ensures State() == WriteOut(old(State()))
    {
      hide Shape, RenderRound;
      assert toWrite != [];
      NotAnArray(role.Keys);
      rounds := rounds + [takenChunks];
      WriteRound();
      phase := Flushed;
    }

    /** Takes the last buffer off the batch. */
    method PopBatch() returns (b: FixedBuffer)
      requires Shape() && toWrite != []
      modifies this`toWrite, this`takenChunks
      ensures Shape() && toWrite == old(toWrite)[..|old(toWrite)| - 1] && b == old(toWrite)[|old(toWrite)| - 1]
      ensures Is(role, b, Batch(|toWrite|))
    {
      BatchIsKnown(|toWrite| - 1);
      b := toWrite[|toWrite| - 1];
      Trim(|toWrite| - 1);
    }

    /** Clears a buffer that is in no list any more. */
    method ResetPopped(b: FixedBuffer)
      requires Shape() && Is(role, b, Batch(|toWrite|))
      modifies b
      ensures Shape() && b.pieces == [] && b.cur == 0 && b != current
    {
      assert BufferOk(b);
      hide Join;
      assert forall i :: 0 <= i < |buffers| ==> Is(role, buffers[i], Queued(i));
      assert forall i :: 0 <= i < |toWrite| ==> Is(role, toWrite[i], Batch(i));
      b.Reset();
    }

    /** Takes a buffer off the batch, clears it, and lets it wait as the back-end's first or second spare. */
    method Reclaim(ghost asFirst: bool) returns (b: FixedBuffer)
      requires Shape() && toWrite != [] && if asFirst then newBuffer1 == null else newBuffer2 == null
      modifies this`toWrite, this`takenChunks, this`role, toWrite
      ensures Shape() && role.Keys == old(role.Keys) && current.pieces == old(current.pieces)
      ensures Is(role, b, Waiting(if asFirst then BackSpare1 else BackSpare2))
      ensures toWrite == old(toWrite)[..|old(toWrite)| - 1]
    {
      hide Sound, Join, Placed, Holds;
      b := PopBatch();
      ResetPopped(b);
      SpareIsKept(b, asFirst);
      NotAnArray(role.Keys);
      role := role[b := Waiting(if asFirst then BackSpare1 else BackSpare2)];
    }

    lemma SpareIsKept(b: FixedBuffer, asFirst: bool)
      requires Placed(role, current, next, buffers, newBuffer1, newBuffer2, toWrite) && Sound(role)
      requires Is(role, b, Batch(|toWrite|)) && b.pieces == [] && b.cur == 0
      ensures var role' := role[b := Waiting(if asFirst then BackSpare1 else BackSpare2)];
              && Placed(role', current, next, buffers, newBuffer1, newBuffer2, toWrite)
              && Sound(role') && role'.Keys == role.Keys
    {
      var role' := role[b := Waiting(if asFirst then BackSpare1 else BackSpare2)];
      assert BufferOk(b);
      SoundExtended(role, role', b);
      hide Sound;
      forall i | 0 <= i < |buffers| ensures Is(role', buffers[i], Queued(i)) { assert Is(role, buffers[i], Queued(i)); }
      forall i | 0 <= i < |toWrite| ensures Is(role', toWrite[i], Batch(i)) { assert Is(role, toWrite[i], Batch(i)); }
    }

    /** Refills whichever of the back-end's spare buffers it has given away. */
    method RecycleSpares()
      requires Shape() && |toWrite| >= 1 && (newBuffer2 == null ==> |toWrite| >= 2)
      modifies this`newBuffer1, this`newBuffer2, this`toWrite, this`takenChunks, this`role, toWrite
      ensures Shape() && role.Keys == old(role.Keys) && current.pieces == old(current.pieces)
      ensures newBuffer1 != null && newBuffer2 != null
    {
      hide Sound, Join, Holds;
      if newBuffer1 == null {
        assert toWrite != [];
        var b := Reclaim(true);
        NotAnArray(role.Keys);
        newBuffer1 := b;
      }
      if newBuffer2 == null {
        assert toWrite != [];
        var b := Reclaim(false);
        NotAnArray(role.Keys);
        newBuffer2 := b;
      }
    }

    /** The batch is cut to two, gives back what is missing, and is cleared. */
    method RecycleAll()
      requires Shape() && |toWrite| >= 1 && (newBuffer2 == null ==> |toWrite| >= 2)
      modifies this`newBuffer1, this`newBuffer2, this`toWrite, this`takenChunks, this`role, toWrite
      ensures Shape() && role.Keys == old(role.Keys) && current.pieces == old(current.pieces)
      ensures newBuffer1 != null && newBuffer2 != null && toWrite == []
    {
      hide Shape;
      if |toWrite| > 2 {
        Trim(2);
      }
      RecycleSpares();
      Trim(0);
    }

    /** The end of a round: the back-end has its two spare buffers again. */
    method RecycleBuffers()
      requires Valid() && phase.Flushed?
      modifies this`newBuffer1, this`newBuffer2, this`toWrite, this`takenChunks, this`role, this`phase, toWrite
      ensures Valid() && role.Keys == old(role.Keys)
      ensures State() == Recycle(old(State()))
    {
      hide Shape;
      RecycleAll();
      NotAnArray(role.Keys);
      phase := Top;
    }
  }
}
