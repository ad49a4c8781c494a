/**
 The output side of one connection as a transition system. `Stream` is the
 abstract value of a TcpConnection. An `Action` is one call on the loop thread, or
 one access by another thread that is inside Send or ShutDown, so a run is any
 interleaving of them. The kernel is adversarial: every `write` gets an arbitrary
 budget.
 */
module Streams {

  datatype ConnState = Connecting | Connected | Disconnecting | Disconnected

  datatype Functor = WriteComplete | HighWater(backlog: nat)

  /** A call that another thread passes to RunInLoop. */
  datatype Call = SendCall(data: string) | ShutDownCall

  /** What is fixed for a run: the mark, and which callbacks the user installed. */
  datatype Config = Config(mark: nat, hasComplete: bool, hasHighWater: bool)

  datatype Stream = Stream(
    state: ConnState, careRead: bool, careWrite: bool,
    closed: bool,          // HandleClose or the destruction has dropped all interest
    backlog: string,       // payload of output_buf_
    accepted: string,      // everything handed to SendInLoop
    written: string,       // everything the kernel took
    fins: nat,             // shutdown(SHUT_WR) calls
    queued: seq<Functor>,  // user callbacks queued on the loop
    armed: nat,            // other threads in ShutDown that have tested state_ and not yet set it
    inHand: multiset<Call>, // calls that other threads have decided on and not yet queued
    pending: seq<Call>)    // queued calls that the loop has not yet run

  const FRESH: Stream := Stream(Connecting, false, false, false, "", "", "", 0, [], 0, multiset{}, [])

  /** `write` of `len` bytes: -1, or any count up to `len`. */
  function KernelTakes(budget: int, len: nat): (n: int)
    ensures n == -1 || 0 <= n <= len
  {
    if budget < 0 then -1 else if budget < len then budget else len
  }

  function Max0(n: int): nat {
    if n < 0 then 0 else n
  }

  function SendInLoop(c: Config, s: Stream, data: string, budget: int): Stream {
    var direct := !s.careWrite && s.backlog == "";
    var n := if direct then KernelTakes(budget, |data|) else 0;
    var sent := Max0(n);
    var backlog := s.backlog + data[sent..];
    s.(backlog := backlog,
       accepted := s.accepted + data,
       written := s.written + data[..sent],
       careWrite := s.careWrite || sent < |data|,
       queued := s.queued
         + (if c.hasComplete && direct && n == |data| then [WriteComplete] else [])
         + (if c.hasHighWater && sent < |data| && |s.backlog| < c.mark <= |backlog|
            then [HighWater(|backlog|)] else []))
  }

  function ShutDownInLoop(s: Stream): Stream {
    if s.careWrite then s else s.(fins := s.fins + 1)
  }

  function ShutDown(s: Stream): Stream {
    if s.state.Connected? then ShutDownInLoop(s.(state := Disconnecting)) else s
  }

  function HandleWrite(c: Config, s: Stream, budget: int): Stream {
    var n := KernelTakes(budget, |s.backlog|);
    if !s.careWrite || n <= 0 then s
    else
      var moved := s.(backlog := s.backlog[n..], written := s.written + s.backlog[..n]);
      if n < |s.backlog| then moved
      else
        var drained := moved.(careWrite := false,
                              queued := s.queued + if c.hasComplete then [WriteComplete] else []);
        if s.state.Disconnecting? then ShutDownInLoop(drained) else drained
  }

  function HandleClose(s: Stream): Stream {
    s.(careRead := false, careWrite := false, closed := true)
  }

  function Established(s: Stream): Stream {
    s.(state := Connected, careRead := true)
  }

  function Destroyed(s: Stream): Stream {
    s.(state := Disconnected, careRead := false, careWrite := false, closed := true)
  }

  /** The tests of `state_` by Send and ShutDown on another thread. */
  function SendByOther(s: Stream, data: string): Stream {
    if s.state.Connected? then s.(inHand := s.inHand + multiset{SendCall(data)}) else s
  }

  function TestByOther(s: Stream): Stream {
    if s.state.Connected? then s.(armed := s.armed + 1) else s
  }

  /** ShutDown's assignment to `state_` on another thread, whatever has happened since its test. */
  function SetByOther(s: Stream): Stream {
    s.(state := Disconnecting, armed := Max0(s.armed - 1), inHand := s.inHand + multiset{ShutDownCall})
  }

  function PushByOther(s: Stream, call: Call): Stream {
    s.(inHand := s.inHand - multiset{call}, pending := s.pending + [call])
  }

  function RunPending(c: Config, s: Stream, budget: int): Stream {
    if s.pending == [] then s
    else
      var popped := s.(pending := s.pending[1..]);
      match s.pending[0]
      case SendCall(data) => SendInLoop(c, popped, data, budget)
      case ShutDownCall => ShutDownInLoop(popped)
  }

  /** A call on the loop thread is one action; `SendIsAtomic` and its neighbours say why that is enough. */
  datatype Action =
    | Establish
    | Send(data: string, budget: int)
    | Close                          // ShutDown()
    | Writable(budget: int)          // HandleWrite
    | Eof                            // HandleRead finds the end of the input
    | Destroy
    | RunQueued(budget: int)         // the loop runs the first queued call
    | OffSend(data: string)          // on another thread: Send up to its RunInLoop
    | OffTest | OffSet               // on another thread: ShutDown up to its RunInLoop
    | Push(call: Call)               // the RunInLoop of either

  function Step(c: Config, s: Stream, a: Action): Stream {
    match a
    case Establish => Established(s)
    case Send(data, budget) => if s.state.Connected? then SendInLoop(c, s, data, budget) else s
    case Close => ShutDown(s)
    case Writable(budget) => HandleWrite(c, s, budget)
    case Eof => HandleClose(s)
    case Destroy => Destroyed(s)
    case RunQueued(budget) => RunPending(c, s, budget)
    case OffSend(data) => SendByOther(s, data)
    case OffTest => TestByOther(s)
    case OffSet => SetByOther(s)
    case Push(call) => PushByOther(s, call)
  }

  function Steps(c: Config, s: Stream, actions: seq<Action>): Stream
    decreases actions
  {
    if actions == [] then s else Steps(c, Step(c, s, actions[0]), actions[1..])
  }

  lemma {:induction false} StepsAppend(c: Config, s: Stream, a: seq<Action>, b: seq<Action>)
    ensures Steps(c, s, a + b) == Steps(c, Steps(c, s, a), b)
    decreases a
  {
    if a == [] {
      assert a + b == b;
    } else {
      assert (a + b)[1..] == a[1..] + b;
      StepsAppend(c, Step(c, s, a[0]), a[1..], b);
    }
  }

  lemma OneStep(c: Config, s: Stream, a: Action)
    ensures Steps(c, s, [a]) == Step(c, s, a)
  {}

  /** When the server, the loop, epoll and a thread inside a call take each action. */
  predicate Enabled(s: Stream, a: Action) {
    match a
    case Establish => s.state.Connecting?
    case Eof => s.careRead
    case Destroy => s.state.Connected? || s.state.Disconnecting?
    case RunQueued(_) => s.pending != []
    case OffSet => s.armed > 0
    case Push(call) => call in s.inHand
    case _ => true
  }

  predicate NoShutDown(s: Stream) {
    ShutDownCall !in s.inHand && ShutDownCall !in s.pending
  }

  /** What every action keeps. */
  predicate Inv(s: Stream) {
    && s.accepted == s.written + s.backlog
    && (s.careWrite ==> s.backlog != "")
    && (!s.closed ==> (s.careWrite <==> s.backlog != ""))
    && (s.careRead ==> !s.closed && (s.state.Connected? || s.state.Disconnecting?))
    && (s.state.Connecting? ==>
          !s.closed && s.backlog == "" && s.armed == 0 && s.inHand == multiset{} && s.pending == [])
    && (s.state.Connecting? || s.state.Connected? ==> s.fins == 0 && NoShutDown(s))
  }

  lemma SplitConcat(a: string, b: string, n: nat)
    requires n <= |b|
    ensures a + b == (a + b[..n]) + b[n..]
  {
    assert b == b[..n] + b[n..];
  }

  lemma SendKeepsInv(c: Config, s: Stream, data: string, budget: int)
    requires Inv(s) && !s.state.Connecting?
    ensures Inv(SendInLoop(c, s, data, budget))
  {
    var sent := if !s.careWrite && s.backlog == "" then Max0(KernelTakes(budget, |data|)) else 0;
    SplitConcat(s.written, data, sent);
    if s.backlog == "" {
      assert s.accepted == s.written;
      assert s.backlog + data[sent..] == data[sent..];
    } else {
      assert data[..0] == "" && data[0..] == data;
      assert s.written + "" == s.written;
      assert s.written + s.backlog + data == s.written + (s.backlog + data);
    }
  }

  lemma PopKeepsInv(s: Stream)
    requires Inv(s) && s.pending != []
    ensures Inv(s.(pending := s.pending[1..]))
  {
    assert forall call :: call in s.pending[1..] ==> call in s.pending;
  }

  lemma StepKeepsInv(c: Config, s: Stream, a: Action)
    requires Inv(s) && Enabled(s, a)
    ensures Inv(Step(c, s, a))
  {
    match a
    case Send(data, budget) => if s.state.Connected? { SendKeepsInv(c, s, data, budget); }
    case RunQueued(budget) =>
      PopKeepsInv(s);
      if s.pending[0].SendCall? { SendKeepsInv(c, s.(pending := s.pending[1..]), s.pending[0].data, budget); }
    case Writable(budget) =>
      var n := KernelTakes(budget, |s.backlog|);
      if n > 0 { SplitConcat(s.written, s.backlog, n); }
    case _ =>
  }

  /** An access by another thread that is inside Send or ShutDown. */
  predicate ByOther(a: Action) {
    a.OffSend? || a.OffTest? || a.OffSet? || a.Push?
  }

  /** It changes only what the loop thread's calls leave alone, and `state_`. */
  lemma OtherChanges(c: Config, s: Stream, a: Action)
    requires ByOther(a)
    ensures var t := Step(c, s, a);
            t == s.(state := t.state, armed := t.armed, inHand := t.inHand, pending := t.pending)
    ensures Step(c, s, a).state == if a.OffSet? then Disconnecting else s.state
  {
    hide SendInLoop, HandleWrite, RunPending;
  }

  lemma SendIgnoresOthers(c: Config, s: Stream, data: string, budget: int,
                          state: ConnState, armed: nat, inHand: multiset<Call>, pending: seq<Call>)
    ensures SendInLoop(c, s.(state := state, armed := armed, inHand := inHand, pending := pending), data, budget)
         == SendInLoop(c, s, data, budget).(state := state, armed := armed, inHand := inHand, pending := pending)
  {
    hide KernelTakes;
  }

  /** The same access to a stream that differs elsewhere. */
  lemma OtherIgnores(c: Config, s: Stream, t: Stream, a: Action)
    requires ByOther(a)
    requires s.state == t.state && s.armed == t.armed && s.inHand == t.inHand && s.pending == t.pending
    ensures var u, v := Step(c, s, a), Step(c, t, a);
            u.state == v.state && u.armed == v.armed && u.inHand == v.inHand && u.pending == v.pending
  {
    hide SendInLoop, HandleWrite, RunPending;
    match a
    case OffSend(data) =>
    case OffTest =>
    case OffSet =>
    case Push(call) =>
  }

  /** What another thread does during SendInLoop it might as well do before or after it. */
  lemma SendIsAtomic(c: Config, s: Stream, data: string, budget: int, a: Action)
    requires ByOther(a)
    ensures SendInLoop(c, Step(c, s, a), data, budget) == Step(c, SendInLoop(c, s, data, budget), a)
  {
    var t, sent := Step(c, s, a), SendInLoop(c, s, data, budget);
    OtherChanges(c, s, a);
    OtherChanges(c, sent, a);
    SendIgnoresOthers(c, s, data, budget, s.state, s.armed, s.inHand, s.pending);
    SendIgnoresOthers(c, s, data, budget, t.state, t.armed, t.inHand, t.pending);
    OtherIgnores(c, s, sent, a);
    hide SendInLoop, Step;
  }

  lemma ShutDownInLoopIgnoresOthers(c: Config, s: Stream, a: Action)
    requires ByOther(a)
    ensures ShutDownInLoop(Step(c, s, a)) == Step(c, ShutDownInLoop(s), a)
  {
    var fin := ShutDownInLoop(s);
    OtherChanges(c, s, a);
    OtherChanges(c, fin, a);
    OtherIgnores(c, s, fin, a);
    hide Step;
  }

  /**
   ShutDown tests `state_`, sets it, and goes on. A test by another thread between
   the first two might as well come before the call; all else, and all that comes
   after the second, might as well come after it.
   */
  lemma ShutDownIsAtomic(c: Config, s: Stream, a: Action)
    requires s.state.Connected? && ByOther(a)
    ensures ShutDownInLoop(Step(c, s, a).(state := Disconnecting))
         == if a.OffSend? || a.OffTest? then ShutDown(Step(c, s, a)) else Step(c, ShutDown(s), a)
    ensures ShutDownInLoop(Step(c, s.(state := Disconnecting), a)) == Step(c, ShutDown(s), a)
  {
    hide SendInLoop, HandleWrite, RunPending;
    ShutDownInLoopIgnoresOthers(c, s.(state := Disconnecting), a);
    match a
    case OffSend(data) =>
    case OffTest =>
    case OffSet =>
    case Push(call) =>
  }

  /** HandleWrite up to its reading of `state_`, and whether it comes to that. */
  function Written(c: Config, s: Stream, budget: int): Stream {
    var n := KernelTakes(budget, |s.backlog|);
    if !s.careWrite || n <= 0 then s
    else
      var moved := s.(backlog := s.backlog[n..], written := s.written + s.backlog[..n]);
      if n < |s.backlog| then moved
      else moved.(careWrite := false, queued := s.queued + if c.hasComplete then [WriteComplete] else [])
  }

  predicate ReadsState(s: Stream, budget: int) {
    s.careWrite && KernelTakes(budget, |s.backlog|) == |s.backlog| > 0
  }

  lemma WrittenIgnoresOthers(c: Config, s: Stream, budget: int,
                             state: ConnState, armed: nat, inHand: multiset<Call>, pending: seq<Call>)
    ensures Written(c, s.(state := state, armed := armed, inHand := inHand, pending := pending), budget)
         == Written(c, s, budget).(state := state, armed := armed, inHand := inHand, pending := pending)
  {
    hide KernelTakes;
  }

  lemma HandleWriteInTwo(c: Config, s: Stream, budget: int)
    ensures var t := Written(c, s, budget);
            HandleWrite(c, s, budget)
            == if ReadsState(s, budget) && t.state.Disconnecting? then ShutDownInLoop(t) else t
  {}

  /**
   What another thread does before HandleWrite reads `state_` it might as well do
   before the call, and what it does after that reading, after the call.
   */
  lemma HandleWriteIsAtomic(c: Config, s: Stream, budget: int, a: Action)
    requires ByOther(a)
    ensures var mid := Step(c, Written(c, s, budget), a);
            (if ReadsState(s, budget) && mid.state.Disconnecting? then ShutDownInLoop(mid) else mid)
            == HandleWrite(c, Step(c, s, a), budget)
    ensures ShutDownInLoop(Step(c, s, a)) == Step(c, ShutDownInLoop(s), a)
  {
    var t, w := Step(c, s, a), Written(c, s, budget);
    OtherChanges(c, s, a);
    OtherChanges(c, w, a);
    WrittenIgnoresOthers(c, s, budget, s.state, s.armed, s.inHand, s.pending);
    WrittenIgnoresOthers(c, s, budget, t.state, t.armed, t.inHand, t.pending);
    OtherIgnores(c, s, w, a);
    HandleWriteInTwo(c, t, budget);
    ShutDownInLoopIgnoresOthers(c, s, a);
    hide Written, HandleWrite, Step, ShutDownInLoop;
  }

  // ---------------------------------------------------------------------------
  // Runs

  predicate IsRun(c: Config, trace: seq<Stream>, actions: seq<Action>) {
    && |trace| == |actions| + 1
    && trace[0] == FRESH
    && forall i :: 0 <= i < |actions| ==>
         Enabled(trace[i], actions[i]) && trace[i + 1] == Step(c, trace[i], actions[i])
  }

  lemma RunPrefix(c: Config, trace: seq<Stream>, actions: seq<Action>, n: nat)
    requires IsRun(c, trace, actions) && n <= |actions|
    ensures IsRun(c, trace[..n + 1], actions[..n])
  {}

  /** Conservation: at every point of every run, accepted == written ++ backlog, and the rest of `Inv`. */
  lemma {:induction false} RunKeepsInv(c: Config, trace: seq<Stream>, actions: seq<Action>, n: nat)
    requires IsRun(c, trace, actions) && n <= |actions|
    ensures Inv(trace[n])
  {
    if n > 0 {
      RunKeepsInv(c, trace, actions, n - 1);
      StepKeepsInv(c, trace[n - 1], actions[n - 1]);
    }
  }

  /** The action hands data to the connection on its loop thread: a send there, or one queued by another thread. */
  predicate Hands(s: Stream, a: Action) {
    (a.Send? && s.state.Connected?) || (a.RunQueued? && s.pending != [] && s.pending[0].SendCall?)
  }

  function DataHanded(s: Stream, a: Action): string {
    if !Hands(s, a) then "" else if a.Send? then a.data else s.pending[0].data
  }

  /** All data handed over in the first `n` actions, in order. */
  function Handed(trace: seq<Stream>, actions: seq<Action>, n: nat): string
    requires n <= |actions| <= |trace|
  {
    if n == 0 then "" else Handed(trace, actions, n - 1) + DataHanded(trace[n - 1], actions[n - 1])
  }

  /** How many bytes the kernel takes: of the backlog when it is writable, of new data when nothing waits. */
  function Taken(s: Stream, a: Action): nat {
    match a
    case Writable(budget) => if s.careWrite then Max0(KernelTakes(budget, |s.backlog|)) else 0
    case Send(data, budget) =>
      if Hands(s, a) && !s.careWrite && s.backlog == "" then Max0(KernelTakes(budget, |data|)) else 0
    case RunQueued(budget) =>
      if Hands(s, a) && !s.careWrite && s.backlog == "" then Max0(KernelTakes(budget, |s.pending[0].data|)) else 0
    case _ => 0
  }

  function TotalTaken(trace: seq<Stream>, actions: seq<Action>, n: nat): nat
    requires n <= |actions| <= |trace|
  {
    if n == 0 then 0 else TotalTaken(trace, actions, n - 1) + Taken(trace[n - 1], actions[n - 1])
  }

  lemma SendHands(c: Config, s: Stream, data: string, budget: int)
    ensures var t := SendInLoop(c, s, data, budget);
            && t.accepted == s.accepted + data
            && |t.written| == |s.written|
                + if !s.careWrite && s.backlog == "" then Max0(KernelTakes(budget, |data|)) else 0
  {}

  lemma StepHands(c: Config, s: Stream, a: Action)
    requires Inv(s) && Enabled(s, a)
    ensures Step(c, s, a).accepted == s.accepted + DataHanded(s, a)
    ensures |Step(c, s, a).written| == |s.written| + Taken(s, a)
  {
    match a
    case Send(data, budget) => SendHands(c, s, data, budget);
    case RunQueued(budget) =>
      if s.pending[0].SendCall? { SendHands(c, s.(pending := s.pending[1..]), s.pending[0].data, budget); }
    case _ =>
  }

  /**
   The byte stream: the kernel has been given the data handed over, in order, up to as
   many bytes as it took; the rest is the backlog.
   */
  lemma {:induction false} StreamExactly(c: Config, trace: seq<Stream>, actions: seq<Action>, n: nat)
    requires IsRun(c, trace, actions) && n <= |actions|
    ensures trace[n].accepted == Handed(trace, actions, n)
    ensures TotalTaken(trace, actions, n) <= |Handed(trace, actions, n)|
    ensures trace[n].written == Handed(trace, actions, n)[..TotalTaken(trace, actions, n)]
    ensures trace[n].backlog == Handed(trace, actions, n)[TotalTaken(trace, actions, n)..]
  {
    HandedExactly(c, trace, actions, n);
    RunKeepsInv(c, trace, actions, n);
  }

  lemma {:induction false} HandedExactly(c: Config, trace: seq<Stream>, actions: seq<Action>, n: nat)
    requires IsRun(c, trace, actions) && n <= |actions|
    ensures trace[n].accepted == Handed(trace, actions, n) && |trace[n].written| == TotalTaken(trace, actions, n)
  {
    hide Step, Enabled, Inv, DataHanded, Taken;
    if n > 0 {
      HandedExactly(c, trace, actions, n - 1);
      RunKeepsInv(c, trace, actions, n - 1);
      assert trace[n] == Step(c, trace[n - 1], actions[n - 1]);
      StepHands(c, trace[n - 1], actions[n - 1]);
    }
  }

  /** The calls other threads queued in the first `n` actions, and those the loop ran. */
  function Pushed(actions: seq<Action>, n: nat): seq<Call>
    requires n <= |actions|
  {
    if n == 0 then [] else Pushed(actions, n - 1) + if actions[n - 1].Push? then [actions[n - 1].call] else []
  }

  function Ran(trace: seq<Stream>, actions: seq<Action>, n: nat): seq<Call>
    requires n <= |actions| <= |trace|
  {
    if n == 0 then []
    else Ran(trace, actions, n - 1)
         + if actions[n - 1].RunQueued? && trace[n - 1].pending != [] then [trace[n - 1].pending[0]] else []
  }

  lemma StepQueues(c: Config, s: Stream, a: Action)
    requires Enabled(s, a)
    ensures s.pending + (if a.Push? then [a.call] else [])
         == (if a.RunQueued? && s.pending != [] then [s.pending[0]] else []) + Step(c, s, a).pending
  {
    assert s.pending + [] == s.pending;
    match a
    case RunQueued(_) => assert s.pending == [s.pending[0]] + s.pending[1..];
    case _ => assert [] + Step(c, s, a).pending == Step(c, s, a).pending;
  }

  /** Each call of another thread is run once, in the order of queueing. */
  lemma {:induction false} CallsAreFifo(c: Config, trace: seq<Stream>, actions: seq<Action>, n: nat)
    requires IsRun(c, trace, actions) && n <= |actions|
    ensures Pushed(actions, n) == Ran(trace, actions, n) + trace[n].pending
  {
    hide Step, Enabled;
    if n > 0 {
      CallsAreFifo(c, trace, actions, n - 1);
      var s, a := trace[n - 1], actions[n - 1];
      assert trace[n] == Step(c, s, a) && Enabled(s, a);
      StepQueues(c, s, a);
      var ran, new' := Ran(trace, actions, n - 1), if a.Push? then [a.call] else [];
      var gone := if a.RunQueued? && s.pending != [] then [s.pending[0]] else [];
      assert ran + s.pending + new' == ran + (s.pending + new');
      assert ran + (gone + trace[n].pending) == ran + gone + trace[n].pending;
    }
  }

  // ---------------------------------------------------------------------------
  // Graceful half-close

  /** The FIN went out at most once, and after it there is nothing left to write. */
  predicate FinLast(s: Stream) {
    s.fins <= 1 && (s.fins == 1 ==> s.backlog == "" && s.written == s.accepted)
  }

  /** Once the output has drained and no ShutDownInLoop is on its way, the FIN is out. */
  predicate FinWhenDrained(s: Stream) {
    s.state.Disconnecting? && s.backlog == "" && NoShutDown(s) ==> s.fins == 1
  }

  predicate RunsShutDown(s: Stream, a: Action) {
    (a.Close? && s.state.Connected?) || (a.RunQueued? && s.pending != [] && s.pending[0].ShutDownCall?)
  }

  /** The action runs a send of at least one byte that another thread queued. */
  predicate RunsLateSend(s: Stream, a: Action) {
    a.RunQueued? && s.pending != [] && s.pending[0].SendCall? && s.pending[0].data != ""
  }

  /** The action closes the write side, judged from the state, the interest and the payload before it. */
  predicate SendsFin(s: Stream, a: Action) {
    || (RunsShutDown(s, a) && !s.careWrite)
    || (a.Writable? && s.state.Disconnecting? && s.careWrite && KernelTakes(a.budget, |s.backlog|) == |s.backlog|)
  }

  /** An action before the `n`th has closed the write side. */
  predicate FinOut(trace: seq<Stream>, actions: seq<Action>, n: nat)
    requires n <= |actions| <= |trace|
  {
    exists j :: 0 <= j < n && SendsFin(trace[j], actions[j])
  }

  /**
   The guards behind which the half-close is not graceful: a ShutDownInLoop that
   finds a backlog whose write interest HandleClose has dropped; one that another
   thread queued, run when the FIN is out; bytes another thread queued, likewise.
   */
  predicate Ungraceful(s: Stream, a: Action, finOut: bool) {
    || (RunsShutDown(s, a) && s.backlog != "" && !s.careWrite)
    || (RunsShutDown(s, a) && finOut)
    || (RunsLateSend(s, a) && finOut)
  }

  lemma StepSendsFin(c: Config, s: Stream, a: Action)
    requires Inv(s) && Enabled(s, a)
    ensures Step(c, s, a).fins == s.fins + if SendsFin(s, a) then 1 else 0
  {}

  lemma FinOutNext(trace: seq<Stream>, actions: seq<Action>, n: nat)
    requires n < |actions| <= |trace|
    ensures FinOut(trace, actions, n + 1) <==> FinOut(trace, actions, n) || SendsFin(trace[n], actions[n])
  {
    hide SendsFin;
  }

  lemma {:induction false} FinOutIsFins(c: Config, trace: seq<Stream>, actions: seq<Action>, n: nat)
    requires IsRun(c, trace, actions) && n <= |actions|
    ensures FinOut(trace, actions, n) <==> trace[n].fins > 0
  {
    hide Step, Enabled, SendsFin, Inv;
    assert FRESH.fins == 0;
    if n > 0 {
      FinOutIsFins(c, trace, actions, n - 1);
      RunKeepsInv(c, trace, actions, n - 1);
      assert trace[n] == Step(c, trace[n - 1], actions[n - 1]);
      StepSendsFin(c, trace[n - 1], actions[n - 1]);
      FinOutNext(trace, actions, n - 1);
    }
  }

  lemma StepIsGraceful(c: Config, s: Stream, a: Action)
    requires Inv(s) && Enabled(s, a) && !Ungraceful(s, a, s.fins > 0)
    requires FinLast(s) && FinWhenDrained(s)
    ensures FinLast(Step(c, s, a)) && FinWhenDrained(Step(c, s, a))
    ensures s.fins == 1 ==> Step(c, s, a).written == s.written
  {
    StepKeepsInv(c, s, a);
    var t := Step(c, s, a);
    if t.backlog == "" {
      assert t.written + "" == t.written;
    }
    if a.RunQueued? {
      assert s.pending == [s.pending[0]] + s.pending[1..];
      if s.pending[0] == SendCall("") {
        assert ""[0..] == "" && s.backlog + "" == s.backlog && s.written + "" == s.written;
      }
    }
  }

  lemma UngracefulBreaks(c: Config, s: Stream, a: Action)
    requires Inv(s) && Enabled(s, a) && Ungraceful(s, a, s.fins > 0) && FinLast(s)
    ensures !FinLast(Step(c, s, a)) || (s.fins == 1 && Step(c, s, a).written != s.written)
  {
    if RunsLateSend(s, a) {
      var data := s.pending[0].data;
      var n := KernelTakes(a.budget, |data|);
      if n > 0 {
        assert |Step(c, s, a).written| == |s.written| + n;
      } else {
        assert data[0..] == data && s.backlog + data == data;
      }
    }
  }

  /** Up to state `n`, the FIN is sent once and last, and nothing is written after it. */
  predicate Graceful(trace: seq<Stream>, n: nat)
    requires n < |trace|
  {
    && (forall i :: 0 <= i <= n ==> FinLast(trace[i]))
    && (forall i :: 0 <= i < n ==> trace[i].fins == 1 ==> trace[i + 1].written == trace[i].written)
  }

  predicate NoGuardMet(trace: seq<Stream>, actions: seq<Action>, n: nat)
    requires n <= |actions| <= |trace|
  {
    forall i :: 0 <= i < n ==> !Ungraceful(trace[i], actions[i], FinOut(trace, actions, i))
  }

  /** A run half-closes gracefully if and only if no action in it runs into one of the guards. */
  lemma {:induction false} GracefulExactly(c: Config, trace: seq<Stream>, actions: seq<Action>, n: nat)
    requires IsRun(c, trace, actions) && n <= |actions|
    ensures Graceful(trace, n) <==> NoGuardMet(trace, actions, n)
    ensures Graceful(trace, n) ==> FinWhenDrained(trace[n])
  {
    hide Step, Enabled, Inv, Ungraceful, FinOut;
    if n > 0 {
      GracefulExactly(c, trace, actions, n - 1);
      RunKeepsInv(c, trace, actions, n - 1);
      FinOutIsFins(c, trace, actions, n - 1);
      GracefulStep(c, trace, actions, n - 1);
    }
  }

  lemma GracefulStep(c: Config, trace: seq<Stream>, actions: seq<Action>, n: nat)
    requires IsRun(c, trace, actions) && n < |actions|
    requires Inv(trace[n]) && (Graceful(trace, n) ==> FinWhenDrained(trace[n]))
    ensures Graceful(trace, n + 1) <==> Graceful(trace, n) && !Ungraceful(trace[n], actions[n], trace[n].fins > 0)
    ensures Graceful(trace, n + 1) ==> FinWhenDrained(trace[n + 1])
  {
    var s, a := trace[n], actions[n];
    assert trace[n + 1] == Step(c, s, a) && Enabled(s, a);
    if Graceful(trace, n) {
      assert FinLast(s);
      hide Step, Enabled, Inv, Ungraceful, FinWhenDrained, FinLast;
      if Ungraceful(s, a, s.fins > 0) { UngracefulBreaks(c, s, a); } else { StepIsGraceful(c, s, a); }
    }
  }

  // What is still on its way when the FIN goes out

  predicate Harmless(call: Call) {
    call == SendCall("")
  }

  /** No other thread's ShutDown, and no byte of its sends, is still on its way to the loop. */
  predicate Clear(s: Stream) {
    && s.armed == 0
    && (forall call :: call in s.inHand ==> Harmless(call))
    && (forall call :: call in s.pending ==> Harmless(call))
  }

  /** A FIN with a call still on its way, or a ShutDownInLoop over a backlog without write interest. */
  predicate Hasty(c: Config, s: Stream, a: Action) {
    || (SendsFin(s, a) && !Clear(Step(c, s, a)))
    || (RunsShutDown(s, a) && s.backlog != "" && !s.careWrite)
  }

  lemma FirstPending(s: Stream)
    requires s.pending != []
    ensures Clear(s) <==> Clear(s.(pending := s.pending[1..])) && Harmless(s.pending[0])
  {
    assert s.pending == [s.pending[0]] + s.pending[1..];
  }

  lemma PushKeepsClear(s: Stream, call: Call)
    requires call in s.inHand
    ensures Clear(s) <==> Clear(PushByOther(s, call))
  {
    var t := PushByOther(s, call);
    assert forall other :: other in s.inHand <==> other == call || other in t.inHand;
    assert forall other :: other in t.pending <==> other in s.pending || other == call;
  }

  /** Once the FIN is out no call is added, and one on its way stays so until it is run. */
  lemma StepKeepsClear(c: Config, s: Stream, a: Action)
    requires Inv(s) && Enabled(s, a) && s.fins > 0
    ensures Clear(s) ==> Clear(Step(c, s, a))
    ensures !Clear(s) && !RunsShutDown(s, a) && !RunsLateSend(s, a) ==> !Clear(Step(c, s, a))
  {
    match a
    case RunQueued(_) => FirstPending(s);
    case Push(call) => PushKeepsClear(s, call);
    case OffSet => assert ShutDownCall in SetByOther(s).inHand;
    case _ =>
  }

  /** A graceful step runs no call once the FIN is out. */
  lemma GracefulKeepsUnclear(c: Config, s: Stream, a: Action)
    requires Inv(s) && Enabled(s, a) && s.fins > 0 && !Clear(s)
    requires FinLast(s) && FinLast(Step(c, s, a)) && Step(c, s, a).written == s.written
    ensures !Clear(Step(c, s, a))
  {
    hide Step, Enabled, Inv, Clear, FinLast;
    StepKeepsClear(c, s, a);
    if Ungraceful(s, a, true) { UngracefulBreaks(c, s, a); }
  }

  lemma {:induction false} ClearStays(c: Config, trace: seq<Stream>, actions: seq<Action>, i: nat, n: nat)
    requires IsRun(c, trace, actions) && i <= n <= |actions| && trace[i].fins > 0
    ensures trace[n].fins > 0
    ensures Clear(trace[i]) ==> Clear(trace[n])
    ensures !Clear(trace[i]) && Graceful(trace, n) ==> !Clear(trace[n])
    decreases n
  {
    hide Step, Enabled, Inv, Clear;
    if i < n {
      ClearStays(c, trace, actions, i, n - 1);
      RunKeepsInv(c, trace, actions, n - 1);
      var s, a := trace[n - 1], actions[n - 1];
      assert trace[n] == Step(c, s, a) && Enabled(s, a);
      StepSendsFin(c, s, a);
      StepKeepsClear(c, s, a);
      if Graceful(trace, n) && !Clear(s) {
        assert FinLast(s) && FinLast(trace[n]) && s.fins == 1;
        GracefulKeepsUnclear(c, s, a);
      }
    }
  }

  lemma HastyIsUngraceful(c: Config, trace: seq<Stream>, actions: seq<Action>, i: nat, n: nat)
    requires IsRun(c, trace, actions) && i < n <= |actions| && Clear(trace[n])
    requires Hasty(c, trace[i], actions[i])
    ensures !Graceful(trace, n)
  {
    if Graceful(trace, n) {
      GracefulExactly(c, trace, actions, n);
      assert !Ungraceful(trace[i], actions[i], FinOut(trace, actions, i));
      RunKeepsInv(c, trace, actions, i);
      StepSendsFin(c, trace[i], actions[i]);
      ClearStays(c, trace, actions, i + 1, n);
    }
  }

  lemma ClearRunsNothing(s: Stream, a: Action)
    requires Inv(s) && Enabled(s, a) && s.fins > 0 && Clear(s)
    ensures !RunsShutDown(s, a) && !RunsLateSend(s, a)
  {
    if s.pending != [] {
      assert s.pending[0] in s.pending && Harmless(s.pending[0]);
    }
  }

  lemma NoHasteNoGuard(c: Config, trace: seq<Stream>, actions: seq<Action>, i: nat)
    requires IsRun(c, trace, actions) && i < |actions|
    requires forall j :: 0 <= j <= i ==> !Hasty(c, trace[j], actions[j])
    ensures !Ungraceful(trace[i], actions[i], FinOut(trace, actions, i))
  {
    hide Step, Enabled, SendsFin, Clear, Inv, RunsLateSend;
    assert !Hasty(c, trace[i], actions[i]);
    if j :| 0 <= j < i && SendsFin(trace[j], actions[j]) {
      assert !Hasty(c, trace[j], actions[j]) && trace[j + 1] == Step(c, trace[j], actions[j]);
      FinOutIsFins(c, trace, actions, j + 1);
      ClearStays(c, trace, actions, j + 1, i);
      RunKeepsInv(c, trace, actions, i);
      ClearRunsNothing(trace[i], actions[i]);
    }
  }

  /**
   The same without looking back: when every call of another thread has been run, the
   half-close was graceful if and only if the FIN went out with none of them on its
   way, and no ShutDownInLoop met a backlog without write interest.
   */
  lemma SettledExactly(c: Config, trace: seq<Stream>, actions: seq<Action>, n: nat)
    requires IsRun(c, trace, actions) && n <= |actions| && Clear(trace[n])
    ensures Graceful(trace, n) <==> forall i :: 0 <= i < n ==> !Hasty(c, trace[i], actions[i])
  {
    hide Hasty, Ungraceful, Graceful, Clear, Step, Enabled;
    GracefulExactly(c, trace, actions, n);
    if i :| 0 <= i < n && Hasty(c, trace[i], actions[i]) {
      HastyIsUngraceful(c, trace, actions, i, n);
    } else {
      forall i | 0 <= i < n ensures !Ungraceful(trace[i], actions[i], FinOut(trace, actions, i)) {
        NoHasteNoGuard(c, trace, actions, i);
      }
    }
  }

  lemma {:induction false} LoopThreadOnly(c: Config, trace: seq<Stream>, actions: seq<Action>, n: nat)
    requires IsRun(c, trace, actions) && n <= |actions|
    requires forall i :: 0 <= i < n ==> !actions[i].OffSend? && !actions[i].OffTest?
    ensures trace[n].armed == 0 && trace[n].inHand == multiset{} && trace[n].pending == []
  {
    if n > 0 {
      LoopThreadOnly(c, trace, actions, n - 1);
      assert Enabled(trace[n - 1], actions[n - 1]);
    }
  }

  /** Before HandleClose and with callers on the loop thread alone no guard can be met. */
  lemma GracefulBeforeClose(c: Config, trace: seq<Stream>, actions: seq<Action>, n: nat)
    requires IsRun(c, trace, actions) && n <= |actions|
    requires forall i :: 0 <= i < n ==> !actions[i].OffSend? && !actions[i].OffTest?
    requires forall i :: 0 <= i < n && actions[i].Close? ==> !trace[i].closed
    ensures Graceful(trace, n)
    ensures trace[n].state.Disconnecting? ==> (trace[n].fins == 1 <==> trace[n].backlog == "")
  {
    forall i | 0 <= i < n ensures !Ungraceful(trace[i], actions[i], FinOut(trace, actions, i)) {
      RunKeepsInv(c, trace, actions, i);
      LoopThreadOnly(c, trace, actions, i);
      FinOutIsFins(c, trace, actions, i);
    }
    GracefulExactly(c, trace, actions, n);
    LoopThreadOnly(c, trace, actions, n);
    assert FinLast(trace[n]);
  }

  /** One more action at the end of a run. */
  lemma Extend(c: Config, trace: seq<Stream>, actions: seq<Action>, a: Action)
    returns (trace': seq<Stream>, actions': seq<Action>)
    requires IsRun(c, trace, actions) && Enabled(trace[|actions|], a)
    ensures actions' == actions + [a] && trace' == trace + [Step(c, trace[|actions|], a)]
    ensures IsRun(c, trace', actions')
  {
    actions', trace' := actions + [a], trace + [Step(c, trace[|actions|], a)];
  }

  lemma JustEstablished(c: Config) returns (trace: seq<Stream>, actions: seq<Action>)
    ensures IsRun(c, trace, actions) && |actions| == 1 && trace[1] == Established(FRESH)
  {
    actions, trace := [Establish], [FRESH, Established(FRESH)];
  }

  lemma HalfSent(c: Config) returns (trace: seq<Stream>, actions: seq<Action>)
    ensures IsRun(c, trace, actions) && |actions| == 2
    ensures var s := trace[2];
            && s.(queued := []) == Stream(Connected, true, true, false, "b", "ab", "a", 0, [], 0, multiset{}, [])
  {
    actions := [Establish, Send("ab", 1)];
    var s1 := Established(FRESH);
    assert "ab"[1..] == "b" && "ab"[..1] == "a" && s1.backlog + "b" == "b" && "" + "a" == "a" && "" + "ab" == "ab";
    trace := [FRESH, s1, SendInLoop(c, s1, "ab", 1)];
  }

  /** Closed by the peer with a byte still buffered: a later ShutDown sends FIN ahead of that byte. */
  lemma FinBeforeData(c: Config) returns (trace: seq<Stream>, actions: seq<Action>)
    ensures IsRun(c, trace, actions)
    ensures var last := trace[|actions|]; last.fins == 1 && last.accepted == "ab" && last.written == "a"
  {
    trace, actions := HalfSent(c);
    hide IsRun;
    trace, actions := Extend(c, trace, actions, Eof);
    trace, actions := Extend(c, trace, actions, Close);
  }

  /** Bytes queued by another thread and overtaken by ShutDown are written after the FIN. */
  lemma DataAfterFin(c: Config) returns (trace: seq<Stream>, actions: seq<Action>)
    ensures IsRun(c, trace, actions)
    ensures |actions| == 5 && trace[4].fins == 1 && trace[5].written == trace[4].written + "a"
  {
    trace, actions := JustEstablished(c);
    hide IsRun, HandleWrite;
    trace, actions := Extend(c, trace, actions, OffSend("a"));
    trace, actions := Extend(c, trace, actions, Push(SendCall("a")));
    trace, actions := Extend(c, trace, actions, Close);
    trace, actions := Extend(c, trace, actions, RunQueued(1));
    assert "a"[..1] == "a";
  }

  /** A whole ShutDown on another thread, up to its queueing. */
  lemma ShutDownByOther(c: Config, trace: seq<Stream>, actions: seq<Action>)
    returns (trace': seq<Stream>, actions': seq<Action>)
    requires IsRun(c, trace, actions) && trace[|actions|].state.Connected? && trace[|actions|].inHand == multiset{}
    ensures IsRun(c, trace', actions') && |actions'| == |actions| + 3
    ensures var s := trace[|actions|];
            trace'[|actions'|] == s.(state := Disconnecting, pending := s.pending + [ShutDownCall])
  {
    hide IsRun, SendInLoop, HandleWrite;
    trace', actions' := Extend(c, trace, actions, OffTest);
    trace', actions' := Extend(c, trace', actions', OffSet);
    trace', actions' := Extend(c, trace', actions', Push(ShutDownCall));
  }

  /** Another thread's ShutDown: the drain sends the FIN, and the queued ShutDownInLoop sends it again. */
  lemma FinTwice(c: Config) returns (trace: seq<Stream>, actions: seq<Action>)
    ensures IsRun(c, trace, actions)
    ensures |actions| == 7 && trace[6].fins == 1 && trace[7].fins == 2
  {
    trace, actions := HalfSent(c);
    trace, actions := ShutDownByOther(c, trace, actions);
    hide IsRun, SendInLoop;
    trace, actions := Extend(c, trace, actions, Writable(1));
    trace, actions := Extend(c, trace, actions, RunQueued(0));
  }

  /** A ShutDown that has passed its test on another thread, carried through. */
  lemma FinishShutDown(c: Config, trace: seq<Stream>, actions: seq<Action>)
    returns (trace': seq<Stream>, actions': seq<Action>)
    requires IsRun(c, trace, actions)
    requires var s := trace[|actions|]; s.armed > 0 && s.pending == [] && !s.careWrite
    ensures IsRun(c, trace', actions') && |actions'| == |actions| + 3 && trace <= trace'
    ensures trace'[|actions| + 3].fins == trace[|actions|].fins + 1
  {
    hide IsRun, SendInLoop, HandleWrite;
    trace', actions' := Extend(c, trace, actions, OffSet);
    trace', actions' := Extend(c, trace', actions', Push(ShutDownCall));
    trace', actions' := Extend(c, trace', actions', RunQueued(0));
  }

  /** Two threads that both pass the test of `state_` send it twice as well. */
  lemma FinTwiceByRace(c: Config) returns (trace: seq<Stream>, actions: seq<Action>)
    ensures IsRun(c, trace, actions)
    ensures |actions| == 6 && trace[3].fins == 1 && trace[6].fins == 2
  {
    trace, actions := JustEstablished(c);
    hide IsRun;
    trace, actions := Extend(c, trace, actions, OffTest);
    trace, actions := Extend(c, trace, actions, Close);
    trace, actions := FinishShutDown(c, trace, actions);
  }

  function Writables(budgets: seq<int>): seq<Action> {
    seq(|budgets|, i requires 0 <= i < |budgets| => Writable(budgets[i]))
  }

  /** After ShutDown, as many writable events as bytes are left, each taking a byte or more, send the FIN. */
  lemma {:induction false} DrainSendsFin(c: Config, s: Stream, budgets: seq<int>)
    requires Inv(s) && s.state.Disconnecting? && s.fins == 0 && s.careWrite
    requires |budgets| >= |s.backlog| && forall i :: 0 <= i < |budgets| ==> budgets[i] > 0
    ensures var t := Steps(c, s, Writables(budgets));
            t.fins == 1 && t.written == s.accepted && t.backlog == "" && !t.careWrite
    decreases |s.backlog|
  {
    var actions := Writables(budgets);
    var next := HandleWrite(c, s, budgets[0]);
    StepKeepsInv(c, s, Writable(budgets[0]));
    assert actions[0] == Writable(budgets[0]) && actions[1..] == Writables(budgets[1..]);
    if next.careWrite {
      DrainSendsFin(c, next, budgets[1..]);
    } else {
      assert next.backlog == "" && next.written + "" == next.written;
      IdleWritables(c, next, budgets[1..]);
    }
  }

  lemma {:induction false} IdleWritables(c: Config, s: Stream, budgets: seq<int>)
    requires !s.careWrite
    ensures Steps(c, s, Writables(budgets)) == s
  {
    if budgets != [] {
      assert Writables(budgets)[1..] == Writables(budgets[1..]);
      IdleWritables(c, s, budgets[1..]);
    }
  }

  // ---------------------------------------------------------------------------
  // Callback edges

  /** The backlog rises across the high-water mark. */
  predicate Crosses(c: Config, s: Stream, t: Stream) {
    |s.backlog| < c.mark <= |t.backlog|
  }

  /** A send whose data the kernel takes whole, with nothing buffered before it. */
  predicate SentWhole(s: Stream, a: Action) {
    match a
    case Send(data, budget) => s.state.Connected? && s.backlog == "" && KernelTakes(budget, |data|) == |data|
    case RunQueued(budget) =>
      s.pending != [] && s.pending[0].SendCall? && s.backlog == ""
      && KernelTakes(budget, |s.pending[0].data|) == |s.pending[0].data|
    case _ => false
  }

  predicate Drains(s: Stream, t: Stream) {
    s.backlog != "" && t.backlog == ""
  }

  /** The callbacks a step owes the user, judged from the backlogs around it. */
  function Signals(c: Config, s: Stream, a: Action, t: Stream): seq<Functor> {
    (if c.hasComplete && (Drains(s, t) || SentWhole(s, a)) then [WriteComplete] else [])
    + (if c.hasHighWater && Crosses(c, s, t) then [HighWater(|t.backlog|)] else [])
  }

  lemma SendSignals(c: Config, s: Stream, data: string, budget: int)
    requires s.careWrite ==> s.backlog != ""
    ensures var t := SendInLoop(c, s, data, budget);
            var whole := s.backlog == "" && KernelTakes(budget, |data|) == |data|;
            && !Drains(s, t)
            && t.queued == s.queued + (if c.hasComplete && whole then [WriteComplete] else [])
                         + (if c.hasHighWater && Crosses(c, s, t) then [HighWater(|t.backlog|)] else [])
  {}

  lemma QueuedCallSignals(c: Config, s: Stream, budget: int)
    requires Inv(s) && s.pending != []
    ensures var t := RunPending(c, s, budget); t.queued == s.queued + Signals(c, s, RunQueued(budget), t)
  {
    if s.pending[0].SendCall? { SendSignals(c, s.(pending := s.pending[1..]), s.pending[0].data, budget); }
  }

  lemma CompleteMeansWritten(c: Config, s: Stream, a: Action)
    requires Inv(s) && Enabled(s, a) && WriteComplete in Signals(c, s, a, Step(c, s, a))
    ensures Step(c, s, a).written == Step(c, s, a).accepted
  {
    var t := Step(c, s, a);
    StepKeepsInv(c, s, a);
    assert t.backlog == "" by {
      if SentWhole(s, a) { assert s.backlog + "" == ""; }
    }
    assert t.written + "" == t.written;
  }

  lemma StepSignals(c: Config, s: Stream, a: Action)
    requires Inv(s) && Enabled(s, a)
    ensures Step(c, s, a).queued == s.queued + Signals(c, s, a, Step(c, s, a))
    ensures WriteComplete in Signals(c, s, a, Step(c, s, a))
            ==> Step(c, s, a).written == Step(c, s, a).accepted
  {
    hide KernelTakes;
    if WriteComplete in Signals(c, s, a, Step(c, s, a)) { CompleteMeansWritten(c, s, a); }
    match a
    case Send(data, budget) => if s.state.Connected? { SendSignals(c, s, data, budget); }
    case RunQueued(budget) => QueuedCallSignals(c, s, budget);
    case Writable(budget) => WritableSignals(c, s, budget);
    case _ =>
  }

  lemma WritableSignals(c: Config, s: Stream, budget: int)
    requires Inv(s)
    ensures var t := HandleWrite(c, s, budget); t.queued == s.queued + Signals(c, s, Writable(budget), t)
  {}

  function AllSignals(c: Config, trace: seq<Stream>, actions: seq<Action>): seq<Functor>
    requires |trace| == |actions| + 1
  {
    if actions == [] then []
    else
      var n := |actions| - 1;
      AllSignals(c, trace[..n + 1], actions[..n]) + Signals(c, trace[n], actions[n], trace[n + 1])
  }

  /** Over every run the callbacks queued are exactly the upward crossings, the drains and the whole sends. */
  lemma {:induction false} RunSignals(c: Config, trace: seq<Stream>, actions: seq<Action>)
    requires IsRun(c, trace, actions)
    ensures trace[|actions|].queued == AllSignals(c, trace, actions)
    decreases actions
  {
    if actions != [] {
      var n := |actions| - 1;
      RunPrefix(c, trace, actions, n);
      RunSignals(c, trace[..n + 1], actions[..n]);
      RunKeepsInv(c, trace, actions, n);
      StepSignals(c, trace[n], actions[n]);
    }
  }
}
