/**
 One event loop: its functor queue, its eventfd and its round of Select and
 ExecutePendingFuncs. `Loop` is the abstract value, shared by the threads that
 queue functors; the functions on it are the atomic steps of those threads.
 */
module Dispatchers {

  /** Where the owner thread is: before `Loop()`, past its assert, past its `quit_ = false`, blocked in
      Select, handling its events, running functors (`in_calling_pending_funcs_`), or past the loop. */
  datatype Phase = Starting | Entering | Entered | Polling | Dispatching | Executing | Stopped

  datatype Loop<F> = Loop(
    phase: Phase,
    pending: seq<F>,   // pending_funcs_
    batch: seq<F>,     // what is left of local_pending_funcs
    signalled: bool,   // the eventfd counter is positive
    owed: nat,         // calls that have pushed a functor, or set quit_, and not yet written the eventfd
    quit: bool,
    early: bool,       // the owner queued functors before Loop() and no round has taken them
    rounds: nat,       // batches taken so far
    queued: seq<F>,    // every functor ever queued, in lock order
    executed: seq<F>,  // every functor ever started, in order
    aborted: bool)     // an assert on quit_ has failed
  {
    /** The critical section of QueueInLoop; only another thread's Wakeup is a separate step. */
    function QueueInLoop(f: F, sameThread: bool): Loop<F> {
      var pushed := this.(pending := pending + [f], queued := queued + [f]);
      if !sameThread then pushed.(owed := owed + 1)
      else if phase.Executing? then pushed.(signalled := true)
      else pushed.(early := early || phase.Starting?)
    }

    /** The eventfd write that completes a cross-thread QueueInLoop or Quit. */
    function Wakeup(): Loop<F>
      requires owed > 0
    {
      this.(owed := owed - 1, signalled := true)
    }

    /** The assert and the assignment; only another thread's Wakeup is a separate step. */
    function Quit(sameThread: bool): Loop<F> {
      this.(aborted := aborted || quit, quit := true, owed := if sameThread then owed else owed + 1)
    }

    /** The asserts at the head of `Loop()`. */
    function Start(): Loop<F> {
      this.(phase := Entering, aborted := aborted || quit)
    }

    /** Its `quit_ = false`. */
    function Clear(): Loop<F> {
      this.(phase := Entered, quit := false)
    }

    /** The first test of the loop's condition. */
    function Enter(): Loop<F> {
      this.(phase := if quit then Stopped else Polling)
    }

    /** Select may return at any time: on an event or on its timeout. */
    function Select(): Loop<F> {
      this.(phase := Dispatching)
    }

    /** The wakeup handler drains the eventfd. */
    function HandleRead(): Loop<F> {
      this.(signalled := false)
    }

    function Swap(): Loop<F> {
      this.(phase := Executing, batch := pending, pending := [], early := false, rounds := rounds + 1)
    }

    function RunNext(): Loop<F>
      requires batch != []
    {
      this.(batch := batch[1..], executed := executed + [batch[0]])
    }

    function EndRound(): Loop<F> {
      this.(phase := if quit then Stopped else Polling)
    }

    /** Functors still to run, in the order in which they will run. */
    function Queue(): seq<F> {
      batch + pending
    }
  }

  function Fresh<F>(): Loop<F> {
    Loop(Starting, [], [], false, 0, false, false, 0, [], [], false)
  }

  /** Select would sleep until its timeout. */
  predicate WouldBlock<F>(l: Loop<F>) {
    l.phase.Polling? && !l.signalled
  }

  /** The owner runs code that may queue functors: what precedes `Loop()`, a callback, or a functor. */
  predicate OwnerAtWork(phase: Phase) {
    phase.Starting? || phase.Dispatching? || phase.Executing? || phase.Stopped?
  }

  /** `quit_ = false` is still to come. */
  predicate BeforeClearing(phase: Phase) {
    phase.Starting? || phase.Entering?
  }

  predicate Inv<F(==)>(l: Loop<F>) {
    && l.queued == l.executed + l.Queue()
    && (l.batch != [] ==> l.phase.Executing?)
    && (l.early ==> l.pending != [] && l.rounds == 0 && !l.phase.Executing?)
    && (BeforeClearing(l.phase) || l.phase.Entered? ==> l.rounds == 0)
    && (!l.phase.Dispatching? && !l.phase.Stopped? ==> l.pending != [] ==> l.owed > 0 || l.signalled || l.early)
    && (l.phase.Polling? ==> l.quit ==> l.owed > 0 || l.signalled)
  }

  datatype Op<F> =
    | QueueInLoop(f: F, sameThread: bool) | Wakeup | Quit(sameThread: bool)
    | Start | Clear | Enter | Select | HandleRead | Swap | RunNext | EndRound

  /** When each thread may take the step. The owner queues and quits only while it is at work; a failed
      assert ends everything. */
  predicate Enabled<F>(l: Loop<F>, op: Op<F>) {
    && !l.aborted
    && match op
       case QueueInLoop(_, sameThread) => sameThread ==> OwnerAtWork(l.phase)
       case Wakeup => l.owed > 0
       case Quit(sameThread) => sameThread ==> OwnerAtWork(l.phase)
       case Start => l.phase.Starting?
       case Clear => l.phase.Entering?
       case Enter => l.phase.Entered?
       case Select => l.phase.Polling?
       case HandleRead => l.phase.Dispatching?
       case Swap => l.phase.Dispatching?
       case RunNext => l.phase.Executing? && l.batch != []
       case EndRound => l.phase.Executing? && l.batch == []
  }

  function Apply<F>(l: Loop<F>, op: Op<F>): Loop<F>
    requires Enabled(l, op)
  {
    match op
    case QueueInLoop(f, sameThread) => l.QueueInLoop(f, sameThread)
    case Wakeup => l.Wakeup()
    case Quit(sameThread) => l.Quit(sameThread)
    case Start => l.Start()
    case Clear => l.Clear()
    case Enter => l.Enter()
    case Select => l.Select()
    case HandleRead => l.HandleRead()
    case Swap => l.Swap()
    case RunNext => l.RunNext()
    case EndRound => l.EndRound()
  }

  lemma QueueKeepsInv<F>(l: Loop<F>, f: F, sameThread: bool)
    requires Inv(l) && (sameThread ==> OwnerAtWork(l.phase))
    ensures Inv(l.QueueInLoop(f, sameThread))
  {
    assert l.executed + (l.batch + (l.pending + [f])) == l.executed + (l.batch + l.pending) + [f];
  }

  lemma RunNextKeepsInv<F>(l: Loop<F>)
    requires Inv(l) && l.phase.Executing? && l.batch != []
    ensures Inv(l.RunNext())
  {
    var f, rest := l.batch[0], l.batch[1..];
    assert l.executed + ([f] + rest + l.pending) == l.executed + [f] + (rest + l.pending);
    assert l.batch == [f] + rest;
  }

  lemma StepKeepsInv<F>(l: Loop<F>, op: Op<F>)
    requires Inv(l) && Enabled(l, op)
    ensures Inv(Apply(l, op))
  {
    match op
    case QueueInLoop(f, sameThread) => QueueKeepsInv(l, f, sameThread);
    case RunNext => RunNextKeepsInv(l);
    case Swap => assert l.Queue() == l.Swap().Queue();
    case _ =>
  }

  predicate IsRun<F(==)>(trace: seq<Loop<F>>, ops: seq<Op<F>>) {
    && |trace| == |ops| + 1
    && trace[0] == Fresh()
    && forall i :: 0 <= i < |ops| ==> Enabled(trace[i], ops[i]) && trace[i + 1] == Apply(trace[i], ops[i])
  }

  lemma {:induction false} RunKeepsInv<F>(trace: seq<Loop<F>>, ops: seq<Op<F>>, n: nat)
    requires IsRun(trace, ops) && n <= |ops|
    ensures Inv(trace[n])
  {
    if n > 0 {
      RunKeepsInv(trace, ops, n - 1);
      StepKeepsInv(trace[n - 1], ops[n - 1]);
    }
  }

  /** The owner queues before `Loop()`: nothing writes the eventfd for that. */
  predicate QueuesEarly<F(==)>(l: Loop<F>, op: Op<F>) {
    op.QueueInLoop? && op.sameThread && l.phase.Starting?
  }

  predicate QueuedEarly<F(==)>(trace: seq<Loop<F>>, ops: seq<Op<F>>, n: nat)
    requires n <= |ops| <= |trace|
  {
    exists i :: 0 <= i < n && QueuesEarly(trace[i], ops[i])
  }

  lemma {:induction false} EarlyExactly<F>(trace: seq<Loop<F>>, ops: seq<Op<F>>, n: nat)
    requires IsRun(trace, ops) && n <= |ops|
    ensures trace[n].early <==> trace[n].rounds == 0 && QueuedEarly(trace, ops, n)
  {
    if n > 0 {
      EarlyExactly(trace, ops, n - 1);
      RunKeepsInv(trace, ops, n - 1);
      StepChangesEarly(trace[n - 1], ops[n - 1]);
      assert QueuedEarly(trace, ops, n) <==> QueuedEarly(trace, ops, n - 1) || QueuesEarly(trace[n - 1], ops[n - 1]);
    }
  }

  lemma StepChangesEarly<F>(l: Loop<F>, op: Op<F>)
    requires Inv(l) && Enabled(l, op)
    ensures var t := Apply(l, op);
            && (t.rounds == 0 ==> l.rounds == 0)
            && (t.early <==> t.rounds == 0 && (l.early || QueuesEarly(l, op)))
            && (QueuesEarly(l, op) ==> t.rounds == 0)
  {}

  /** A Quit whose assignment `Loop()` does not overwrite. */
  predicate QuitLate<F(==)>(trace: seq<Loop<F>>, ops: seq<Op<F>>, n: nat)
    requires n <= |ops| <= |trace|
  {
    exists i :: 0 <= i < n && ops[i].Quit? && !BeforeClearing(trace[i].phase)
  }

  /** Past the clearing, `quit_` is set exactly when such a Quit has been made. */
  lemma {:induction false} QuitExactly<F>(trace: seq<Loop<F>>, ops: seq<Op<F>>, n: nat)
    requires IsRun(trace, ops) && n <= |ops|
    ensures if BeforeClearing(trace[n].phase) then !QuitLate(trace, ops, n)
            else trace[n].quit <==> QuitLate(trace, ops, n)
  {
    if n > 0 {
      QuitExactly(trace, ops, n - 1);
      var l, op := trace[n - 1], ops[n - 1];
      assert Enabled(l, op) && trace[n] == Apply(l, op);
      assert QuitLate(trace, ops, n) <==> QuitLate(trace, ops, n - 1) || (op.Quit? && !BeforeClearing(l.phase));
    }
  }

  /** An assert on `quit_` fails exactly when Quit or `Loop()` is called with it set. */
  lemma {:induction false} AbortsExactly<F>(trace: seq<Loop<F>>, ops: seq<Op<F>>, n: nat)
    requires IsRun(trace, ops) && n <= |ops|
    ensures trace[n].aborted <==> exists i :: 0 <= i < n && (ops[i].Quit? || ops[i].Start?) && trace[i].quit
  {
    if n > 0 {
      AbortsExactly(trace, ops, n - 1);
      assert Enabled(trace[n - 1], ops[n - 1]) && trace[n] == Apply(trace[n - 1], ops[n - 1]);
    }
  }

  lemma StepChangesQuit<F>(l: Loop<F>, op: Op<F>)
    requires Enabled(l, op)
    ensures var t := Apply(l, op);
            && !l.aborted && (t.aborted <==> (op.Quit? || op.Start?) && l.quit)
            && (t.phase.Starting? <==> l.phase.Starting? && !op.Start?)
            && (t.quit <==> op.Quit? || (l.quit && !op.Clear?)) && (op.Clear? ==> l.phase.Entering?)
  {}

  /** With a single Quit: `quit_` is clear until then, and stays set from then on until the assert of `Loop()`. */
  lemma {:induction false} QuitOnce<F>(trace: seq<Loop<F>>, ops: seq<Op<F>>, q: nat, n: nat)
    requires IsRun(trace, ops) && n <= |ops| && q < |ops| && ops[q].Quit?
    requires forall i :: 0 <= i < n && i != q ==> !ops[i].Quit?
    ensures n <= q ==> !trace[n].quit && !trace[n].aborted
    ensures n > q && trace[q].phase.Starting? ==>
              trace[n].aborted || (trace[n].phase.Starting? && trace[n].quit)
    ensures n > q && !trace[q].phase.Starting? ==> !trace[n].phase.Starting? && !trace[n].aborted
  {
    if n > 0 {
      QuitOnce(trace, ops, q, n - 1);
      assert Enabled(trace[n - 1], ops[n - 1]) && trace[n] == Apply(trace[n - 1], ops[n - 1]);
      StepChangesQuit(trace[n - 1], ops[n - 1]);
      hide Apply, Enabled;
    }
  }

  /**
   A loop told once to quit does not hear of it, or dies of it, if and only if it was
   told before `Loop()` had cleared `quit_`.
   */
  lemma QuitLostExactly<F>(trace: seq<Loop<F>>, ops: seq<Op<F>>, q: nat, n: nat)
    requires IsRun(trace, ops) && q < n <= |ops| && ops[q].Quit?
    requires forall i :: 0 <= i < n && i != q ==> !ops[i].Quit?
    requires trace[n].aborted || !BeforeClearing(trace[n].phase)
    ensures (trace[n].aborted || !trace[n].quit) <==> BeforeClearing(trace[q].phase)
  {
    QuitOnce(trace, ops, q, n);
    QuitExactly(trace, ops, n);
  }

  /** The run in which it is told between the assert and the clearing: it sleeps and will not be woken. */
  lemma QuitIsLost<F>() returns (trace: seq<Loop<F>>, ops: seq<Op<F>>)
    ensures IsRun(trace, ops) && |ops| == 9 && ops[1] == Quit(false) && trace[1].phase.Entering?
    ensures var last := trace[|ops|]; WouldBlock(last) && last.owed == 0 && !last.quit && !last.aborted
  {
    var s1 := Fresh<F>().Start();
    var s3 := s1.Quit(false).Wakeup();
    var s5 := s3.Clear().Enter();
    var s7 := s5.Select().HandleRead();
    ops := [Start, Quit(false), Wakeup, Clear, Enter, Select, HandleRead, Swap, EndRound];
    trace := [Fresh(), s1, s1.Quit(false), s3, s3.Clear(), s5, s5.Select(), s7, s7.Swap(), s7.Swap().EndRound()];
  }

  /** The run in which it is told before the assert. */
  lemma QuitBeforeLoopAborts<F>() returns (trace: seq<Loop<F>>, ops: seq<Op<F>>)
    ensures IsRun(trace, ops) && ops == [Quit(false), Start] && trace[2].aborted
  {
    ops := [Quit(false), Start];
    var told := Fresh<F>().Quit(false);
    trace := [Fresh(), told, told.Start()];
  }

  /**
   No lost wakeup. A loop about to sleep with functors queued and nobody about to
   wake it is exactly one in its first round whose owner queued before it. A loop
   about to sleep that was told to quit after `quit_ = false` is about to be woken.
   */
  lemma NoLostWakeup<F>(trace: seq<Loop<F>>, ops: seq<Op<F>>, n: nat)
    requires IsRun(trace, ops) && n <= |ops| && WouldBlock(trace[n])
    ensures var l := trace[n];
            (l.pending != [] && l.owed == 0) <==> (l.owed == 0 && l.rounds == 0 && QueuedEarly(trace, ops, n))
    ensures QuitLate(trace, ops, n) ==> trace[n].owed > 0
  {
    RunKeepsInv(trace, ops, n);
    EarlyExactly(trace, ops, n);
    QuitExactly(trace, ops, n);
  }

  /** So an owner that queues nothing before `Loop()` never leaves a functor to the timeout. */
  lemma NoStallAfterStart<F>(trace: seq<Loop<F>>, ops: seq<Op<F>>, n: nat)
    requires IsRun(trace, ops) && n <= |ops| && WouldBlock(trace[n])
    requires forall i :: 0 <= i < n ==> !QueuesEarly(trace[i], ops[i])
    ensures trace[n].pending != [] ==> trace[n].owed > 0
  {
    NoLostWakeup(trace, ops, n);
  }

  /** The exception is real: functors queued before `Loop()` wait for the first Select to time out. */
  lemma EarlyFunctorsWait<F>(f: F) returns (trace: seq<Loop<F>>, ops: seq<Op<F>>)
    ensures IsRun(trace, ops)
    ensures var last := trace[|ops|];
            WouldBlock(last) && last.pending == [f] && last.owed == 0
  {
    ops := [QueueInLoop(f, true), Start, Clear, Enter];
    var queued := Fresh<F>().QueueInLoop(f, true);
    var started := queued.Start();
    trace := [Fresh(), queued, started, started.Clear(), started.Clear().Enter()];
  }

  /** The functors given to QueueInLoop in the first `n` steps, and those the loop has started. */
  function Given<F>(ops: seq<Op<F>>, n: nat): seq<F>
    requires n <= |ops|
  {
    if n == 0 then [] else Given(ops, n - 1) + if ops[n - 1].QueueInLoop? then [ops[n - 1].f] else []
  }

  function Started<F>(trace: seq<Loop<F>>, ops: seq<Op<F>>, n: nat): seq<F>
    requires n <= |ops| <= |trace|
  {
    if n == 0 then []
    else Started(trace, ops, n - 1)
         + if ops[n - 1].RunNext? && |trace[n - 1].batch| > 0 then [trace[n - 1].batch[0]] else []
  }

  lemma StepRecords<F>(l: Loop<F>, op: Op<F>)
    requires Enabled(l, op)
    ensures Apply(l, op).queued == l.queued + if op.QueueInLoop? then [op.f] else []
    ensures Apply(l, op).executed == l.executed + if op.RunNext? then [l.batch[0]] else []
  {
    assert l.queued + [] == l.queued && l.executed + [] == l.executed;
  }

  lemma {:induction false} HistoriesExactly<F>(trace: seq<Loop<F>>, ops: seq<Op<F>>, n: nat)
    requires IsRun(trace, ops) && n <= |ops|
    ensures trace[n].queued == Given(ops, n) && trace[n].executed == Started(trace, ops, n)
  {
    if n > 0 {
      HistoriesExactly(trace, ops, n - 1);
      StepRecords(trace[n - 1], ops[n - 1]);
    }
  }

  /** Exactly once, in lock order: the functors given are those started, then those left to run. */
  lemma ExecutedInLockOrder<F>(trace: seq<Loop<F>>, ops: seq<Op<F>>, n: nat)
    requires IsRun(trace, ops) && n <= |ops|
    ensures Given(ops, n) == Started(trace, ops, n) + (trace[n].batch + trace[n].pending)
  {
    HistoriesExactly(trace, ops, n);
    RunKeepsInv(trace, ops, n);
  }

  /** Neither history is ever rewritten. */
  lemma {:induction false} HistoriesOnlyGrow<F>(trace: seq<Loop<F>>, ops: seq<Op<F>>, i: nat, n: nat)
    requires IsRun(trace, ops) && i <= n <= |ops|
    ensures trace[i].executed <= trace[n].executed && trace[i].queued <= trace[n].queued
    decreases n
  {
    hide Apply, Enabled;
    if i < n {
      HistoriesOnlyGrow(trace, ops, i, n - 1);
      HistoryGrows(trace[n - 1], ops[n - 1]);
      PrefixTransitive(trace[i].executed, trace[n - 1].executed, trace[n].executed);
      PrefixTransitive(trace[i].queued, trace[n - 1].queued, trace[n].queued);
    }
  }

  lemma HistoryGrows<F>(l: Loop<F>, op: Op<F>)
    requires Enabled(l, op)
    ensures l.executed <= Apply(l, op).executed && l.queued <= Apply(l, op).queued
  {}

  lemma PrefixTransitive<T>(a: seq<T>, b: seq<T>, c: seq<T>)
    requires a <= b <= c
    ensures a <= c
  {}

  /** A QueueInLoop call made while a functor runs, by it or by another thread. */
  datatype Arrival<F> = Arrival(f: F, sameThread: bool)

  function Functors<F>(arrivals: seq<Arrival<F>>): seq<F> {
    seq(|arrivals|, i requires 0 <= i < |arrivals| => arrivals[i].f)
  }

  lemma NoFunctors<F>()
    ensures Functors<F>([]) == []
  {}

  lemma FunctorsSnoc<F>(arrivals: seq<Arrival<F>>, i: nat)
    requires i < |arrivals|
    ensures Functors(arrivals[..i + 1]) == Functors(arrivals[..i]) + [arrivals[i].f]
  {}

  /** What is queued while a list of functors runs, when `during` says what arrives in each one's turn. */
  function Effects<F>(during: (nat, F) -> seq<Arrival<F>>, fs: seq<F>): seq<F> {
    if fs == [] then []
    else Effects(during, fs[..|fs| - 1]) + Functors(during(|fs| - 1, fs[|fs| - 1]))
  }

  lemma EffectsSnoc<F>(during: (nat, F) -> seq<Arrival<F>>, fs: seq<F>, f: F)
    ensures Effects(during, fs + [f]) == Effects(during, fs) + Functors(during(|fs|, f))
  {
    assert (fs + [f])[..|fs|] == fs;
  }

  lemma MoveHead<F>(done: seq<F>, rest: seq<F>)
    requires rest != []
    ensures done + rest == (done + [rest[0]]) + rest[1..]
  {}

  class Dispatcher<F(==)> {
    var pendingFuncs: seq<F>
    var localFuncs: seq<F>
    var inCallingPendingFuncs: bool
    var quit: bool
    var eventfd: bool
    ghost var phase: Phase
    ghost var owed: nat
    ghost var early: bool
    ghost var rounds: nat
    ghost var queued: seq<F>
    ghost var executed: seq<F>
    ghost var calledInline: seq<F> // functors that RunInLoop called at once

    ghost function State(): Loop<F>
      reads this
    {
      Loop(phase, pendingFuncs, localFuncs, eventfd, owed, quit, early, rounds, queued, executed, false)
    }

    ghost predicate Valid()
      reads this
    {
      Inv(State()) && (inCallingPendingFuncs <==> phase.Executing?)
    }

    constructor ()
      ensures Valid() && State() == Fresh()
    {
      pendingFuncs, localFuncs, queued, executed, calledInline := [], [], [], [], [];
      inCallingPendingFuncs, quit, eventfd, early := false, false, false, false;
      phase, owed, rounds := Starting, 0, 0;
    }

    method Wakeup()
      modifies this`eventfd
      ensures eventfd
    {
      eventfd := true;
    }

    /** A whole call: the push, and the eventfd write unless the owner is sure to look at the queue. */
    method QueueInLoop(f: F, sameThread: bool)
      requires Valid() && (sameThread ==> OwnerAtWork(phase))
      modifies this`pendingFuncs, this`eventfd, this`early, this`queued
      ensures Valid()
      ensures var pushed := old(State()).QueueInLoop(f, sameThread);
              State() == if sameThread then pushed else pushed.Wakeup()
      ensures pendingFuncs == old(pendingFuncs) + [f] && queued == old(queued) + [f]
    {
      ghost var op := Op<F>.QueueInLoop(f, sameThread);
      StepKeepsInv(State(), op);
      if !sameThread {
        StepKeepsInv(Apply(State(), op), Op<F>.Wakeup);
      }
      pendingFuncs := pendingFuncs + [f];
      queued := queued + [f];
      early := early || (sameThread && phase.Starting?);
      if !sameThread || inCallingPendingFuncs {
        Wakeup();
      }
    }

    method Quit(sameThread: bool)
      requires Valid() && !quit && (sameThread ==> OwnerAtWork(phase))
      modifies this`quit, this`eventfd
      ensures Valid()
      ensures var told := old(State()).Quit(sameThread); State() == if sameThread then told else told.Wakeup()
    {
      assert !quit;
      quit := true;
      if !sameThread {
        Wakeup();
      }
    }

    /** The head of `Loop()` up to its first Select, when nobody calls Quit in its course. */
    method EnterLoop()
      requires Valid() && phase.Starting? && !quit
      modifies this`phase, this`quit
      ensures Valid() && State() == old(State()).Start().Clear().Enter()
    {
      assert !quit;
      phase := Entering;
      quit := false;
      phase := Entered;
      phase := if quit then Stopped else Polling;
    }

    /** `during`: what is queued on this loop while the functor runs inline. */
    method RunInLoop(f: F, sameThread: bool, during: seq<Arrival<F>>)
      requires Valid() && (sameThread ==> OwnerAtWork(phase))
      modifies this`pendingFuncs, this`eventfd, this`early, this`queued, this`calledInline
      ensures Valid()
      ensures calledInline == old(calledInline) + if sameThread then [f] else []
      ensures pendingFuncs == old(pendingFuncs) + if sameThread then Functors(during) else [f]
      ensures !sameThread ==> eventfd
    {
      if sameThread {
        calledInline := calledInline + [f];
        QueueAll(during);
      } else {
        QueueInLoop(f, false);
      }
    }

    method QueueAll(arrivals: seq<Arrival<F>>)
      requires Valid() && OwnerAtWork(phase)
      modifies this`pendingFuncs, this`eventfd, this`early, this`queued
      ensures Valid()
      ensures pendingFuncs == old(pendingFuncs) + Functors(arrivals) && queued == old(queued) + Functors(arrivals)
    {
      hide Inv, Functors;
      NoFunctors<F>();
      assert arrivals[..0] == [];
      for i := 0 to |arrivals|
        invariant Valid() && pendingFuncs == old(pendingFuncs) + Functors(arrivals[..i])
        invariant queued == old(queued) + Functors(arrivals[..i])
      {
        QueueInLoop(arrivals[i].f, arrivals[i].sameThread);
        FunctorsSnoc(arrivals, i);
      }
      assert arrivals[..|arrivals|] == arrivals;
    }

    method TakeBatch()
      requires Valid() && phase.Dispatching?
      modifies this
      ensures Valid() && State() == old(State()).Swap()
    {
      StepKeepsInv(State(), Op<F>.Swap);
      inCallingPendingFuncs := true;
      localFuncs, pendingFuncs := pendingFuncs, [];
      phase, early, rounds := Executing, false, rounds + 1;
    }

    method CallNext(during: seq<Arrival<F>>) returns (f: F)
      requires Valid() && phase.Executing? && localFuncs != []
      modifies this`localFuncs, this`pendingFuncs, this`eventfd, this`early, this`queued, this`executed
      ensures Valid() && f == old(localFuncs)[0] && localFuncs == old(localFuncs)[1..]
      ensures executed == old(executed) + [f] && pendingFuncs == old(pendingFuncs) + Functors(during)
    {
      RunNextKeepsInv(State());
      f := localFuncs[0];
      executed := executed + [f];
      localFuncs := localFuncs[1..];
      QueueAll(during);
    }

    /** The loop over `local_pending_funcs`. */
    method CallAll(during: (nat, F) -> seq<Arrival<F>>)
      requires Valid() && phase.Executing? && pendingFuncs == []
      modifies this`localFuncs, this`pendingFuncs, this`eventfd, this`early, this`queued, this`executed
      ensures Valid() && localFuncs == []
      ensures executed == old(executed) + old(localFuncs)
      ensures pendingFuncs == Effects(during, old(localFuncs))
    {
      ghost var done := [];
      var k := 0;
      assert done + localFuncs == localFuncs;
      while localFuncs != []
        invariant Valid() && k == |done|
        invariant done + localFuncs == old(localFuncs)
        invariant executed == old(executed) + done
        invariant pendingFuncs == Effects(during, done)
        decreases |localFuncs|
      {
        MoveHead(done, localFuncs);
        EffectsSnoc(during, done, localFuncs[0]);
        var f := CallNext(during(k, localFuncs[0]));
        k := k + 1;
        done := done + [f];
      }
      assert done + [] == done;
    }

    method FinishRound()
      requires Valid() && phase.Executing? && localFuncs == []
      modifies this`inCallingPendingFuncs, this`phase
      ensures Valid() && State() == old(State()).EndRound()
    {
      StepKeepsInv(State(), Op<F>.EndRound);
      inCallingPendingFuncs := false;
      phase := if quit then Stopped else Polling;
    }

    /**
     Runs exactly the functors pending on entry, once each and in order. What they
     and other threads queue meanwhile stays for the next round, which is signalled.
     */
    method ExecutePendingFuncs(during: (nat, F) -> seq<Arrival<F>>)
      requires Valid() && phase.Dispatching?
      modifies this
      ensures Valid()
      ensures executed == old(executed) + old(pendingFuncs) && localFuncs == []
      ensures pendingFuncs == Effects(during, old(pendingFuncs))
      ensures phase == (if quit then Stopped else Polling) && quit == old(quit)
      ensures !quit && pendingFuncs != [] ==> eventfd || owed > 0
    {
      TakeBatch();
      CallAll(during);
      FinishRound();
    }
  }
}
