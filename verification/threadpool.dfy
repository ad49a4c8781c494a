/**
 The thread pool: a bounded queue under one mutex with two Mesa-style condition
 variables. A `Step` is what one thread does between acquiring the mutex, or
 waking with it, and releasing it, by return or by wait. Wake-ups may be spurious.
 */
module ThreadPools {
  import opened Prelude

  type Task = nat

  /** A worker: at the loop test, about to lock in PopTask, in `cond_empty_.wait()`,
      woken there but without the mutex, running a task, or returned. */
  datatype Worker = Testing | Entering | Asleep | Signalled | Running(task: Task) | Exited

  /** A caller of PushTask, with the task it carries. */
  datatype Producer = Idle | Pushing | AsleepFull | SignalledFull

  datatype Pool = Pool(
    max: nat,
    running: bool,
    queue: seq<Task>,
    workers: seq<Worker>,
    producers: seq<Producer>,
    carried: seq<Task>,
    pushed: seq<Task>,   // tasks in the order in which they entered the queue
    popped: seq<Task>,   // tasks in the order in which they left it
    ranInline: seq<Task>, // tasks run by their own producer, the pool having no workers
    aborted: bool)       // an assert of the source has failed

  function Fresh(max: nat, workers: nat, producers: nat): Pool {
    Pool(max, true, [], seq(workers, _ => Testing), seq(producers, _ => Idle), seq(producers, _ => 0),
         [], [], [], false)
  }

  /** `notify()`: thread `n` if it sleeps there; the choice is the scheduler's. */
  function NotifyWorker(workers: seq<Worker>, n: nat): seq<Worker> {
    if n < |workers| && workers[n].Asleep? then workers[n := Signalled] else workers
  }

  function NotifyProducer(producers: seq<Producer>, n: nat): seq<Producer> {
    if n < |producers| && producers[n].AsleepFull? then producers[n := SignalledFull] else producers
  }

  function WakeAll(workers: seq<Worker>): seq<Worker> {
    seq(|workers|, i requires 0 <= i < |workers| => if workers[i].Asleep? then Signalled else workers[i])
  }

  /** Pop: the section of PopTask entered by worker `w`; `n` is whom it would notify. */
  function PopTask(s: Pool, w: nat, n: nat): Pool
    requires w < |s.workers|
  {
    if s.queue == [] && s.running then s.(workers := s.workers[w := Asleep])
    else if s.queue == [] then s.(workers := s.workers[w := Testing])
    else s.(queue := s.queue[1..],
            popped := s.popped + [s.queue[0]],
            workers := s.workers[w := Running(s.queue[0])],
            producers := if s.max > 0 then NotifyProducer(s.producers, n) else s.producers,
            aborted := s.aborted || !(|s.queue| - 1 < s.max))
  }

  /** The head of PushTask: with no workers the caller runs the task itself. */
  function Offer(s: Pool, p: nat, t: Task): Pool
    requires p < |s.producers| && p < |s.carried|
  {
    if s.workers == [] then s.(ranInline := s.ranInline + [t])
    else s.(producers := s.producers[p := Pushing], carried := s.carried[p := t])
  }

  /** Push: the section of PushTask entered by producer `p`. */
  function PushTask(s: Pool, p: nat, n: nat): Pool
    requires p < |s.producers| && p < |s.carried|
  {
    if s.max > 0 && |s.queue| >= s.max then s.(producers := s.producers[p := AsleepFull])
    else s.(queue := s.queue + [s.carried[p]],
            pushed := s.pushed + [s.carried[p]],
            producers := s.producers[p := Idle],
            workers := NotifyWorker(s.workers, n),
            aborted := s.aborted || !(|s.queue| <= s.max))
  }

  function Stop(s: Pool): Pool {
    s.(running := false, workers := WakeAll(s.workers))
  }

  datatype Step =
    | Test(w: nat) | Pop(w: nat, n: nat) | Finish(w: nat) | SpuriousWorker(w: nat)
    | Arrive(p: nat, t: Task) | Push(p: nat, n: nat) | SpuriousProducer(p: nat)
    | StopAll

  predicate Sized(s: Pool) {
    |s.carried| == |s.producers|
  }

  predicate Enabled(s: Pool, step: Step)
    requires Sized(s)
  {
    match step
    case Test(w) => w < |s.workers| && s.workers[w].Testing?
    case Pop(w, n) =>
      w < |s.workers| && (s.workers[w].Entering? || s.workers[w].Signalled?)
      && (AsleepFull in s.producers ==> n < |s.producers| && s.producers[n].AsleepFull?)
    case Finish(w) => w < |s.workers| && s.workers[w].Running?
    case SpuriousWorker(w) => w < |s.workers| && s.workers[w].Asleep?
    case Arrive(p, _) => p < |s.producers| && s.producers[p].Idle?
    case Push(p, n) =>
      p < |s.producers| && (s.producers[p].Pushing? || s.producers[p].SignalledFull?)
      && (Asleep in s.workers ==> n < |s.workers| && s.workers[n].Asleep?)
    case SpuriousProducer(p) => p < |s.producers| && s.producers[p].AsleepFull?
    case StopAll => true
  }

  function Next(s: Pool, step: Step): Pool
    requires Sized(s) && Enabled(s, step)
  {
    match step
    case Test(w) => s.(workers := s.workers[w := if s.running then Entering else Exited])
    case Pop(w, n) => PopTask(s, w, n)
    case Finish(w) => s.(workers := s.workers[w := Testing])
    case SpuriousWorker(w) => s.(workers := s.workers[w := Signalled])
    case Arrive(p, t) => Offer(s, p, t)
    case Push(p, n) => PushTask(s, p, n)
    case SpuriousProducer(p) => s.(producers := s.producers[p := SignalledFull])
    case StopAll => Stop(s)
  }

  // ---------------------------------------------------------------------------
  // No stranded waiter

  /** Workers asleep on the empty queue are there only while woken ones cover its `load` tasks. */
  predicate WorkersCover(workers: seq<Worker>, running: bool, load: int) {
    Asleep in workers ==> running && load <= multiset(workers)[Signalled]
  }

  /** Producers asleep on the full queue are there only while woken ones cover its `free` slots. */
  predicate ProducersCover(producers: seq<Producer>, free: int) {
    AsleepFull in producers ==> free <= multiset(producers)[SignalledFull]
  }

  predicate Inv(s: Pool) {
    && Sized(s)
    && !s.aborted
    && |s.queue| <= s.max
    && s.pushed == s.popped + s.queue
    && WorkersCover(s.workers, s.running, |s.queue|)
    && ProducersCover(s.producers, s.max - |s.queue|)
  }

  lemma Replaced<T>(s: seq<T>, i: nat, x: T)
    requires i < |s|
    ensures multiset(s[i := x]) == multiset(s) - multiset{s[i]} + multiset{x}
    ensures forall y :: y in s[i := x] ==> y == x || y in s
  {}

  lemma WorkerMoves(workers: seq<Worker>, running: bool, load: int, w: nat, x: Worker, load': int)
    requires w < |workers| && WorkersCover(workers, running, load)
    requires if x.Asleep? then running && load' <= 0
             else load' + Count(workers[w].Signalled?) <= load + Count(x.Signalled?) || load' <= 0
    ensures WorkersCover(workers[w := x], running, load')
  {
    Replaced(workers, w, x);
  }

  lemma WorkerNotified(workers: seq<Worker>, running: bool, load: int, n: nat)
    requires WorkersCover(workers, running, load)
    requires Asleep in workers ==> n < |workers| && workers[n].Asleep?
    ensures WorkersCover(NotifyWorker(workers, n), running, load + 1)
  {
    if Asleep in workers { Replaced(workers, n, Signalled); }
  }

  lemma ProducerMoves(producers: seq<Producer>, free: int, p: nat, x: Producer, free': int)
    requires p < |producers| && ProducersCover(producers, free)
    requires if x.AsleepFull? then free' <= 0
             else free' + Count(producers[p].SignalledFull?) <= free + Count(x.SignalledFull?) || free' <= 0
    ensures ProducersCover(producers[p := x], free')
  {
    Replaced(producers, p, x);
  }

  lemma ProducerNotified(producers: seq<Producer>, free: int, n: nat)
    requires ProducersCover(producers, free)
    requires AsleepFull in producers ==> n < |producers| && producers[n].AsleepFull?
    ensures ProducersCover(NotifyProducer(producers, n), free + 1)
  {
    if AsleepFull in producers { Replaced(producers, n, SignalledFull); }
  }

  lemma PopKeepsInv(s: Pool, w: nat, n: nat)
    requires s.max > 0 && Inv(s) && Enabled(s, Pop(w, n))
    ensures Inv(PopTask(s, w, n))
  {
    var t := PopTask(s, w, n);
    WorkerMoves(s.workers, s.running, |s.queue|, w, t.workers[w], |t.queue|);
    if s.queue != [] {
      assert s.queue == [s.queue[0]] + s.queue[1..];
      assert s.pushed == t.popped + t.queue;
      ProducerNotified(s.producers, s.max - |s.queue|, n);
    }
  }

  lemma PushKeepsInv(s: Pool, p: nat, n: nat)
    requires s.max > 0 && Inv(s) && Enabled(s, Push(p, n))
    ensures Inv(PushTask(s, p, n))
  {
    var t := PushTask(s, p, n);
    ProducerMoves(s.producers, s.max - |s.queue|, p, t.producers[p], t.max - |t.queue|);
    if |s.queue| < s.max {
      assert s.pushed + [s.carried[p]] == s.popped + (s.queue + [s.carried[p]]);
      WorkerNotified(s.workers, s.running, |s.queue|, n);
    }
  }

  lemma StepKeepsInv(s: Pool, step: Step)
    requires s.max > 0 && Inv(s) && Enabled(s, step)
    ensures Inv(Next(s, step)) && Next(s, step).max == s.max
  {
    var t := Next(s, step);
    match step
    case Pop(w, n) => PopKeepsInv(s, w, n);
    case Push(p, n) => PushKeepsInv(s, p, n);
    case Test(w) => WorkerMoves(s.workers, s.running, |s.queue|, w, t.workers[w], |s.queue|);
    case Finish(w) => WorkerMoves(s.workers, s.running, |s.queue|, w, t.workers[w], |s.queue|);
    case SpuriousWorker(w) => WorkerMoves(s.workers, s.running, |s.queue|, w, t.workers[w], |s.queue|);
    case Arrive(p, _) => ProducerMoves(s.producers, s.max - |s.queue|, p, Pushing, s.max - |s.queue|);
    case SpuriousProducer(p) => ProducerMoves(s.producers, s.max - |s.queue|, p, t.producers[p], s.max - |s.queue|);
    case StopAll =>
  }

  predicate IsRun(max: nat, workers: nat, producers: nat, trace: seq<Pool>, steps: seq<Step>) {
    && |trace| == |steps| + 1
    && trace[0] == Fresh(max, workers, producers)
    && forall i :: 0 <= i < |steps| ==>
         Sized(trace[i]) && Enabled(trace[i], steps[i]) && trace[i + 1] == Next(trace[i], steps[i])
  }

  lemma {:induction false} RunKeepsInv(
      max: nat, workers: nat, producers: nat, trace: seq<Pool>, steps: seq<Step>, n: nat)
    requires max > 0 && IsRun(max, workers, producers, trace, steps) && n <= |steps|
    ensures Inv(trace[n]) && trace[n].max == max
  {
    if n > 0 {
      RunKeepsInv(max, workers, producers, trace, steps, n - 1);
      StepKeepsInv(trace[n - 1], steps[n - 1]);
    }
  }

  /**
   In every interleaving a sleeping worker means that woken workers cover the
   queue, and a sleeping producer that woken producers cover the free slots: work
   and sleeping workers, or room and sleeping producers, never wait for each other.
   */
  lemma NoStrandedWaiter(max: nat, workers: nat, producers: nat, trace: seq<Pool>, steps: seq<Step>, n: nat)
    requires max > 0 && IsRun(max, workers, producers, trace, steps) && n <= |steps|
    ensures var s := trace[n];
            && !s.aborted && |s.queue| <= max
            && (Asleep in s.workers ==> |s.queue| <= multiset(s.workers)[Signalled])
            && (AsleepFull in s.producers ==> max - |s.queue| <= multiset(s.producers)[SignalledFull])
            && (s.queue != [] ==> forall w :: 0 <= w < |s.workers| && s.workers[w].Asleep? ==> Signalled in s.workers)
            && (|s.queue| < max ==>
                  forall p :: 0 <= p < |s.producers| && s.producers[p].AsleepFull? ==> SignalledFull in s.producers)
  {
    RunKeepsInv(max, workers, producers, trace, steps, n);
  }

  /** Tasks leave the queue in push order, each at most once. */
  lemma TasksInPushOrder(max: nat, workers: nat, producers: nat, trace: seq<Pool>, steps: seq<Step>, n: nat)
    requires max > 0 && IsRun(max, workers, producers, trace, steps) && n <= |steps|
    ensures trace[n].popped <= trace[n].pushed && trace[n].pushed == trace[n].popped + trace[n].queue
  {
    RunKeepsInv(max, workers, producers, trace, steps, n);
  }

  // ---------------------------------------------------------------------------
  // Which tasks run

  /** The task of producer `p`'s last PushTask before step `n`. */
  function LastArrival(steps: seq<Step>, n: nat, p: nat): Task
    requires n <= |steps|
  {
    if n == 0 then 0
    else if steps[n - 1].Arrive? && steps[n - 1].p == p then steps[n - 1].t
    else LastArrival(steps, n - 1, p)
  }

  /** What a step puts into a queue that is unbounded or has room. */
  function TaskPushed(s: Pool, steps: seq<Step>, i: nat): seq<Task>
    requires i < |steps|
  {
    if steps[i].Push? && (s.max == 0 || |s.queue| < s.max) then [LastArrival(steps, i, steps[i].p)] else []
  }

  /** The task that a worker has in hand after its PopTask. */
  function TaskTaken(t: Pool, step: Step): seq<Task> {
    if step.Pop? && step.w < |t.workers| && t.workers[step.w].Running? then [t.workers[step.w].task] else []
  }

  function TasksPushed(trace: seq<Pool>, steps: seq<Step>, n: nat): seq<Task>
    requires n <= |steps| < |trace|
  {
    if n == 0 then [] else TasksPushed(trace, steps, n - 1) + TaskPushed(trace[n - 1], steps, n - 1)
  }

  function TasksTaken(trace: seq<Pool>, steps: seq<Step>, n: nat): seq<Task>
    requires n <= |steps| < |trace|
  {
    if n == 0 then [] else TasksTaken(trace, steps, n - 1) + TaskTaken(trace[n], steps[n - 1])
  }

  /** The tasks given to a pool without workers. */
  function TasksInline(trace: seq<Pool>, steps: seq<Step>, n: nat): seq<Task>
    requires n <= |steps| < |trace|
  {
    if n == 0 then []
    else TasksInline(trace, steps, n - 1)
         + if steps[n - 1].Arrive? && trace[n - 1].workers == [] then [steps[n - 1].t] else []
  }

  lemma {:induction false} CarriedIsLastArrival(
      max: nat, workers: nat, producers: nat, trace: seq<Pool>, steps: seq<Step>, n: nat, p: nat)
    requires IsRun(max, workers, producers, trace, steps) && n <= |steps| && p < producers && workers > 0
    ensures |trace[n].producers| == |trace[n].carried| == producers && |trace[n].workers| == workers
    ensures trace[n].max == max && trace[n].carried[p] == LastArrival(steps, n, p)
  {
    if n > 0 {
      CarriedIsLastArrival(max, workers, producers, trace, steps, n - 1, p);
      assert Enabled(trace[n - 1], steps[n - 1]) && trace[n] == Next(trace[n - 1], steps[n - 1]);
    }
  }

  /** A pool without workers has no Push: its producers run their tasks themselves. */
  lemma {:induction false} NoWorkersNoQueue(
      max: nat, producers: nat, trace: seq<Pool>, steps: seq<Step>, n: nat)
    requires IsRun(max, 0, producers, trace, steps) && n <= |steps|
    ensures trace[n].workers == [] && trace[n].queue == []
    ensures forall p :: 0 <= p < |trace[n].producers| ==> trace[n].producers[p].Idle?
    ensures n < |steps| ==> !steps[n].Push? && !steps[n].Pop?
  {
    if n > 0 {
      NoWorkersNoQueue(max, producers, trace, steps, n - 1);
    }
    if n < |steps| { assert Enabled(trace[n], steps[n]); }
  }

  lemma PopTakes(s: Pool, w: nat, n: nat)
    requires Sized(s) && Enabled(s, Pop(w, n))
    ensures var t := PopTask(s, w, n);
            && s.queue == TaskTaken(t, Pop(w, n)) + t.queue
            && (t.workers[w].Running? <==> s.queue != [])
            && (t.workers[w].Asleep? <==> s.queue == [] && s.running)
  {
    if s.queue != [] { assert s.queue == [s.queue[0]] + s.queue[1..]; }
  }

  lemma StepMovesTasks(max: nat, workers: nat, producers: nat, trace: seq<Pool>, steps: seq<Step>, i: nat)
    requires IsRun(max, workers, producers, trace, steps) && i < |steps|
    ensures trace[i].queue + TaskPushed(trace[i], steps, i) == TaskTaken(trace[i + 1], steps[i]) + trace[i + 1].queue
  {
    var s, t := trace[i], trace[i + 1];
    assert Enabled(s, steps[i]) && t == Next(s, steps[i]);
    assert s.queue + [] == s.queue && [] + t.queue == t.queue;
    match steps[i]
    case Pop(w, n) => PopTakes(s, w, n);
    case Push(p, _) =>
      if workers == 0 {
        NoWorkersNoQueue(max, producers, trace, steps, i);
      } else {
        ProducersCount(max, workers, producers, trace, steps, i);
        CarriedIsLastArrival(max, workers, producers, trace, steps, i, p);
      }
    case _ =>
  }

  lemma {:induction false} ProducersCount(
      max: nat, workers: nat, producers: nat, trace: seq<Pool>, steps: seq<Step>, n: nat)
    requires IsRun(max, workers, producers, trace, steps) && n <= |steps|
    ensures |trace[n].producers| == producers && trace[n].max == max
  {
    if n > 0 {
      ProducersCount(max, workers, producers, trace, steps, n - 1);
      assert trace[n] == Next(trace[n - 1], steps[n - 1]);
    }
  }

  /**
   The workers take, and so run, exactly the tasks given to PushTask, each once and in
   the order in which they entered the queue; the rest is the queue. A worker comes back
   from PopTask without a task only from an empty queue.
   */
  lemma {:induction false} TasksRunInOrder(
      max: nat, workers: nat, producers: nat, trace: seq<Pool>, steps: seq<Step>, n: nat)
    requires IsRun(max, workers, producers, trace, steps) && n <= |steps|
    ensures TasksPushed(trace, steps, n) == TasksTaken(trace, steps, n) + trace[n].queue
    ensures trace[n].ranInline == TasksInline(trace, steps, n)
    ensures n < |steps| && steps[n].Pop? && steps[n].w < |trace[n + 1].workers| ==>
              (trace[n + 1].workers[steps[n].w].Running? <==> trace[n].queue != [])
  {
    hide Next, Enabled, TaskPushed, TaskTaken;
    if n > 0 {
      TasksRunInOrder(max, workers, producers, trace, steps, n - 1);
      StepMovesTasks(max, workers, producers, trace, steps, n - 1);
      InlineStep(trace[n - 1], steps[n - 1]);
      var taken, added := TasksTaken(trace, steps, n - 1), TaskPushed(trace[n - 1], steps, n - 1);
      assert taken + trace[n - 1].queue + added == taken + (trace[n - 1].queue + added);
      var now := TaskTaken(trace[n], steps[n - 1]);
      assert taken + (now + trace[n].queue) == taken + now + trace[n].queue;
    }
    if n < |steps| && steps[n].Pop? { PopStep(trace[n], steps[n]); }
  }

  lemma InlineStep(s: Pool, step: Step)
    requires Sized(s) && Enabled(s, step)
    ensures Next(s, step).ranInline == s.ranInline + if step.Arrive? && s.workers == [] then [step.t] else []
  {
    assert s.ranInline + [] == s.ranInline;
  }

  lemma PopStep(s: Pool, step: Step)
    requires Sized(s) && Enabled(s, step) && step.Pop?
    ensures step.w < |Next(s, step).workers| && (Next(s, step).workers[step.w].Running? <==> s.queue != [])
  {
    PopTakes(s, step.w, step.n);
  }

  /** PushTask returns once it has pushed, so each call pushes one task; without room it waits. */
  lemma PushReturns(s: Pool, p: nat, n: nat)
    requires Sized(s) && Enabled(s, Push(p, n))
    ensures var t := PushTask(s, p, n);
            if s.max == 0 || |s.queue| < s.max then t.producers[p].Idle? else t.producers[p].AsleepFull?
  {}

  /** Where each thread's own step takes it, apart from PopTask and a Push: see `PopTakes` and `PushReturns`. */
  lemma ThreadMoves(s: Pool, step: Step)
    requires Sized(s) && Enabled(s, step)
    ensures step.Test? ==> Next(s, step).workers == s.workers[step.w := if s.running then Entering else Exited]
    ensures step.Finish? ==> Next(s, step).workers == s.workers[step.w := Testing]
    ensures step.SpuriousWorker? ==> Next(s, step).workers == s.workers[step.w := Signalled]
    ensures step.SpuriousProducer? ==> Next(s, step).producers == s.producers[step.p := SignalledFull]
    ensures step.Arrive? ==> Next(s, step).producers
                             == if s.workers == [] then s.producers else s.producers[step.p := Pushing]
  {}

  /** A worker keeps its task until it has finished it, whatever the others do. */
  lemma TaskIsKept(s: Pool, step: Step, w: nat)
    requires Sized(s) && Enabled(s, step) && w < |s.workers| && s.workers[w].Running? && step != Finish(w)
    ensures w < |Next(s, step).workers| && Next(s, step).workers[w] == s.workers[w]
  {}

  /** The pool runs, and no worker returns, until Stop. */
  lemma {:induction false} RunsUntilStop(
      max: nat, workers: nat, producers: nat, trace: seq<Pool>, steps: seq<Step>, n: nat)
    requires IsRun(max, workers, producers, trace, steps) && n <= |steps|
    ensures trace[n].running <==> forall i :: 0 <= i < n ==> !steps[i].StopAll?
    ensures trace[n].running ==> Exited !in trace[n].workers
  {
    if n > 0 {
      RunsUntilStop(max, workers, producers, trace, steps, n - 1);
      assert Enabled(trace[n - 1], steps[n - 1]) && trace[n] == Next(trace[n - 1], steps[n - 1]);
      NobodyExits(trace[n - 1], steps[n - 1]);
      hide Next, Enabled;
    }
  }

  lemma NobodyExits(s: Pool, step: Step)
    requires Sized(s) && Enabled(s, step)
    ensures Next(s, step).running <==> s.running && !step.StopAll?
    ensures Next(s, step).running && Exited !in s.workers ==> Exited !in Next(s, step).workers
  {}

  /** A pool of capacity 0 aborts as soon as a worker takes a task, so `max > 0` is needed. */
  lemma CapacityZeroAborts(t: Task) returns (trace: seq<Pool>, steps: seq<Step>)
    ensures IsRun(0, 1, 1, trace, steps) && trace[|steps|].aborted
  {
    steps := [Arrive(0, t), Push(0, 0), Test(0), Pop(0, 0)];
    var s0 := Fresh(0, 1, 1);
    var s1 := Next(s0, steps[0]);
    var s2 := Next(s1, steps[1]);
    var s3 := Next(s2, steps[2]);
    trace := [s0, s1, s2, s3, Next(s3, steps[3])];
  }

  // ---------------------------------------------------------------------------
  // Stop

  /** Steps a worker can still take once the pool has stopped. */
  function Rank(w: Worker): nat {
    match w
    case Exited => 0
    case Testing => 1
    case Running(_) => 2
    case _ => 3
  }

  function TotalRank(workers: seq<Worker>): nat {
    if workers == [] then 0 else Rank(workers[0]) + TotalRank(workers[1..])
  }

  lemma {:induction false} TotalRankUpdate(workers: seq<Worker>, i: nat, w: Worker)
    requires i < |workers|
    ensures TotalRank(workers[i := w]) + Rank(workers[i]) == TotalRank(workers) + Rank(w)
  {
    if i > 0 {
      assert workers[i := w][1..] == workers[1..][i - 1 := w];
      TotalRankUpdate(workers[1..], i - 1, w);
    } else {
      assert workers[i := w][1..] == workers[1..];
    }
  }

  lemma {:induction false} TotalRankBound(workers: seq<Worker>)
    ensures TotalRank(workers) <= 3 * |workers|
    ensures TotalRank(workers) == 0 <==> forall i :: 0 <= i < |workers| ==> workers[i].Exited?
  {
    if workers != [] {
      TotalRankBound(workers[1..]);
      assert forall i :: 0 < i < |workers| ==> workers[i] == workers[1..][i - 1];
    }
  }

  predicate OfWorker(step: Step) {
    step.Test? || step.Pop? || step.Finish? || step.SpuriousWorker?
  }

  /** After Stop nobody sleeps on the empty queue again, and every step of a worker brings it nearer its exit. */
  lemma StoppedStep(s: Pool, step: Step)
    requires s.max > 0 && Inv(s) && !s.running && Enabled(s, step)
    ensures var t := Next(s, step);
            && !t.running && Asleep !in t.workers && |t.workers| == |s.workers|
            && TotalRank(t.workers) + Count(OfWorker(step)) <= TotalRank(s.workers)
  {
    StepKeepsInv(s, step);
    var t := Next(s, step);
    match step
    case Test(w) => TotalRankUpdate(s.workers, w, t.workers[w]);
    case Pop(w, _) => TotalRankUpdate(s.workers, w, t.workers[w]);
    case Finish(w) => TotalRankUpdate(s.workers, w, t.workers[w]);
    case StopAll => assert WakeAll(s.workers) == s.workers;
    case _ =>
  }

  function WorkerSteps(steps: seq<Step>, i: nat, n: nat): nat
    requires i <= n <= |steps|
    decreases n
  {
    if i == n then 0 else WorkerSteps(steps, i, n - 1) + Count(OfWorker(steps[n - 1]))
  }

  /** From Stop on, in every run, the workers together take at most three steps each before all have returned. */
  lemma {:induction false} StopTerminates(
      max: nat, workers: nat, producers: nat, trace: seq<Pool>, steps: seq<Step>, i: nat, n: nat)
    requires max > 0 && IsRun(max, workers, producers, trace, steps) && i <= n <= |steps| && !trace[i].running
    ensures !trace[n].running && Asleep !in trace[n].workers && |trace[n].workers| == |trace[i].workers|
    ensures WorkerSteps(steps, i, n) + TotalRank(trace[n].workers) <= TotalRank(trace[i].workers)
    ensures TotalRank(trace[i].workers) <= 3 * |trace[i].workers|
    decreases n
  {
    hide Next, Enabled;
    TotalRankBound(trace[i].workers);
    if i < n {
      StopTerminates(max, workers, producers, trace, steps, i, n - 1);
      RunKeepsInv(max, workers, producers, trace, steps, n - 1);
      StoppedStep(trace[n - 1], steps[n - 1]);
    } else {
      RunKeepsInv(max, workers, producers, trace, steps, n);
    }
  }

  /** While a worker has not returned after Stop, it can take a step whatever the others do. */
  lemma StoppedWorkerCanStep(s: Pool, w: nat) returns (step: Step)
    requires Inv(s) && !s.running && w < |s.workers| && !s.workers[w].Exited?
    ensures OfWorker(step) && Enabled(s, step)
  {
    if s.workers[w].Testing? {
      step := Test(w);
    } else if s.workers[w].Running? {
      step := Finish(w);
    } else {
      assert Asleep !in s.workers;
      if AsleepFull in s.producers {
        var n: nat :| n < |s.producers| && s.producers[n].AsleepFull?;
        step := Pop(w, n);
      } else {
        step := Pop(w, 0);
      }
    }
  }

  /** Whether worker `w` still has a PopTask to do. */
  function PopsLeft(w: Worker): nat {
    if w.Entering? || w.Signalled? || w.Asleep? then 1 else 0
  }

  function Pops(steps: seq<Step>, w: nat, i: nat, n: nat): nat
    requires i <= n <= |steps|
    decreases n
  {
    if i == n then 0 else Pops(steps, w, i, n - 1) + Count(steps[n - 1].Pop? && steps[n - 1].w == w)
  }

  lemma OnePop(s: Pool, step: Step, w: nat)
    requires Sized(s) && Enabled(s, step) && !s.running && w < |s.workers| && Asleep !in s.workers
    ensures |Next(s, step).workers| == |s.workers|
    ensures PopsLeft(Next(s, step).workers[w]) + Count(step.Pop? && step.w == w) <= PopsLeft(s.workers[w])
  {}

  /** From Stop on each worker completes at most one more PopTask. */
  lemma {:induction false} AtMostOneMorePop(
      max: nat, workers: nat, producers: nat, trace: seq<Pool>, steps: seq<Step>, w: nat, i: nat, n: nat)
    requires max > 0 && IsRun(max, workers, producers, trace, steps) && i <= n <= |steps| && !trace[i].running
    requires w < |trace[i].workers|
    ensures |trace[n].workers| == |trace[i].workers|
    ensures Pops(steps, w, i, n) + PopsLeft(trace[n].workers[w]) <= PopsLeft(trace[i].workers[w]) <= 1
    decreases n
  {
    hide Next, Inv;
    StopTerminates(max, workers, producers, trace, steps, i, n);
    if i < n {
      AtMostOneMorePop(max, workers, producers, trace, steps, w, i, n - 1);
      StopTerminates(max, workers, producers, trace, steps, i, n - 1);
      OnePop(trace[n - 1], steps[n - 1], w);
    }
  }

  // ---------------------------------------------------------------------------
  // The pool object

  class ThreadPool {
    const maxQueueSize: nat
    var running: bool
    var queue: seq<Task>
    var workers: seq<Worker>
    var producers: seq<Producer>
    var carried: seq<Task>
    ghost var pushed: seq<Task>
    ghost var popped: seq<Task>
    ghost var ranInline: seq<Task>

    ghost function State(): Pool
      reads this
    {
      Pool(maxQueueSize, running, queue, workers, producers, carried, pushed, popped, ranInline, false)
    }

    ghost predicate Valid()
      reads this
    {
      maxQueueSize > 0 && Inv(State())
    }

    /** The pool after Start: every worker at its loop test. */
    constructor (max: nat, numWorkers: nat, numProducers: nat)
      requires max > 0
      ensures Valid() && State() == Fresh(max, numWorkers, numProducers)
    {
      maxQueueSize, running, queue := max, true, [];
      workers := seq(numWorkers, _ => Testing);
      producers := seq(numProducers, _ => Idle);
      carried := seq(numProducers, _ => 0);
      pushed, popped, ranInline := [], [], [];
    }

    method NotifyEmpty(n: nat)
      modifies this`workers
      ensures workers == NotifyWorker(old(workers), n)
    {
      if n < |workers| && workers[n].Asleep? {
        workers := workers[n := Signalled];
      }
    }

    method NotifyFull(n: nat)
      modifies this`producers
      ensures producers == NotifyProducer(old(producers), n)
    {
      if n < |producers| && producers[n].AsleepFull? {
        producers := producers[n := SignalledFull];
      }
    }

    /** PushTask up to the mutex. */
    method Offer(p: nat, t: Task)
      requires Valid() && Enabled(State(), Arrive(p, t))
      modifies this`producers, this`carried, this`ranInline
      ensures Valid() && State() == Next(old(State()), Arrive(p, t))
    {
      StepKeepsInv(State(), Arrive(p, t));
      if |workers| == 0 {
        ranInline := ranInline + [t];
      } else {
        producers, carried := producers[p := Pushing], carried[p := t];
      }
    }

    /** PushTask from the mutex to the wait, or to its return. */
    method PushTask(p: nat, n: nat)
      requires Valid() && Enabled(State(), Push(p, n))
      modifies this`producers, this`workers, this`queue, this`pushed
      ensures Valid() && State() == Next(old(State()), Push(p, n))
    {
      PushKeepsInv(State(), p, n);
      if maxQueueSize > 0 && |queue| >= maxQueueSize {
        producers := producers[p := AsleepFull];
      } else {
        assert |queue| <= maxQueueSize;
        queue := queue + [carried[p]];
        pushed := pushed + [carried[p]];
        producers := producers[p := Idle];
        NotifyEmpty(n);
      }
    }

    /** PopTask from the mutex to the wait, or to its return; None is the empty function object. */
    method PopTask(w: nat, n: nat)
      requires Valid() && Enabled(State(), Pop(w, n))
      modifies this`producers, this`workers, this`queue, this`popped
      ensures Valid() && State() == Next(old(State()), Pop(w, n))
    {
      PopKeepsInv(State(), w, n);
      if |queue| == 0 && running {
        workers := workers[w := Asleep];
      } else if |queue| > 0 {
        var task := queue[0];
        queue := queue[1..];
        popped := popped + [task];
        workers := workers[w := Running(task)];
        assert |queue| < maxQueueSize;
        if maxQueueSize > 0 {
          NotifyFull(n);
        }
      } else {
        workers := workers[w := Testing];
      }
    }

    /** Stop up to its Join loop. */
    method Stop()
      requires Valid()
      modifies this`running, this`workers
      ensures Valid() && State() == Next(old(State()), StopAll)
    {
      StepKeepsInv(State(), StopAll);
      running := false;
      workers := WakeAll(workers);
    }
  }
}
