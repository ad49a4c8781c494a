/**
 TcpConnection itself: the object whose methods update the connection state,
 the interest set and the two buffers. Each method is proved to be the `Streams`
 action of the same name, so every run of method calls is a run of actions.
 */
module TcpConnections {
  import opened EventHandlers
  import opened Buffers
  import opened Prelude
  import S = Streams

  /** A call the user's message callback makes on the connection. */
  datatype UserCall = UserSend(data: string, budget: int) | UserShutDown

  /** The kernel's and the user's choices while one event is handled. */
  datatype Round = Round(onClose: int, onError: int, onWrite: int, read: ReadResult,
                         taken: nat, calls: seq<UserCall>)

  function UserActions(calls: seq<UserCall>): seq<S.Action> {
    seq(|calls|, i requires 0 <= i < |calls| =>
      match calls[i]
      case UserSend(data, budget) => S.Send(data, budget)
      case UserShutDown => S.Close)
  }

  function CallbackActions(callback: Callback, round: Round): seq<S.Action> {
    match callback
    case OnClose => [S.Writable(round.onClose)]
    case OnError => [S.Writable(round.onError)]
    case OnWrite => [S.Writable(round.onWrite)]
    case OnRead => if round.read.Failed? then []
                   else if round.read.bytes == "" then [S.Eof]
                   else UserActions(round.calls)
  }

  /** All a handler does for one epoll event, in dispatch order. */
  function EventActions(callbacks: seq<Callback>, round: Round): seq<S.Action> {
    if callbacks == [] then []
    else CallbackActions(callbacks[0], round) + EventActions(callbacks[1..], round)
  }

  /** What the message callback is given to read: all that waits, the bytes just read last. */
  function Delivered(waiting: string, read: ReadResult): seq<string> {
    if read.Received? && read.bytes != "" then [waiting + read.bytes] else []
  }

  /** What is left of the input when it has taken what it wants. */
  function InputLeft(waiting: string, read: ReadResult, taken: nat): string {
    if read.Failed? || read.bytes == "" then waiting
    else
      var had := waiting + read.bytes;
      if taken <= |had| then had[taken..] else ""
  }

  class TcpConnection {
    const config: S.Config
    const handler: EventHandler
    const inputBuf: Buffer
    const outputBuf: Buffer
    var state: S.ConnState
    var queued: seq<S.Functor>
    var pending: seq<S.Call> // this connection's calls in the loop's functor queue
    ghost var accepted: string
    ghost var written: string
    ghost var fins: nat
    ghost var closed: bool
    ghost var delivered: seq<string> // what each call of the message callback found in the input buffer
    // other threads in the middle of a call
    ghost var armed: nat
    ghost var inHand: multiset<S.Call>

    /** The arrays under the buffers: all of the footprint that a call can replace. */
    ghost function Arrays(): set<object>
      reads inputBuf, outputBuf
    {
      {inputBuf.data, outputBuf.data}
    }

    /** Arrays are replaced by fresh ones only. */
    twostate predicate ArraysKept()
      reads inputBuf, outputBuf
    {
      && (inputBuf.data == old(inputBuf.data) || fresh(inputBuf.data))
      && (outputBuf.data == old(outputBuf.data) || fresh(outputBuf.data))
    }

    /** Nothing was read, nor given to the message callback. */
    twostate predicate InputKept()
      requires old(inputBuf.Valid()) && inputBuf.Valid()
      reads this, inputBuf, inputBuf.data
    {
      && inputBuf.Payload() == old(inputBuf.Payload()) && delivered == old(delivered)
      && inputBuf.ReadLimit() == old(inputBuf.ReadLimit())
    }

    /** All that was read was given to the message callback, behind all that waited. */
    twostate predicate InputTaken(round: Round)
      requires old(inputBuf.Valid()) && inputBuf.Valid()
      reads this, inputBuf, inputBuf.data
    {
      && delivered == old(delivered) + Delivered(old(inputBuf.Payload()), round.read)
      && inputBuf.Payload() == InputLeft(old(inputBuf.Payload()), round.read, round.taken)
    }

    ghost predicate Valid()
      reads this, handler, inputBuf, outputBuf, inputBuf.data, outputBuf.data
    {
      && inputBuf != outputBuf && inputBuf.data != outputBuf.data
      && inputBuf.Valid() && outputBuf.Valid()
      && S.Inv(Stream())
    }

    ghost function Stream(): S.Stream
      requires outputBuf.Valid()
      reads this, handler, outputBuf, outputBuf.data
    {
      S.Stream(state, handler.IsCareRead(), handler.IsCareWrite(), closed,
               outputBuf.Payload(), accepted, written, fins, queued, armed, inHand, pending)
    }

    constructor (config: S.Config)
      ensures Valid() && fresh(handler) && fresh(inputBuf) && fresh(outputBuf) && fresh(Arrays())
      ensures this.config == config && Stream() == S.FRESH && inputBuf.Contents() == Buffers.FRESH && delivered == []
      ensures !handler.eventHandling
    {
      this.config := config;
      handler := new EventHandler();
      inputBuf := new Buffer();
      outputBuf := new Buffer();
      state, queued, pending := S.Connecting, [], [];
      accepted, written, fins, closed, armed, inHand, delivered := "", "", 0, false, 0, multiset{}, [];
      new;
      assert outputBuf.Payload() == outputBuf.Contents().payload;
    }

    /** The `write` system call: an arbitrary budget decides what the kernel takes. */
    method Write(data: string, budget: int) returns (n: int)
      modifies this`written
      ensures n == S.KernelTakes(budget, |data|)
      ensures written == old(written) + data[..S.Max0(n)]
    {
      n := S.KernelTakes(budget, |data|);
      written := written + data[..S.Max0(n)];
    }

    method QueueInLoop(f: S.Functor)
      modifies this`queued
      ensures queued == old(queued) + [f]
    {
      queued := queued + [f];
    }

    /** The first half of SendInLoop: try the kernel when nothing is waiting. */
    method WriteDirectly(data: string, budget: int) returns (n: nat)
      requires outputBuf.Valid()
      modifies this`queued, this`written
      ensures n <= |data| && written == old(written) + data[..n]
      ensures var direct := !handler.IsCareWrite() && outputBuf.Payload() == "";
              var taken := if direct then S.KernelTakes(budget, |data|) else 0;
              && n == S.Max0(taken)
              && queued == old(queued)
                 + if config.hasComplete && direct && taken == |data| then [S.WriteComplete] else []
    {
      n := 0;
      if !handler.IsCareWrite() && outputBuf.PayloadSize() == 0 {
        var taken := Write(data, budget);
        if taken >= 0 {
          n := taken;
          if n == |data| && config.hasComplete {
            QueueInLoop(S.WriteComplete);
          }
        }
      }
    }

    /** The second half: what the kernel did not take joins the backlog. */
    method BufferRest(rest: string)
      requires outputBuf.Valid()
      modifies this`queued, handler`events, outputBuf, outputBuf.data
      ensures outputBuf.Valid() && (outputBuf.data == old(outputBuf.data) || fresh(outputBuf.data))
      ensures outputBuf.Payload() == old(outputBuf.Payload()) + rest
      ensures handler.IsCareRead() == old(handler.IsCareRead())
      ensures handler.IsCareWrite() == (old(handler.IsCareWrite()) || rest != "")
      ensures queued == old(queued) + if config.hasHighWater && rest != ""
                && |old(outputBuf.Payload())| < config.mark <= |outputBuf.Payload()|
              then [S.HighWater(|outputBuf.Payload()|)] else []
    {
      if |rest| > 0 {
        var oldLen := outputBuf.PayloadSize();
        if oldLen + |rest| >= config.mark && oldLen < config.mark && config.hasHighWater {
          QueueInLoop(S.HighWater(oldLen + |rest|));
        }
        outputBuf.Append(rest);
        assert outputBuf.Payload() == outputBuf.Contents().payload;
        if !handler.IsCareWrite() {
          handler.SetCareWrite();
        }
      }
    }

    method SendInLoop(data: string, budget: int)
      requires Valid() && !state.Connecting?
      modifies this`queued, this`accepted, this`written, handler`events, outputBuf, outputBuf.data
      ensures Valid() && ArraysKept()
      ensures Stream() == S.SendInLoop(config, old(Stream()), data, budget)
    {
      hide Buffer.Payload, Has, S.KernelTakes, S.Inv;
      S.SendKeepsInv(config, Stream(), data, budget);
      var n := WriteDirectly(data, budget);
      accepted := accepted + data;
      BufferRest(data[n..]);
    }

    /** RunInLoop from another thread. */
    method QueueCall(call: S.Call)
      modifies this`pending
      ensures pending == old(pending) + [call]
    {
      pending := pending + [call];
    }

    /** On another thread a whole call is its test of `state_` and then its queueing. */
    method Send(data: string, budget: int, sameThread: bool)
      requires Valid()
      modifies this`queued, this`accepted, this`written, this`pending, handler`events, outputBuf, outputBuf.data
      ensures Valid() && ArraysKept()
      ensures sameThread ==> Stream() == S.Step(config, old(Stream()), S.Send(data, budget))
      ensures !sameThread ==> Stream() == if state.Connected?
                then S.Steps(config, old(Stream()), [S.OffSend(data), S.Push(S.SendCall(data))]) else old(Stream())
    {
      if state.Connected? {
        if sameThread {
          SendInLoop(data, budget);
        } else {
          SendIsTwoSteps(config, Stream(), data);
          QueueCall(S.SendCall(data));
        }
      }
    }

    method ShutDownInLoop()
      requires outputBuf.Valid()
      modifies this`fins
      ensures Stream() == S.ShutDownInLoop(old(Stream()))
    {
      if !handler.IsCareWrite() {
        fins := fins + 1;
      }
    }

    method ShutDown(sameThread: bool)
      requires Valid()
      modifies this`fins, this`state, this`pending
      ensures Valid()
      ensures sameThread ==> Stream() == S.Step(config, old(Stream()), S.Close)
      ensures !sameThread ==> Stream() == if old(state).Connected?
                then S.Steps(config, old(Stream()), [S.OffTest, S.OffSet, S.Push(S.ShutDownCall)]) else old(Stream())
    {
      if state.Connected? {
        S.StepKeepsInv(config, Stream(), S.Close);
        ShutDownIsThreeSteps(config, Stream());
        state := S.Disconnecting;
        if sameThread {
          ShutDownInLoop();
        } else {
          QueueCall(S.ShutDownCall);
        }
      }
    }

    /** The loop runs the first of this connection's queued calls. */
    method RunQueued(budget: int)
      requires Valid() && pending != []
      modifies this`queued, this`accepted, this`written, this`fins, this`pending
      modifies handler`events, outputBuf, outputBuf.data
      ensures Valid() && ArraysKept()
      ensures Stream() == S.Step(config, old(Stream()), S.RunQueued(budget))
    {
      S.StepKeepsInv(config, Stream(), S.RunQueued(budget));
      S.PopKeepsInv(Stream());
      var call := pending[0];
      pending := pending[1..];
      match call {
        case SendCall(data) => SendInLoop(data, budget);
        case ShutDownCall => ShutDownInLoop();
      }
    }

    method SetConnectionEstablished()
      requires Valid() && state.Connecting?
      modifies this`state, handler`events
      ensures Valid() && Stream() == S.Step(config, old(Stream()), S.Establish)
    {
      state := S.Connected;
      handler.SetCareRead();
    }

    method SetConnectionDestroyed()
      requires Valid() && (state.Connected? || state.Disconnecting?)
      modifies this`state, this`closed, handler`events
      ensures Valid() && Stream() == S.Step(config, old(Stream()), S.Destroy)
    {
      state := S.Disconnected;
      handler.SetStopCareAll();
      closed := true;
    }

    /** The buffer ran empty: stop asking for writable events, tell the user, send a deferred FIN. */
    method OutputDrained()
      requires outputBuf.Valid()
      modifies this`queued, this`fins, handler`events
      ensures !handler.IsCareWrite() && handler.IsCareRead() == old(handler.IsCareRead())
      ensures queued == old(queued) + if config.hasComplete then [S.WriteComplete] else []
      ensures fins == old(fins) + if state.Disconnecting? then 1 else 0
    {
      handler.SetStopCareWrite();
      if config.hasComplete {
        QueueInLoop(S.WriteComplete);
      }
      if state.Disconnecting? {
        ShutDownInLoop();
      }
    }

    /** What HandleWrite does with the `n` bytes that the kernel took. */
    method AfterWrite(n: nat)
      requires outputBuf.Valid() && n <= |outputBuf.Payload()|
      modifies this`queued, this`fins, handler`events, outputBuf`readIndex
      ensures outputBuf.Valid() && outputBuf.Payload() == old(outputBuf.Payload())[n..]
      ensures handler.IsCareRead() == old(handler.IsCareRead())
      ensures var drained := n == |old(outputBuf.Payload())|;
              && handler.IsCareWrite() == (old(handler.IsCareWrite()) && !drained)
              && queued == old(queued) + (if drained && config.hasComplete then [S.WriteComplete] else [])
              && fins == old(fins) + if drained && state.Disconnecting? then 1 else 0
    {
      outputBuf.MoveReadIndex(n);
      assert outputBuf.Payload() == outputBuf.Contents().payload;
      if outputBuf.PayloadSize() == 0 {
        OutputDrained();
      }
    }

    /** Offers the kernel the whole payload. */
    method WriteBacklog(budget: int) returns (n: int)
      requires outputBuf.Valid()
      modifies this`written
      ensures n == S.KernelTakes(budget, |outputBuf.Payload()|)
      ensures written == old(written) + outputBuf.Payload()[..S.Max0(n)]
    {
      n := Write(outputBuf.data[outputBuf.readIndex..outputBuf.writeIndex], budget);
    }

    method HandleWrite(budget: int)
      requires Valid()
      modifies this`queued, this`written, this`fins, handler`events, outputBuf`readIndex
      ensures Valid() && Stream() == S.Step(config, old(Stream()), S.Writable(budget))
    {
      hide Has, Buffer.Payload;
      S.StepKeepsInv(config, Stream(), S.Writable(budget));
      if handler.IsCareWrite() {
        var n := WriteBacklog(budget);
        if n > 0 {
          AfterWrite(n);
        }
      }
    }

    method HandleClose()
      requires Valid() && (state.Connected? || state.Disconnecting?)
      modifies this`closed, handler`events
      ensures Valid() && Stream() == S.Step(config, old(Stream()), S.Eof)
    {
      handler.SetStopCareAll();
      closed := true;
    }

    /** The calls a user callback makes, one after the other. */
    method UserCalls(calls: seq<UserCall>)
      requires Valid()
      modifies this`queued, this`accepted, this`written, this`pending, this`fins, this`state
      modifies handler`events, outputBuf, outputBuf.data
      ensures Valid() && ArraysKept()
      ensures Stream() == S.Steps(config, old(Stream()), UserActions(calls))
      decreases calls
    {
      if calls != [] {
        match calls[0] {
          case UserSend(data, budget) => Send(data, budget, true);
          case UserShutDown => ShutDown(true);
        }
        assert UserActions(calls)[1..] == UserActions(calls[1..]);
        UserCalls(calls[1..]);
      }
    }

    /** The message callback: takes some input, then sends and shuts down as it likes. */
    method MessageCallback(taken: nat, calls: seq<UserCall>)
      requires Valid()
      modifies this, handler`events, inputBuf, outputBuf, Arrays()
      ensures Valid() && ArraysKept()
      ensures Stream() == S.Steps(config, old(Stream()), UserActions(calls))
      ensures var had := old(inputBuf.Payload());
              && delivered == old(delivered) + [had]
              && inputBuf.Payload() == if taken <= |had| then had[taken..] else ""
    {
      delivered := delivered + [inputBuf.Payload()];
      var size := inputBuf.PayloadSize();
      inputBuf.MoveReadIndex(if taken <= size then taken else size);
      assert inputBuf.Payload() == inputBuf.Contents().payload;
      UserCalls(calls);
    }

    /** Reading into the input buffer: the bytes join what waits there. */
    method ReadInput(read: ReadResult) returns (n: int)
      requires inputBuf.Valid() && (read.Received? ==> |read.bytes| <= inputBuf.ReadLimit())
      modifies inputBuf, inputBuf.data
      ensures inputBuf.Valid() && (inputBuf.data == old(inputBuf.data) || fresh(inputBuf.data))
      ensures if read.Failed? then n < 0 && inputBuf.Payload() == old(inputBuf.Payload())
              else n == |read.bytes| && inputBuf.Payload() == old(inputBuf.Payload()) + read.bytes
    {
      ghost var before := inputBuf.Contents();
      ghost var waiting := inputBuf.Payload();
      var savedErrno;
      n, savedErrno := inputBuf.ReadFd(read);
      assert inputBuf.Payload() == inputBuf.Contents().payload && waiting == before.payload;
      if read.Received? { ReadAddsAll(before, read.bytes); }
    }

    method HandleRead(round: Round)
      requires Valid() && (state.Connected? || state.Disconnecting?)
      requires round.read.Received? ==> |round.read.bytes| <= inputBuf.ReadLimit()
      modifies this, handler`events, inputBuf, outputBuf, Arrays()
      ensures Valid() && ArraysKept()
      ensures Stream() == S.Steps(config, old(Stream()), CallbackActions(OnRead, round))
      ensures round.read.Received? && round.read.bytes != "" ==>
                var had := old(inputBuf.Payload()) + round.read.bytes;
                && delivered == old(delivered) + [had]
                && inputBuf.Payload() == if round.taken <= |had| then had[round.taken..] else ""
      ensures round.read.Failed? || round.read.bytes == "" ==>
                delivered == old(delivered) && inputBuf.Payload() == old(inputBuf.Payload())
    {
      ghost var stream := Stream();
      var n := ReadInput(round.read);
      assert Stream() == stream;
      if n > 0 {
        MessageCallback(round.taken, round.calls);
      } else if n == 0 {
        S.OneStep(config, stream, S.Eof);
        HandleClose();
      }
    }

    /** The callback bound for `callback`: HandleRead, or HandleWrite for the three others. */
    method RunCallback(callback: Callback, round: Round)
      requires Valid() && (callback.OnRead? ==> handler.IsCareRead())
      requires callback.OnRead? && round.read.Received? ==> |round.read.bytes| <= inputBuf.ReadLimit()
      modifies this, handler, inputBuf, outputBuf, Arrays()
      ensures Valid() && ArraysKept()
      ensures handler.eventHandling == old(handler.eventHandling)
      ensures !callback.OnRead? ==> handler.IsCareRead() == old(handler.IsCareRead()) && InputKept()
      ensures callback.OnRead? ==> InputTaken(round)
      ensures Stream() == S.Steps(config, old(Stream()), CallbackActions(callback, round))
    {
      if callback.OnRead? {
        HandleRead(round);
      } else {
        var budget := match callback
          case OnClose => round.onClose
          case OnError => round.onError
          case _ => round.onWrite;
        S.OneStep(config, Stream(), S.Writable(budget));
        HandleWrite(budget);
      }
    }

    /** One branch of HandleEvent; `done` are the callbacks already run on `start`. */
    method Fire(hit: bool, callback: Callback, round: Round, ghost start: S.Stream, ghost done: seq<Callback>)
      returns (ghost more: seq<Callback>)
      requires Valid() && Stream() == S.Steps(config, start, EventActions(done, round))
      requires hit && callback.OnRead? ==> handler.IsCareRead()
      requires hit && callback.OnRead? && round.read.Received? ==> |round.read.bytes| <= inputBuf.ReadLimit()
      modifies this, handler, inputBuf, outputBuf, Arrays()
      ensures Valid() && ArraysKept()
      ensures handler.eventHandling == old(handler.eventHandling)
      ensures !callback.OnRead? ==> handler.IsCareRead() == old(handler.IsCareRead())
      ensures if hit && callback.OnRead? then InputTaken(round) else InputKept()
      ensures more == done + if hit then [callback] else []
      ensures Stream() == S.Steps(config, start, EventActions(more, round))
    {
      hide S.Steps, S.Step, S.Inv, CallbackActions, EventActions, Has;
      more := done + if hit then [callback] else [];
      if hit {
        EventActionsSnoc(done, callback, round);
        S.StepsAppend(config, start, EventActions(done, round), CallbackActions(callback, round));
        RunCallback(callback, round);
      } else {
        assert more == done;
      }
    }

    /** The hang-up and error branches of HandleEvent. */
    method HandleFaults(revents: bv16, round: Round) returns (ghost done: seq<Callback>)
      requires Valid()
      modifies this, handler, inputBuf, outputBuf, Arrays()
      ensures Valid() && ArraysKept()
      ensures handler.eventHandling == old(handler.eventHandling)
      ensures handler.IsCareRead() == old(handler.IsCareRead()) && InputKept()
      ensures done == Faults(revents)
      ensures Stream() == S.Steps(config, old(Stream()), EventActions(done, round))
    {
      var hangUp := Has(revents, EPOLLHUP) && !Has(revents, EPOLLIN);
      var error := Has(revents, EPOLLERR);
      done := Fire(hangUp, OnClose, round, Stream(), []);
      done := Fire(error, OnError, round, old(Stream()), done);
    }

    /** Its readable and writable branches. */
    method HandleTransfers(revents: bv16, round: Round, ghost start: S.Stream, ghost before: seq<Callback>)
      requires Valid() && Stream() == S.Steps(config, start, EventActions(before, round))
      requires Has(revents, EPOLLIN | EPOLLPRI | EPOLLRDHUP) ==> handler.IsCareRead()
      requires round.read.Received? ==> |round.read.bytes| <= inputBuf.ReadLimit()
      modifies this, handler, inputBuf, outputBuf, Arrays()
      ensures Valid() && ArraysKept()
      ensures handler.eventHandling == old(handler.eventHandling)
      ensures if Has(revents, EPOLLIN | EPOLLPRI | EPOLLRDHUP) then InputTaken(round) else InputKept()
      ensures Stream() == S.Steps(config, start, EventActions(before + Transfers(revents), round))
    {
      hide S.Steps, S.Step, S.Inv, EventActions;
      var readable := Has(revents, EPOLLIN | EPOLLPRI | EPOLLRDHUP);
      var writable := Has(revents, EPOLLOUT);
      ghost var done := Fire(readable, OnRead, round, start, before);
      done := Fire(writable, OnWrite, round, start, done);
      assert done == before + Transfers(revents);
    }

    /** The four branches of HandleEvent. */
    method RunBranches(revents: bv16, round: Round)
      requires Valid() && Deliverable(revents, handler.events)
      requires round.read.Received? ==> |round.read.bytes| <= inputBuf.ReadLimit()
      modifies this, handler, inputBuf, outputBuf, Arrays()
      ensures Valid() && ArraysKept()
      ensures handler.eventHandling == old(handler.eventHandling)
      ensures Stream() == S.Steps(config, old(Stream()), EventActions(Dispatched(revents), round))
      ensures if Has(revents, EPOLLIN | EPOLLPRI | EPOLLRDHUP) then InputTaken(round) else InputKept()
    {
      ghost var done := HandleFaults(revents, round);
      HandleTransfers(revents, round, old(Stream()), done);
    }

    /** EventHandler::HandleEvent with this connection's bindings: close and error go to HandleWrite. */
    method HandleEvent(revents: bv16, round: Round)
      requires Valid() && Deliverable(revents, handler.events)
      requires round.read.Received? ==> |round.read.bytes| <= inputBuf.ReadLimit()
      modifies this, handler, inputBuf, outputBuf, Arrays()
      ensures Valid() && ArraysKept() && !handler.eventHandling
      ensures Stream() == S.Steps(config, old(Stream()), EventActions(Dispatched(revents), round))
      ensures revents & 0x2003 != 0 && round.read.Received? && round.read.bytes != "" ==>
                var had := old(inputBuf.Payload()) + round.read.bytes;
                && delivered == old(delivered) + [had]
                && inputBuf.Payload() == if round.taken <= |had| then had[round.taken..] else ""
      ensures revents & 0x2003 == 0 || round.read.Failed? || round.read.bytes == "" ==>
                delivered == old(delivered) && inputBuf.Payload() == old(inputBuf.Payload())
    {
      assert Has(revents, EPOLLIN | EPOLLPRI | EPOLLRDHUP) == (revents & 0x2003 != 0);
      handler.eventHandling := true;
      RunBranches(revents, round);
      hide S.Steps, S.Step, S.Inv, EventActions, Dispatched, Has;
      handler.eventHandling := false;
    }
  }

  predicate KeepsReadInterest(a: S.Action) {
    !a.Establish? && !a.Eof? && !a.Destroy?
  }

  lemma {:induction false} StepsKeepReadInterest(config: S.Config, s: S.Stream, actions: seq<S.Action>)
    requires forall a :: a in actions ==> KeepsReadInterest(a)
    ensures S.Steps(config, s, actions).closed == s.closed && S.Steps(config, s, actions).careRead == s.careRead
    decreases actions
  {
    if actions != [] {
      assert KeepsReadInterest(actions[0]);
      StepsKeepReadInterest(config, S.Step(config, s, actions[0]), actions[1..]);
    }
  }

  predicate Closes(callback: Callback, round: Round) {
    callback.OnRead? && round.read == Received("")
  }

  lemma CallbackCloses(config: S.Config, s: S.Stream, callback: Callback, round: Round)
    ensures var t := S.Steps(config, s, CallbackActions(callback, round));
            && t.closed == (s.closed || Closes(callback, round))
            && t.careRead == (s.careRead && !Closes(callback, round))
  {
    if Closes(callback, round) {
      assert S.Steps(config, s, [S.Eof]) == S.Step(config, s, S.Eof);
    } else {
      StepsKeepReadInterest(config, s, CallbackActions(callback, round));
    }
  }

  lemma {:induction false} CallbacksClose(config: S.Config, s: S.Stream, callbacks: seq<Callback>, round: Round)
    ensures var t := S.Steps(config, s, EventActions(callbacks, round));
            var eof := OnRead in callbacks && round.read == Received("");
            t.closed == (s.closed || eof) && t.careRead == (s.careRead && !eof)
    decreases callbacks
  {
    if callbacks != [] {
      var first, rest := CallbackActions(callbacks[0], round), EventActions(callbacks[1..], round);
      S.StepsAppend(config, s, first, rest);
      CallbackCloses(config, s, callbacks[0], round);
      CallbacksClose(config, S.Steps(config, s, first), callbacks[1..], round);
      assert callbacks == [callbacks[0]] + callbacks[1..];
    }
  }

  /** One event closes a connection exactly when it is readable and at its end; a hang-up or an error never does. */
  lemma EventClosesExactly(config: S.Config, s: S.Stream, revents: bv16, round: Round)
    ensures var t := S.Steps(config, s, EventActions(Dispatched(revents), round));
            var eof := Has(revents, EPOLLIN | EPOLLPRI | EPOLLRDHUP) && round.read == Received("");
            t.closed == (s.closed || eof) && t.careRead == (s.careRead && !eof)
  {
    CallbacksClose(config, s, Dispatched(revents), round);
    assert OnRead in Dispatched(revents) <==> Has(revents, EPOLLIN | EPOLLPRI | EPOLLRDHUP) by {
      assert OnRead !in Faults(revents);
    }
  }

  lemma SendIsTwoSteps(config: S.Config, s: S.Stream, data: string)
    requires S.Inv(s) && s.state.Connected?
    ensures var t := S.Steps(config, s, [S.OffSend(data), S.Push(S.SendCall(data))]);
            t == s.(pending := s.pending + [S.SendCall(data)]) && S.Inv(t)
  {
    var call := S.SendCall(data);
    var s1 := S.SendByOther(s, data);
    assert s1.inHand - multiset{call} == s.inHand;
    S.StepsAppend(config, s, [S.OffSend(data)], [S.Push(call)]);
    assert [S.OffSend(data)] + [S.Push(call)] == [S.OffSend(data), S.Push(call)];
  }

  lemma ShutDownIsThreeSteps(config: S.Config, s: S.Stream)
    requires S.Inv(s) && s.state.Connected?
    ensures var t := S.Steps(config, s, [S.OffTest, S.OffSet, S.Push(S.ShutDownCall)]);
            t == s.(state := S.Disconnecting, pending := s.pending + [S.ShutDownCall]) && S.Inv(t)
  {
    var s1 := S.TestByOther(s);
    var s2 := S.SetByOther(s1);
    assert s2.inHand - multiset{S.ShutDownCall} == s.inHand;
    S.StepKeepsInv(config, s, S.OffTest);
    S.StepKeepsInv(config, s1, S.OffSet);
    S.StepKeepsInv(config, s2, S.Push(S.ShutDownCall));
    ThreeSteps(config, s, S.OffTest, S.OffSet, S.Push(S.ShutDownCall));
  }

  lemma ThreeSteps(config: S.Config, s: S.Stream, a: S.Action, b: S.Action, c: S.Action)
    ensures S.Steps(config, s, [a, b, c]) == S.Step(config, S.Step(config, S.Step(config, s, a), b), c)
  {
    hide S.Step;
    S.StepsAppend(config, s, [a], [b, c]);
    S.StepsAppend(config, S.Step(config, s, a), [b], [c]);
    assert [a] + [b, c] == [a, b, c] && [b] + [c] == [b, c];
  }

  lemma EventActionsAppend(a: seq<Callback>, b: seq<Callback>, round: Round)
    ensures EventActions(a + b, round) == EventActions(a, round) + EventActions(b, round)
    decreases b
  {
    hide CallbackActions;
    if b == [] {
      assert a + b == a;
    } else {
      assert a + b == (a + [b[0]]) + b[1..];
      EventActionsAppend(a + [b[0]], b[1..], round);
      EventActionsSnoc(a, b[0], round);
    }
  }

  /** At most one callback, when its events are reported. */
  lemma EventActionsOne(hit: bool, callback: Callback, round: Round)
    ensures EventActions(if hit then [callback] else [], round) == if hit then CallbackActions(callback, round) else []
  {
    if hit { assert EventActions([callback], round) == CallbackActions(callback, round) + []; }
  }

  /**
   What an event does, by epoll's own bits and in this order: a hang-up (0x10) without
   input (0x1), an error (0x8) and room for output (0x4) drain the backlog; input, urgent
   input or a half-close of the peer (0x2003) reads, which ends the input or runs the
   calls of the message callback.
   */
  lemma EventOrder(revents: bv16, round: Round)
    ensures EventActions(Dispatched(revents), round)
         == (if revents & 0x10 != 0 && revents & 0x1 == 0 then [S.Writable(round.onClose)] else [])
          + (if revents & 0x8 != 0 then [S.Writable(round.onError)] else [])
          + ((if revents & 0x2003 == 0 || round.read.Failed? then []
              else if round.read.bytes == "" then [S.Eof] else UserActions(round.calls))
             + (if revents & 0x4 != 0 then [S.Writable(round.onWrite)] else []))
  {
    var hup, err := Has(revents, EPOLLHUP) && !Has(revents, EPOLLIN), Has(revents, EPOLLERR);
    var read, write := Has(revents, EPOLLIN | EPOLLPRI | EPOLLRDHUP), Has(revents, EPOLLOUT);
    assert hup == (revents & 0x10 != 0 && revents & 0x1 == 0) && err == (revents & 0x8 != 0);
    assert read == (revents & 0x2003 != 0) && write == (revents & 0x4 != 0);
    EventActionsAppend(Faults(revents), Transfers(revents), round);
    EventActionsAppend(if hup then [OnClose] else [], if err then [OnError] else [], round);
    EventActionsAppend(if read then [OnRead] else [], if write then [OnWrite] else [], round);
    EventActionsOne(hup, OnClose, round);
    EventActionsOne(err, OnError, round);
    EventActionsOne(read, OnRead, round);
    EventActionsOne(write, OnWrite, round);
    hide EventActions, UserActions, Has;
  }

  /** Every call of the message callback is made, with its data, in order. */
  lemma UserActionsExactly(calls: seq<UserCall>, i: nat)
    requires i < |calls|
    ensures |UserActions(calls)| == |calls|
    ensures calls[i].UserShutDown? ==> UserActions(calls)[i] == S.Close
    ensures calls[i].UserSend? ==> UserActions(calls)[i] == S.Send(calls[i].data, calls[i].budget)
  {}

  lemma {:induction false} EventActionsSnoc(done: seq<Callback>, callback: Callback, round: Round)
    ensures EventActions(done + [callback], round) == EventActions(done, round) + CallbackActions(callback, round)
  {
    if done == [] {
      assert ([] + [callback])[1..] == [];
      assert EventActions([callback], round) == CallbackActions(callback, round) + [];
    } else {
      assert (done + [callback])[1..] == done[1..] + [callback];
      EventActionsSnoc(done[1..], callback, round);
    }
  }
}
