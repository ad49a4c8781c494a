/**
 The life of connections across the server loop (loop 0) and the IO loops. The
 state is shared by all the loop threads and by user threads; a `Step` is one
 atomic action of one of them, so a run is any interleaving of all of them.
 The code's own asserts are modelled: a failing one sets `aborted`.
 */
module Lifecycles {
  import opened Prelude
  import D = Dispatchers
  import S = Streams
  import T = Decimal

  const BASE: nat := 0
  const INT_MAX: nat := 0x7FFF_FFFF

  /** The functors of the hand-off protocol; `UserFn` is any other one. */
  datatype Fn = Establish(c: nat) | RemoveInLoop(c: nat) | Destroy(c: nat) | UserFn

  datatype Conn = Conn(
    io: nat,            // the loop it lives on
    name: string,
    state: S.ConnState,
    careRead: bool,
    registered: bool,   // its handler is known to epoll
    armed: nat,         // ShutDown calls that have tested state_ and not yet set it
    established: nat, closes: nat, erases: nat, destroys: nat,
    ups: nat, downs: nat) // connection callbacks that saw is_connected() true, false

  /** An entry of what epoll_wait returned: the connection, and whether it must be read. */
  datatype Event = Event(c: nat, readable: bool)

  datatype Server = Server(
    name: string,
    connId: nat,
    connections: map<string, nat>,
    conns: seq<Conn>,
    loops: seq<D.Loop<Fn>>,
    ready: seq<seq<Event>>,        // per loop, the returned events not yet handled
    handling: seq<Option<Event>>,  // per loop, the connection whose HandleEvent is on the stack
    aborted: bool)

  function Init(name: string, loops: nat): Server {
    Server(name, 0, map[], [], seq(loops, _ => D.Fresh()), seq(loops, _ => []), seq(loops, _ => None), false)
  }

  function NameOf(s: Server, id: nat): string {
    s.name + T.Text(id)
  }

  // ---------------------------------------------------------------------------
  // The source's functions

  function Check(s: Server, ok: bool): Server {
    s.(aborted := s.aborted || !ok)
  }

  function SetConn(s: Server, c: nat, k: Conn): Server
    requires c < |s.conns|
  {
    s.(conns := s.conns[c := k])
  }

  function SetLoop(s: Server, i: nat, l: D.Loop<Fn>): Server
    requires i < |s.loops|
  {
    s.(loops := s.loops[i := l])
  }

  function Queue(s: Server, i: nat, f: Fn, sameThread: bool): Server
    requires i < |s.loops|
  {
    SetLoop(s, i, s.loops[i].QueueInLoop(f, sameThread))
  }

  function SetConnectionEstablished(s: Server, c: nat): Server
    requires c < |s.conns|
  {
    var k := s.conns[c];
    SetConn(Check(s, k.state.Connecting?), c,
            k.(state := S.Connected, careRead := true, established := k.established + 1, ups := k.ups + 1))
  }

  function SetConnectionDestroyed(s: Server, c: nat): Server
    requires c < |s.conns|
  {
    var k := s.conns[c];
    SetConn(Check(s, k.state.Connected? || k.state.Disconnecting?), c,
            k.(state := S.Disconnected, careRead := false, registered := false,
               destroys := k.destroys + 1, downs := k.downs + 1))
  }

  /** On the server loop; `std::map::insert` leaves an existing key alone. */
  function NewConnection(s: Server, io: nat): Server
    requires io < |s.loops|
  {
    var c := |s.conns|;
    var name := NameOf(s, s.connId + 1);
    var k := Conn(io, name, S.Connecting, false, true, 0, 0, 0, 0, 0, 0, 0);
    var added := s.(connId := s.connId + 1, conns := s.conns + [k],
                    connections := if name in s.connections then s.connections else s.connections[name := c]);
    if io == BASE then SetConnectionEstablished(added, c) else Queue(added, io, Establish(c), false)
  }

  /** On the server loop. The destruction is queued even when that is also the connection's loop. */
  function RemoveConnectionInLoop(s: Server, c: nat): Server
    requires c < |s.conns| && s.conns[c].io < |s.loops|
  {
    var k := s.conns[c];
    var erased := SetConn(s.(connections := s.connections - {k.name}), c, k.(erases := k.erases + 1));
    Queue(Check(erased, k.name in s.connections), k.io, Destroy(c), k.io == BASE)
  }

  /** On the connection's own loop, inside its HandleEvent; goes through RemoveConnection. */
  function HandleClose(s: Server, c: nat): Server
    requires c < |s.conns| && s.conns[c].io < |s.loops| && 0 < |s.loops|
  {
    var k := s.conns[c];
    var closed := SetConn(Check(s, k.state.Connected? || k.state.Disconnecting?), c,
                          k.(careRead := false, closes := k.closes + 1));
    if k.io == BASE then RemoveConnectionInLoop(closed, c) else Queue(closed, BASE, RemoveInLoop(c), false)
  }

  // ---------------------------------------------------------------------------
  // Steps

  datatype Step =
    | LoopStep(i: nat, op: D.Op<Fn>)        // a thread's access to loop i other than the ones below
    | Poll(i: nat, events: seq<Event>)      // Select returns
    | Accept(io: nat)
    | BeginEvent(i: nat)
    | ReadEof(i: nat)
    | EndEvent(i: nat)
    | RunFunctor(i: nat)
    | ShutDownTest(c: nat)                  // `if (state_ == CONNECTED)`, on any thread
    | ShutDownSet(c: nat)                   // `state_ = DISCONNECTING`

  /** epoll reports a registered handler at most once, and as readable only if it asked for that. */
  predicate Reportable(s: Server, i: nat, events: seq<Event>) {
    && (forall k :: 0 <= k < |events| ==> EventOk(s, i, events[k]))
    && (forall j, k :: 0 <= j < k < |events| ==> events[j].c != events[k].c)
  }

  predicate EventOk(s: Server, i: nat, e: Event) {
    e.c < |s.conns| && s.conns[e.c].io == i && s.conns[e.c].registered && (e.readable ==> s.conns[e.c].careRead)
  }

  predicate Idle(s: Server, i: nat)
    requires i < |s.ready| && i < |s.handling|
  {
    s.ready[i] == [] && s.handling[i].None?
  }

  predicate Sized(s: Server) {
    0 < |s.loops| && |s.ready| == |s.loops| && |s.handling| == |s.loops|
    && forall c :: 0 <= c < |s.conns| ==> s.conns[c].io < |s.loops|
  }

  predicate Enabled(s: Server, step: Step)
    requires Sized(s)
  {
    match step
    case LoopStep(i, op) =>
      i < |s.loops| && D.Enabled(s.loops[i], op)
      && !op.Select? && !op.RunNext?
      && (op.QueueInLoop? ==> op.f.UserFn?)
      && (op.Swap? ==> Idle(s, i))
    case Poll(i, events) => i < |s.loops| && D.Enabled(s.loops[i], D.Select) && Reportable(s, i, events)
    case Accept(io) =>
      io < |s.loops| && s.loops[BASE].phase.Dispatching? && s.handling[BASE].None? && s.connId < INT_MAX
    case BeginEvent(i) =>
      i < |s.loops| && s.loops[i].phase.Dispatching? && s.handling[i].None? && s.ready[i] != []
    case ReadEof(i) =>
      i < |s.loops| && s.handling[i].Some? && s.handling[i].value.readable && s.handling[i].value.c < |s.conns|
    case EndEvent(i) => i < |s.loops| && s.handling[i].Some?
    case RunFunctor(i) =>
      i < |s.loops| && s.loops[i].phase.Executing? && s.loops[i].batch != []
      && (!s.loops[i].batch[0].UserFn? ==> s.loops[i].batch[0].c < |s.conns|)
    case ShutDownTest(c) => c < |s.conns| && s.conns[c].state.Connected?
    case ShutDownSet(c) => c < |s.conns| && s.conns[c].armed > 0
  }

  function Call(s: Server, f: Fn): Server
    requires Sized(s) && (!f.UserFn? ==> f.c < |s.conns|)
  {
    match f
    case Establish(c) => SetConnectionEstablished(s, c)
    case RemoveInLoop(c) => RemoveConnectionInLoop(s, c)
    case Destroy(c) => SetConnectionDestroyed(s, c)
    case UserFn => s
  }

  function Next(s: Server, step: Step): Server
    requires Sized(s) && Enabled(s, step)
  {
    match step
    case LoopStep(i, op) => SetLoop(s, i, D.Apply(s.loops[i], op))
    case Poll(i, events) => SetLoop(s, i, s.loops[i].Select()).(ready := s.ready[i := events])
    case Accept(io) => NewConnection(s, io)
    case BeginEvent(i) => s.(handling := s.handling[i := Some(s.ready[i][0])], ready := s.ready[i := s.ready[i][1..]])
    case ReadEof(i) =>
      var e := s.handling[i].value;
      HandleClose(s.(handling := s.handling[i := Some(e.(readable := false))]), e.c)
    case EndEvent(i) => s.(handling := s.handling[i := None])
    case RunFunctor(i) => Call(SetLoop(s, i, s.loops[i].RunNext()), s.loops[i].batch[0])
    case ShutDownTest(c) => SetConn(s, c, s.conns[c].(armed := s.conns[c].armed + 1))
    case ShutDownSet(c) => SetConn(s, c, s.conns[c].(state := S.Disconnecting, armed := s.conns[c].armed - 1))
  }

  /** Each event that epoll returned is handled once, in order, before the loop runs its functors. */
  lemma EventsAreHandled(s: Server, step: Step)
    requires Sized(s) && Enabled(s, step)
    ensures var t := Next(s, step);
            match step
            case Poll(i, events) => t.ready == s.ready[i := events]
            case BeginEvent(i) =>
              && |t.ready| == |s.ready| && t.ready == s.ready[i := t.ready[i]]
              && i < |t.handling| && t.handling[i].Some? && s.ready[i] == [t.handling[i].value] + t.ready[i]
            case _ => t.ready == s.ready
    ensures step.LoopStep? && step.op.Swap? ==> s.ready[step.i] == [] && s.handling[step.i].None?
  {}

  // ---------------------------------------------------------------------------
  // The invariant

  /** How many copies of functor `f` loop `i` still has to run. */
  function Tokens(s: Server, i: nat, f: Fn): nat {
    if i < |s.loops| then multiset(s.loops[i].Queue())[f] else 0
  }

  /** A functor of the protocol only ever sits on the loop that may run it. */
  predicate FnOk(s: Server, i: nat, f: Fn) {
    match f
    case Establish(c) => c < |s.conns| && s.conns[c].io == i
    case Destroy(c) => c < |s.conns| && s.conns[c].io == i
    case RemoveInLoop(c) => c < |s.conns| && i == BASE
    case UserFn => true
  }

  predicate LoopOk(s: Server, i: nat)
    requires Sized(s) && i < |s.loops|
  {
    && D.Inv(s.loops[i])
    && (forall f :: f in s.loops[i].Queue() ==> FnOk(s, i, f))
    && (!s.loops[i].phase.Dispatching? ==> Idle(s, i))
    && Reportable(s, i, s.ready[i])
    && (s.handling[i].Some? ==>
          EventOk(s, i, s.handling[i].value)
          && forall k :: 0 <= k < |s.ready[i]| ==> s.ready[i][k].c != s.handling[i].value.c)
  }

  predicate NamesOk(s: Server) {
    && s.connId == |s.conns|
    && (forall c :: 0 <= c < |s.conns| ==> s.conns[c].name == NameOf(s, c + 1))
    && (forall n :: n in s.connections ==> s.connections[n] < |s.conns| && s.conns[s.connections[n]].name == n)
  }

  /**
   Where connection `c` is in its life, told three ways: by its counters, by its
   flags and by its one functor, which is queued or is the `held` one, in the
   hand of the thread taking the step.
   */
  predicate ConnOk(s: Server, c: nat, held: Fn)
    requires c < |s.conns|
  {
    var k := s.conns[c];
    && k.destroys <= k.erases <= k.closes <= k.established <= 1
    && Tokens(s, k.io, Establish(c)) + Count(held == Establish(c)) == 1 - k.established
    && Tokens(s, BASE, RemoveInLoop(c)) + Count(held == RemoveInLoop(c)) == k.closes - k.erases
    && Tokens(s, k.io, Destroy(c)) + Count(held == Destroy(c)) == k.erases - k.destroys
    && (k.name in s.connections <==> k.erases == 0)
    && (k.careRead <==> k.established == 1 && k.closes == 0)
    && (k.registered <==> k.destroys == 0)
    && (k.established == 0 ==> k.state.Connecting? && k.armed == 0)
    && (k.established == 1 ==>
          k.state.Disconnecting? || if k.destroys == 0 then k.state.Connected? else k.state.Disconnected?)
    && k.ups == k.established && k.downs == k.destroys
  }

  predicate InvHolding(s: Server, held: Fn) {
    && Sized(s)
    && !s.aborted
    && NamesOk(s)
    && (forall i :: 0 <= i < |s.loops| ==> LoopOk(s, i))
    && (forall c :: 0 <= c < |s.conns| ==> ConnOk(s, c, held))
  }

  predicate Inv(s: Server) {
    InvHolding(s, UserFn)
  }

  // ---------------------------------------------------------------------------
  // Moving a functor between a queue and a thread's hand

  lemma TokensAfterQueue(s: Server, i: nat, f: Fn, sameThread: bool)
    requires i < |s.loops|
    ensures forall j, g {:trigger Tokens(Queue(s, i, f, sameThread), j, g)} ::
              Tokens(Queue(s, i, f, sameThread), j, g) == Tokens(s, j, g) + Count(j == i && g == f)
  {
    var l := s.loops[i];
    assert l.QueueInLoop(f, sameThread).Queue() == l.Queue() + [f];
  }

  lemma TokensAfterRunNext(s: Server, i: nat)
    requires i < |s.loops| && s.loops[i].batch != []
    ensures forall j, g {:trigger Tokens(SetLoop(s, i, s.loops[i].RunNext()), j, g)} ::
              Tokens(s, j, g) == Tokens(SetLoop(s, i, s.loops[i].RunNext()), j, g)
                                 + Count(j == i && g == s.loops[i].batch[0])
  {
    var l := s.loops[i];
    assert l.Queue() == [l.batch[0]] + l.RunNext().Queue();
  }

  /** Replacing one loop by one that is in order leaves every loop in order. */
  lemma ChangeLoop(s: Server, i: nat, l: D.Loop<Fn>)
    requires Sized(s) && i < |s.loops| && forall j :: 0 <= j < |s.loops| ==> LoopOk(s, j)
    requires D.Inv(l) && (forall f :: f in l.Queue() ==> FnOk(s, i, f))
    requires !l.phase.Dispatching? ==> Idle(s, i)
    ensures Sized(SetLoop(s, i, l))
    ensures forall j :: 0 <= j < |s.loops| ==> LoopOk(SetLoop(s, i, l), j)
  {
    var t := SetLoop(s, i, l);
    forall j | 0 <= j < |s.loops| ensures LoopOk(t, j) {
      assert LoopOk(s, j);
      forall f | f in t.loops[j].Queue() ensures FnOk(t, j, f) {
        assert FnOk(s, j, f);
      }
      forall e | EventOk(s, j, e) ensures EventOk(t, j, e) {}
    }
  }

  lemma ConnOkAfterQueue(s: Server, i: nat, f: Fn, sameThread: bool, c: nat)
    requires Sized(s) && i < |s.loops| && c < |s.conns| && ConnOk(s, c, f) && FnOk(s, i, f)
    ensures ConnOk(Queue(s, i, f, sameThread), c, UserFn)
  {
    TokensAfterQueue(s, i, f, sameThread);
    var t, k := Queue(s, i, f, sameThread), s.conns[c];
    assert Tokens(t, k.io, Establish(c)) == Tokens(s, k.io, Establish(c)) + Count(k.io == i && Establish(c) == f);
    assert Tokens(t, BASE, RemoveInLoop(c))
        == Tokens(s, BASE, RemoveInLoop(c)) + Count(BASE == i && RemoveInLoop(c) == f);
    assert Tokens(t, k.io, Destroy(c)) == Tokens(s, k.io, Destroy(c)) + Count(k.io == i && Destroy(c) == f);
  }

  lemma Put(s: Server, i: nat, f: Fn, sameThread: bool)
    requires InvHolding(s, f) && i < |s.loops| && FnOk(s, i, f)
    requires sameThread ==> D.OwnerAtWork(s.loops[i].phase)
    ensures Inv(Queue(s, i, f, sameThread))
  {
    var l := s.loops[i].QueueInLoop(f, sameThread);
    assert LoopOk(s, i);
    D.QueueKeepsInv(s.loops[i], f, sameThread);
    assert l.Queue() == s.loops[i].Queue() + [f];
    ChangeLoop(s, i, l);
    forall c | 0 <= c < |s.conns| ensures ConnOk(Queue(s, i, f, sameThread), c, UserFn) {
      ConnOkAfterQueue(s, i, f, sameThread, c);
    }
  }

  lemma ConnOkAfterRunNext(s: Server, i: nat, c: nat)
    requires i < |s.loops| && s.loops[i].batch != [] && c < |s.conns| && ConnOk(s, c, UserFn)
    requires FnOk(s, i, s.loops[i].batch[0])
    ensures ConnOk(SetLoop(s, i, s.loops[i].RunNext()), c, s.loops[i].batch[0])
  {
    TokensAfterRunNext(s, i);
    var t, f, k := SetLoop(s, i, s.loops[i].RunNext()), s.loops[i].batch[0], s.conns[c];
    assert Tokens(s, k.io, Establish(c)) == Tokens(t, k.io, Establish(c)) + Count(k.io == i && Establish(c) == f);
    assert Tokens(s, BASE, RemoveInLoop(c))
        == Tokens(t, BASE, RemoveInLoop(c)) + Count(BASE == i && RemoveInLoop(c) == f);
    assert Tokens(s, k.io, Destroy(c)) == Tokens(t, k.io, Destroy(c)) + Count(k.io == i && Destroy(c) == f);
  }

  lemma Take(s: Server, i: nat)
    requires Inv(s) && i < |s.loops| && s.loops[i].phase.Executing? && s.loops[i].batch != []
    ensures var f := s.loops[i].batch[0];
            InvHolding(SetLoop(s, i, s.loops[i].RunNext()), f) && FnOk(s, i, f)
  {
    hide ConnOk;
    var l, f := s.loops[i].RunNext(), s.loops[i].batch[0];
    assert LoopOk(s, i);
    D.RunNextKeepsInv(s.loops[i]);
    assert s.loops[i].Queue() == [f] + l.Queue();
    assert f in s.loops[i].Queue();
    ChangeLoop(s, i, l);
    forall c | 0 <= c < |s.conns| ensures ConnOk(SetLoop(s, i, l), c, f) {
      assert ConnOk(s, c, UserFn);
      ConnOkAfterRunNext(s, i, c);
    }
  }

  // ---------------------------------------------------------------------------
  // Changing one connection

  /** No returned event still names `c`. */
  predicate Absent(s: Server, c: nat)
    requires Sized(s)
  {
    forall i :: 0 <= i < |s.loops| ==>
      && (forall k :: 0 <= k < |s.ready[i]| ==> s.ready[i][k].c != c)
      && (s.handling[i].Some? ==> s.handling[i].value.c != c)
  }

  /** No returned event still has `c` to be read. */
  predicate Unread(s: Server, c: nat)
    requires Sized(s)
  {
    forall i :: 0 <= i < |s.loops| ==>
      && (forall k :: 0 <= k < |s.ready[i]| ==> s.ready[i][k].readable ==> s.ready[i][k].c != c)
      && (s.handling[i].Some? && s.handling[i].value.readable ==> s.handling[i].value.c != c)
  }

  /** `f` is no functor of the protocol for a connection other than `c`. */
  predicate OnlyAbout(f: Fn, c: nat) {
    f.UserFn? || f.c == c
  }

  /** Distinct ids have distinct names, so erasing one name erases one connection. */
  lemma NamesInjective(s: Server, c: nat, d: nat)
    requires NamesOk(s) && c < |s.conns| && d < |s.conns| && s.conns[c].name == s.conns[d].name
    ensures c == d
  {
    var a, b := T.Text(c + 1), T.Text(d + 1);
    assert (s.name + a)[|s.name|..] == a && (s.name + b)[|s.name|..] == b;
    T.TextInjective(c + 1, d + 1);
  }

  /** The map with or without the name of `c`. */
  function Erase(s: Server, c: nat, erase: bool): Server
    requires c < |s.conns|
  {
    if erase then s.(connections := s.connections - {s.conns[c].name}) else s
  }

  lemma OtherConnOk(s: Server, c: nat, k: Conn, erase: bool, d: nat, before: Fn, after: Fn)
    requires Sized(s) && NamesOk(s) && c < |s.conns| && d < |s.conns| && d != c && ConnOk(s, d, before)
    requires OnlyAbout(before, c) && OnlyAbout(after, c)
    ensures ConnOk(SetConn(Erase(s, c, erase), c, k), d, after)
  {
    var t := SetConn(Erase(s, c, erase), c, k);
    if s.conns[d].name == s.conns[c].name { NamesInjective(s, c, d); }
    assert t.conns[d] == s.conns[d];
    assert forall i, g :: Tokens(t, i, g) == Tokens(s, i, g);
  }

  lemma LoopsOkAfter(s: Server, c: nat, k: Conn, erase: bool, i: nat)
    requires Sized(s) && c < |s.conns| && i < |s.loops| && LoopOk(s, i)
    requires k.io == s.conns[c].io
    requires k.registered || !s.conns[c].registered || Absent(s, c)
    requires k.careRead || !s.conns[c].careRead || Unread(s, c)
    ensures var t := SetConn(Erase(s, c, erase), c, k); Sized(t) && LoopOk(t, i)
  {
    var t := SetConn(Erase(s, c, erase), c, k);
    forall f | f in t.loops[i].Queue() ensures FnOk(t, i, f) {
      assert FnOk(s, i, f);
    }
    forall e | EventOk(s, i, e) && (e.c == c ==> k.registered && (e.readable ==> k.careRead))
      ensures EventOk(t, i, e)
    {}
  }

  /** A step that changes connection `c` alone keeps everything if it leaves `c` in order. */
  lemma ChangeOne(s: Server, c: nat, k: Conn, erase: bool, before: Fn, after: Fn)
    requires InvHolding(s, before) && c < |s.conns|
    requires OnlyAbout(before, c) && OnlyAbout(after, c)
    requires k.io == s.conns[c].io && k.name == s.conns[c].name
    requires k.registered || !s.conns[c].registered || Absent(s, c)
    requires k.careRead || !s.conns[c].careRead || Unread(s, c)
    requires ConnOk(SetConn(Erase(s, c, erase), c, k), c, after)
    ensures InvHolding(SetConn(Erase(s, c, erase), c, k), after)
  {
    hide ConnOk, LoopOk;
    var t := SetConn(Erase(s, c, erase), c, k);
    forall i | 0 <= i < |t.loops| ensures LoopOk(t, i) {
      assert LoopOk(s, i);
      LoopsOkAfter(s, c, k, erase, i);
    }
    forall d | 0 <= d < |t.conns| ensures ConnOk(t, d, after) {
      assert ConnOk(s, d, before);
      if d != c { OtherConnOk(s, c, k, erase, d, before, after); }
    }
  }

  lemma IdleMeansAbsent(s: Server, c: nat)
    requires Sized(s) && c < |s.conns| && forall i :: 0 <= i < |s.loops| ==> LoopOk(s, i)
    requires !s.loops[s.conns[c].io].phase.Dispatching?
    ensures Absent(s, c)
  {
    forall i | 0 <= i < |s.loops|
      ensures forall k :: 0 <= k < |s.ready[i]| ==> s.ready[i][k].c != c
      ensures s.handling[i].Some? ==> s.handling[i].value.c != c
    {
      assert LoopOk(s, i);
      if i == s.conns[c].io { assert Idle(s, i); }
    }
  }

  lemma EstablishedOk(s: Server, c: nat)
    requires c < |s.conns| && ConnOk(s, c, Establish(c))
    ensures ConnOk(SetConnectionEstablished(s, c), c, UserFn) && s.conns[c].state.Connecting?
    ensures s.conns[c].registered && !s.conns[c].careRead
  {
    var t := SetConnectionEstablished(s, c);
    assert forall i, g :: Tokens(t, i, g) == Tokens(s, i, g);
  }

  lemma EstablishKeepsInv(s: Server, c: nat)
    requires InvHolding(s, Establish(c)) && c < |s.conns|
    ensures Inv(SetConnectionEstablished(s, c))
  {
    hide ConnOk, LoopOk;
    assert ConnOk(s, c, Establish(c));
    EstablishedOk(s, c);
    ChangeOne(s, c, SetConnectionEstablished(s, c).conns[c], false, Establish(c), UserFn);
  }

  lemma DestroyKeepsInv(s: Server, c: nat)
    requires InvHolding(s, Destroy(c)) && c < |s.conns|
    requires s.loops[s.conns[c].io].phase.Executing?
    ensures Inv(SetConnectionDestroyed(s, c))
  {
    assert ConnOk(s, c, Destroy(c));
    var t := SetConnectionDestroyed(s, c);
    assert forall i, g :: Tokens(t, i, g) == Tokens(s, i, g);
    IdleMeansAbsent(s, c);
    ChangeOne(s, c, t.conns[c], false, Destroy(c), UserFn);
  }

  lemma ErasedOk(s: Server, c: nat)
    requires c < |s.conns| && ConnOk(s, c, RemoveInLoop(c))
    ensures ConnOk(SetConn(Erase(s, c, true), c, s.conns[c].(erases := s.conns[c].erases + 1)), c, Destroy(c))
    ensures s.conns[c].name in s.connections
  {
    var t := SetConn(Erase(s, c, true), c, s.conns[c].(erases := s.conns[c].erases + 1));
    assert forall i, g :: Tokens(t, i, g) == Tokens(s, i, g);
  }

  /** The erasure leaves the thread with the connection's destruction in its hand. */
  lemma RemoveHands(s: Server, c: nat)
    requires InvHolding(s, RemoveInLoop(c)) && c < |s.conns|
    ensures InvHolding(SetConn(Erase(s, c, true), c, s.conns[c].(erases := s.conns[c].erases + 1)), Destroy(c))
    ensures s.conns[c].name in s.connections && s.conns[c].io < |s.loops|
  {
    hide LoopOk, ConnOk;
    assert ConnOk(s, c, RemoveInLoop(c));
    ErasedOk(s, c);
    ChangeOne(s, c, s.conns[c].(erases := s.conns[c].erases + 1), true, RemoveInLoop(c), Destroy(c));
  }

  lemma RemoveKeepsInv(s: Server, c: nat)
    requires InvHolding(s, RemoveInLoop(c)) && c < |s.conns|
    requires D.OwnerAtWork(s.loops[BASE].phase)
    ensures Inv(RemoveConnectionInLoop(s, c))
  {
    hide ConnOk, LoopOk, NamesOk;
    RemoveHands(s, c);
    var k := s.conns[c].(erases := s.conns[c].erases + 1);
    var t := SetConn(Erase(s, c, true), c, k);
    assert Check(t, k.name in s.connections) == t;
    Put(t, k.io, Destroy(c), k.io == BASE);
  }

  lemma ClosedOk(s: Server, c: nat)
    requires c < |s.conns| && ConnOk(s, c, UserFn) && s.conns[c].careRead
    ensures ConnOk(SetConn(s, c, s.conns[c].(careRead := false, closes := s.conns[c].closes + 1)), c, RemoveInLoop(c))
    ensures s.conns[c].registered && (s.conns[c].state.Connected? || s.conns[c].state.Disconnecting?)
  {
    var t := SetConn(s, c, s.conns[c].(careRead := false, closes := s.conns[c].closes + 1));
    assert forall i, g :: Tokens(t, i, g) == Tokens(s, i, g);
  }

  /** HandleClose leaves the thread with the connection's removal in its hand. */
  lemma CloseHands(s: Server, c: nat)
    requires Inv(s) && c < |s.conns| && s.conns[c].careRead && Unread(s, c)
    ensures InvHolding(SetConn(s, c, s.conns[c].(careRead := false, closes := s.conns[c].closes + 1)), RemoveInLoop(c))
    ensures s.conns[c].state.Connected? || s.conns[c].state.Disconnecting?
  {
    hide LoopOk, ConnOk;
    assert ConnOk(s, c, UserFn);
    ClosedOk(s, c);
    ChangeOne(s, c, s.conns[c].(careRead := false, closes := s.conns[c].closes + 1), false, UserFn, RemoveInLoop(c));
  }

  lemma CloseKeepsInv(s: Server, c: nat)
    requires Inv(s) && c < |s.conns| && s.conns[c].careRead && Unread(s, c)
    requires s.loops[s.conns[c].io].phase.Dispatching?
    ensures Inv(HandleClose(s, c))
  {
    hide ConnOk, LoopOk, NamesOk;
    CloseHands(s, c);
    var k := s.conns[c].(careRead := false, closes := s.conns[c].closes + 1);
    var t := SetConn(s, c, k);
    assert t == SetConn(Check(s, s.conns[c].state.Connected? || s.conns[c].state.Disconnecting?), c, k);
    if k.io == BASE { RemoveKeepsInv(t, c); } else { Put(t, BASE, RemoveInLoop(c), false); }
  }

  // What the asserts of the source ask, from the functor in hand

  lemma EstablishIsSafe(s: Server, c: nat)
    requires InvHolding(s, Establish(c)) && c < |s.conns|
    ensures s.conns[c].state.Connecting?
  {
    assert ConnOk(s, c, Establish(c));
  }

  lemma RemoveIsSafe(s: Server, c: nat)
    requires InvHolding(s, RemoveInLoop(c)) && c < |s.conns|
    ensures s.conns[c].name in s.connections && s.connections[s.conns[c].name] == c
  {
    assert ConnOk(s, c, RemoveInLoop(c));
    NamesInjective(s, c, s.connections[s.conns[c].name]);
  }

  /** Destruction never runs while the connection's own loop is inside a HandleEvent. */
  lemma DestroyIsSafe(s: Server, c: nat)
    requires InvHolding(s, Destroy(c)) && c < |s.conns|
    requires s.loops[s.conns[c].io].phase.Executing?
    ensures s.conns[c].state.Connected? || s.conns[c].state.Disconnecting?
    ensures s.handling[s.conns[c].io].None? && s.conns[c].closes == 1
  {
    assert ConnOk(s, c, Destroy(c));
    assert LoopOk(s, s.conns[c].io);
  }

  // ---------------------------------------------------------------------------
  // Every step keeps the invariant

  /** What NewConnection has built before it hands the connection to its loop. */
  function Added(s: Server, io: nat): Server {
    var name := NameOf(s, s.connId + 1);
    s.(connId := s.connId + 1,
       conns := s.conns + [Conn(io, name, S.Connecting, false, true, 0, 0, 0, 0, 0, 0, 0)],
       connections := s.connections[name := |s.conns|])
  }

  lemma NameIsNew(s: Server, d: nat)
    requires NamesOk(s) && d < |s.conns|
    ensures s.conns[d].name != NameOf(s, s.connId + 1)
  {
    var a, b := T.Text(d + 1), T.Text(s.connId + 1);
    assert (s.name + a)[|s.name|..] == a && (s.name + b)[|s.name|..] == b;
    if a == b { T.TextInjective(d + 1, s.connId + 1); }
  }

  lemma AddedKeepsLoops(s: Server, io: nat, i: nat)
    requires Sized(s) && i < |s.loops| && LoopOk(s, i) && io < |s.loops|
    ensures Sized(Added(s, io)) && LoopOk(Added(s, io), i)
  {
    var t := Added(s, io);
    forall f | f in t.loops[i].Queue() ensures FnOk(t, i, f) {
      assert FnOk(s, i, f);
    }
    forall e | EventOk(s, i, e) ensures EventOk(t, i, e) {}
  }

  lemma NoTokensYet(s: Server, i: nat, f: Fn)
    requires Sized(s) && i < |s.loops| && LoopOk(s, i) && !FnOk(s, i, f)
    ensures Tokens(s, i, f) == 0
  {
    assert f !in s.loops[i].Queue();
  }

  lemma AddedKeepsConns(s: Server, io: nat, c: nat)
    requires Inv(s) && io < |s.loops| && c <= |s.conns|
    ensures ConnOk(Added(s, io), c, Establish(|s.conns|))
  {
    var t := Added(s, io);
    assert forall i, f :: Tokens(t, i, f) == Tokens(s, i, f);
    assert LoopOk(s, io) && LoopOk(s, BASE);
    if c < |s.conns| {
      assert ConnOk(s, c, UserFn);
      NameIsNew(s, c);
    } else {
      NoTokensYet(s, io, Establish(c));
      NoTokensYet(s, BASE, RemoveInLoop(c));
      NoTokensYet(s, io, Destroy(c));
    }
  }

  /** NewConnection leaves the thread with the new connection's establishment in its hand. */
  lemma AcceptHands(s: Server, io: nat)
    requires Inv(s) && io < |s.loops|
    ensures InvHolding(Added(s, io), Establish(|s.conns|))
  {
    forall i | 0 <= i < |s.loops| ensures LoopOk(Added(s, io), i) { AddedKeepsLoops(s, io, i); }
    forall d | 0 <= d <= |s.conns| ensures ConnOk(Added(s, io), d, Establish(|s.conns|)) { AddedKeepsConns(s, io, d); }
    AddedKeepsNames(s, io);
  }

  lemma AcceptKeepsInv(s: Server, io: nat)
    requires Inv(s) && Enabled(s, Accept(io))
    ensures Inv(Next(s, Accept(io)))
  {
    var c := |s.conns|;
    AddedIsInserted(s, io);
    AcceptHands(s, io);
    if io == BASE { EstablishKeepsInv(Added(s, io), c); } else { Put(Added(s, io), io, Establish(c), false); }
  }

  /** The insertion always takes: a new id has a new name. */
  lemma AddedIsInserted(s: Server, io: nat)
    requires NamesOk(s)
    ensures NameOf(s, s.connId + 1) !in s.connections
  {
    var name := NameOf(s, s.connId + 1);
    if name in s.connections { NameIsNew(s, s.connections[name]); }
  }

  lemma AddedKeepsNames(s: Server, io: nat)
    requires NamesOk(s)
    ensures NamesOk(Added(s, io))
  {
    var t := Added(s, io);
    forall c | 0 <= c < |t.conns| ensures t.conns[c].name == NameOf(t, c + 1) {}
    forall n | n in t.connections ensures t.connections[n] < |t.conns| && t.conns[t.connections[n]].name == n {}
  }

  lemma LoopStepKeepsInv(s: Server, i: nat, op: D.Op<Fn>)
    requires Inv(s) && Enabled(s, LoopStep(i, op))
    ensures Inv(Next(s, LoopStep(i, op)))
  {
    assert LoopOk(s, i);
    if op.QueueInLoop? {
      Put(s, i, UserFn, op.sameThread);
    } else {
      var l := D.Apply(s.loops[i], op);
      D.StepKeepsInv(s.loops[i], op);
      assert l.Queue() == s.loops[i].Queue();
      ChangeLoop(s, i, l);
      SameTokens(s, i, l);
    }
  }

  lemma SameTokens(s: Server, i: nat, l: D.Loop<Fn>)
    requires Inv(s) && i < |s.loops| && l.Queue() == s.loops[i].Queue()
    ensures forall c :: 0 <= c < |s.conns| ==> ConnOk(SetLoop(s, i, l), c, UserFn)
  {
    var t := SetLoop(s, i, l);
    assert forall j, f :: Tokens(t, j, f) == Tokens(s, j, f);
    forall c | 0 <= c < |s.conns| ensures ConnOk(t, c, UserFn) {
      assert ConnOk(s, c, UserFn);
    }
  }

  /** Steps that move events about: only loop `i` sees a difference. */
  lemma EventsChange(s: Server, t: Server, i: nat)
    requires Inv(s) && Sized(t) && i < |s.loops| && |t.ready| == |s.ready| && |t.handling| == |s.handling|
    requires t == s.(ready := t.ready, handling := t.handling)
    requires forall j :: 0 <= j < |s.loops| && j != i ==> t.ready[j] == s.ready[j] && t.handling[j] == s.handling[j]
    requires s.loops[i].phase.Dispatching?
    requires Reportable(t, i, t.ready[i])
    requires t.handling[i].Some? ==> EventOk(t, i, t.handling[i].value)
    requires forall k :: 0 <= k < |t.ready[i]| && t.handling[i].Some? ==> t.ready[i][k].c != t.handling[i].value.c
    ensures Inv(t)
  {
    assert forall j, f :: Tokens(t, j, f) == Tokens(s, j, f);
    forall c | 0 <= c < |t.conns| ensures ConnOk(t, c, UserFn) {
      assert ConnOk(s, c, UserFn);
    }
    forall j | 0 <= j < |t.loops| ensures LoopOk(t, j) {
      assert LoopOk(s, j);
      forall f | f in t.loops[j].Queue() ensures FnOk(t, j, f) { assert FnOk(s, j, f); }
      forall e | EventOk(s, j, e) ensures EventOk(t, j, e) {}
    }
  }

  lemma PollKeepsInv(s: Server, i: nat, events: seq<Event>)
    requires Inv(s) && Enabled(s, Poll(i, events))
    ensures Inv(Next(s, Poll(i, events)))
  {
    var l := s.loops[i].Select();
    assert LoopOk(s, i);
    D.StepKeepsInv(s.loops[i], D.Select);
    assert l.Queue() == s.loops[i].Queue();
    ChangeLoop(s, i, l);
    SameTokens(s, i, l);
    var t := SetLoop(s, i, l);
    var u := t.(ready := t.ready[i := events]);
    forall e | EventOk(s, i, e) ensures EventOk(u, i, e) {}
    EventsChange(t, u, i);
  }

  lemma BeginEventKeepsInv(s: Server, i: nat)
    requires Inv(s) && Enabled(s, BeginEvent(i))
    ensures Inv(Next(s, BeginEvent(i)))
  {
    assert LoopOk(s, i);
    var t := Next(s, BeginEvent(i));
    forall e | EventOk(s, i, e) ensures EventOk(t, i, e) {}
    EventsChange(s, t, i);
  }

  lemma EndEventKeepsInv(s: Server, i: nat)
    requires Inv(s) && Enabled(s, EndEvent(i))
    ensures Inv(Next(s, EndEvent(i)))
  {
    assert LoopOk(s, i);
    var t := Next(s, EndEvent(i));
    forall e | EventOk(s, i, e) ensures EventOk(t, i, e) {}
    EventsChange(s, t, i);
  }

  lemma ReadEofKeepsInv(s: Server, i: nat)
    requires Inv(s) && Enabled(s, ReadEof(i))
    ensures Inv(Next(s, ReadEof(i)))
  {
    assert LoopOk(s, i);
    var e := s.handling[i].value;
    var t := s.(handling := s.handling[i := Some(e.(readable := false))]);
    assert EventOk(s, i, e);
    forall e' | EventOk(s, i, e') ensures EventOk(t, i, e') {}
    EventsChange(s, t, i);
    forall j | 0 <= j < |t.loops|
      ensures forall k :: 0 <= k < |t.ready[j]| ==> t.ready[j][k].c != e.c
      ensures t.handling[j].Some? && t.handling[j].value.readable ==> t.handling[j].value.c != e.c
    {
      assert LoopOk(s, j);
    }
    assert Unread(t, e.c);
    CloseKeepsInv(t, e.c);
  }

  lemma ShutDownKeepsInv(s: Server, c: nat, step: Step)
    requires step == ShutDownTest(c) || step == ShutDownSet(c)
    requires Inv(s) && Enabled(s, step)
    ensures Inv(Next(s, step))
  {
    var t := Next(s, step);
    assert ConnOk(s, c, UserFn);
    assert forall j, f :: Tokens(t, j, f) == Tokens(s, j, f);
    ChangeOne(s, c, t.conns[c], false, UserFn, UserFn);
  }

  lemma RunFunctorKeepsInv(s: Server, i: nat)
    requires Inv(s) && Enabled(s, RunFunctor(i))
    ensures Inv(Next(s, RunFunctor(i)))
  {
    Take(s, i);
    var t := SetLoop(s, i, s.loops[i].RunNext());
    match s.loops[i].batch[0]
    case Establish(c) => EstablishKeepsInv(t, c);
    case RemoveInLoop(c) => RemoveKeepsInv(t, c);
    case Destroy(c) => DestroyKeepsInv(t, c);
    case UserFn =>
  }

  lemma StepKeepsInv(s: Server, step: Step)
    requires Inv(s) && Enabled(s, step)
    ensures Inv(Next(s, step))
  {
    match step
    case LoopStep(i, op) => LoopStepKeepsInv(s, i, op);
    case Poll(i, events) => PollKeepsInv(s, i, events);
    case Accept(io) => AcceptKeepsInv(s, io);
    case BeginEvent(i) => BeginEventKeepsInv(s, i);
    case ReadEof(i) => ReadEofKeepsInv(s, i);
    case EndEvent(i) => EndEventKeepsInv(s, i);
    case RunFunctor(i) => RunFunctorKeepsInv(s, i);
    case ShutDownTest(c) => ShutDownKeepsInv(s, c, step);
    case ShutDownSet(c) => ShutDownKeepsInv(s, c, step);
  }

  predicate IsRun(trace: seq<Server>, steps: seq<Step>) {
    && |trace| == |steps| + 1
    && 0 < |trace[0].loops| && trace[0] == Init(trace[0].name, |trace[0].loops|)
    && forall i :: 0 <= i < |steps| ==>
         Sized(trace[i]) && Enabled(trace[i], steps[i]) && trace[i + 1] == Next(trace[i], steps[i])
  }

  lemma {:induction false} RunKeepsInv(trace: seq<Server>, steps: seq<Step>, n: nat)
    requires IsRun(trace, steps) && n <= |steps|
    ensures Inv(trace[n])
  {
    if n > 0 {
      RunKeepsInv(trace, steps, n - 1);
      StepKeepsInv(trace[n - 1], steps[n - 1]);
    }
  }

  // ---------------------------------------------------------------------------
  // What the invariant means

  /**
   In every interleaving: no assert fails; established, closed, erased and
   destroyed happen in that order and at most once each; the callback runs at
   most once up and at most once down.
   */
  lemma LifeCycle(trace: seq<Server>, steps: seq<Step>, n: nat, c: nat)
    requires IsRun(trace, steps) && n <= |steps| && c < |trace[n].conns|
    ensures !trace[n].aborted
    ensures var k := trace[n].conns[c];
            && k.destroys <= k.erases <= k.closes <= k.established <= 1
            && k.ups == k.established && k.downs == k.destroys
            && (k.name in trace[n].connections <==> k.erases == 0)
  {
    RunKeepsInv(trace, steps, n);
    assert ConnOk(trace[n], c, UserFn);
  }

  /** The server's map or a functor bound to the connection keeps it alive. */
  predicate Held(s: Server, c: nat)
    requires c < |s.conns|
  {
    var k := s.conns[c];
    || (k.name in s.connections && s.connections[k.name] == c)
    || Tokens(s, k.io, Establish(c)) > 0
    || Tokens(s, BASE, RemoveInLoop(c)) > 0
    || Tokens(s, k.io, Destroy(c)) > 0
  }

  /**
   Ownership: a connection is held until its destruction has run, and one whose
   HandleEvent is on a loop's stack is held, not destroyed, and that loop's own.
   */
  lemma Ownership(trace: seq<Server>, steps: seq<Step>, n: nat, c: nat)
    requires IsRun(trace, steps) && n <= |steps| && c < |trace[n].conns|
    ensures Sized(trace[n])
    ensures var s := trace[n];
            && (s.conns[c].destroys == 0 ==> Held(s, c))
            && (forall i :: 0 <= i < |s.loops| && s.handling[i].Some? && s.handling[i].value.c == c ==>
                  i == s.conns[c].io && s.conns[c].destroys == 0 && Held(s, c))
  {
    RunKeepsInv(trace, steps, n);
    var s := trace[n];
    assert ConnOk(s, c, UserFn);
    if s.conns[c].name in s.connections { NamesInjective(s, c, s.connections[s.conns[c].name]); }
    forall i | 0 <= i < |s.loops| && s.handling[i].Some? && s.handling[i].value.c == c
      ensures i == s.conns[c].io && s.conns[c].destroys == 0
    {
      assert LoopOk(s, i);
    }
  }

  // ---------------------------------------------------------------------------
  // The connection's own side of the hand-off

  /** `x` is where the life cycle has the connection. */
  predicate Views(k: Conn, x: S.Stream) {
    x.state == k.state && x.careRead == k.careRead && x.closed == (k.closes == 1) && x.armed == k.armed
  }

  /** The call that running functor `f` makes on connection `c`. */
  function CallOf(f: Fn, c: nat): Option<S.Action> {
    if f == Establish(c) then Some(S.Establish) else if f == Destroy(c) then Some(S.Destroy) else None
  }

  /** The call that a step makes on connection `c`. */
  function CallOn(s: Server, step: Step, c: nat): Option<S.Action>
    requires Sized(s) && Enabled(s, step) && c < |s.conns|
  {
    match step
    case RunFunctor(i) => CallOf(s.loops[i].batch[0], c)
    case ReadEof(i) => if s.handling[i].value.c == c then Some(S.Eof) else None
    case ShutDownTest(d) => if d == c then Some(S.OffTest) else None
    case ShutDownSet(d) => if d == c then Some(S.OffSet) else None
    case _ => None
  }

  /** The call `a`, or no call, is enabled for `x` and leads to a view of `k`. */
  predicate Follows(config: S.Config, x: S.Stream, a: Option<S.Action>, k: Conn) {
    match a
    case Some(call) => S.Enabled(x, call) && Views(k, S.Step(config, x, call))
    case None => Views(k, x)
  }

  lemma FunctorFollows(s: Server, f: Fn, c: nat, config: S.Config, x: S.Stream)
    requires InvHolding(s, f) && (!f.UserFn? ==> f.c < |s.conns|) && c < |s.conns| && Views(s.conns[c], x)
    requires f.Destroy? ==> s.loops[s.conns[f.c].io].phase.Executing?
    ensures c < |Call(s, f).conns| && Follows(config, x, CallOf(f, c), Call(s, f).conns[c])
  {
    match f {
      case Establish(d) => EstablishIsSafe(s, d);
      case Destroy(d) => DestroyIsSafe(s, d);
      case _ =>
    }
    hide ConnOk, LoopOk, NamesOk;
  }

  lemma CloseFollows(s: Server, d: nat, c: nat, config: S.Config, x: S.Stream)
    requires Sized(s) && d < |s.conns| && c < |s.conns| && Views(s.conns[c], x)
    requires s.conns[d].careRead && s.conns[d].closes == 0
    ensures c < |HandleClose(s, d).conns|
    ensures Follows(config, x, if d == c then Some(S.Eof) else None, HandleClose(s, d).conns[c])
  {}

  lemma FunctorStepFollows(s: Server, i: nat, c: nat, config: S.Config, x: S.Stream)
    requires Inv(s) && Enabled(s, RunFunctor(i)) && c < |s.conns| && Views(s.conns[c], x)
    ensures c < |Next(s, RunFunctor(i)).conns|
    ensures Follows(config, x, CallOf(s.loops[i].batch[0], c), Next(s, RunFunctor(i)).conns[c])
  {
    hide ConnOk, NamesOk, Follows;
    assert LoopOk(s, i);
    Take(s, i);
    FunctorFollows(SetLoop(s, i, s.loops[i].RunNext()), s.loops[i].batch[0], c, config, x);
  }

  lemma EofStepFollows(s: Server, i: nat, c: nat, config: S.Config, x: S.Stream)
    requires Inv(s) && Enabled(s, ReadEof(i)) && c < |s.conns| && Views(s.conns[c], x)
    ensures c < |Next(s, ReadEof(i)).conns|
    ensures Follows(config, x, CallOn(s, ReadEof(i), c), Next(s, ReadEof(i)).conns[c])
  {
    hide NamesOk, Follows;
    var e := s.handling[i].value;
    assert LoopOk(s, i) && ConnOk(s, e.c, UserFn);
    CloseFollows(s.(handling := s.handling[i := Some(e.(readable := false))]), e.c, c, config, x);
  }

  /**
   The life cycle makes a call on a connection only where the connection's own
   transition system enables it, and both then agree on where the connection is.
   */
  lemma CallsAreEnabled(s: Server, step: Step, c: nat, config: S.Config, x: S.Stream)
    requires Inv(s) && Enabled(s, step) && c < |s.conns| && Views(s.conns[c], x)
    ensures c < |Next(s, step).conns| && Follows(config, x, CallOn(s, step, c), Next(s, step).conns[c])
  {
    hide ConnOk, LoopOk, NamesOk;
    match step
    case RunFunctor(i) => FunctorStepFollows(s, i, c, config, x);
    case ReadEof(i) => EofStepFollows(s, i, c, config, x);
    case _ =>
  }

  /** The server and one connection's stream together: a step of the server, or a call on the connection alone. */
  datatype Move =
    | Serve(step: Step)
    | Alone(a: S.Action)
    | CloseInLoop // ShutDown on the connection's own loop

  predicate CanMove(s: Server, x: S.Stream, c: nat, m: Move)
    requires Sized(s) && c < |s.conns|
  {
    match m
    case Serve(step) => Enabled(s, step)
    case Alone(a) => (a.Send? || a.Writable? || a.RunQueued? || a.OffSend? || a.Push?) && S.Enabled(x, a)
    case CloseInLoop => s.conns[c].state.Connected?
  }

  function ActionOf(s: Server, c: nat, m: Move): Option<S.Action>
    requires Sized(s) && c < |s.conns| && (m.Serve? ==> Enabled(s, m.step))
  {
    match m
    case Serve(step) => CallOn(s, step, c)
    case Alone(a) => Some(a)
    case CloseInLoop => Some(S.Close)
  }

  function MoveServer(s: Server, c: nat, m: Move): Server
    requires Sized(s) && c < |s.conns| && (m.Serve? ==> Enabled(s, m.step))
  {
    match m
    case Serve(step) => Next(s, step)
    case Alone(_) => s
    case CloseInLoop => SetConn(s, c, s.conns[c].(state := S.Disconnecting))
  }

  function MoveStream(config: S.Config, s: Server, x: S.Stream, c: nat, m: Move): S.Stream
    requires Sized(s) && c < |s.conns| && (m.Serve? ==> Enabled(s, m.step))
  {
    match ActionOf(s, c, m)
    case Some(a) => S.Step(config, x, a)
    case None => x
  }

  lemma CloseIsTestAndSet(s: Server, c: nat)
    requires Inv(s) && c < |s.conns| && s.conns[c].state.Connected?
    ensures Inv(SetConn(s, c, s.conns[c].(state := S.Disconnecting)))
  {
    StepKeepsInv(s, ShutDownTest(c));
    var t := Next(s, ShutDownTest(c));
    StepKeepsInv(t, ShutDownSet(c));
    hide ConnOk, LoopOk, NamesOk;
    assert Next(t, ShutDownSet(c)) == SetConn(s, c, s.conns[c].(state := S.Disconnecting));
  }

  lemma MoveFollows(config: S.Config, s: Server, x: S.Stream, c: nat, m: Move)
    requires Inv(s) && c < |s.conns| && Views(s.conns[c], x) && CanMove(s, x, c, m)
    ensures Inv(MoveServer(s, c, m)) && c < |MoveServer(s, c, m).conns|
    ensures ActionOf(s, c, m).Some? ==> S.Enabled(x, ActionOf(s, c, m).value)
    ensures Views(MoveServer(s, c, m).conns[c], MoveStream(config, s, x, c, m))
  {
    hide ConnOk, LoopOk, NamesOk, Next, Enabled, CallOn;
    match m
    case Serve(step) =>
      StepKeepsInv(s, step);
      CallsAreEnabled(s, step, c, config, x);
    case Alone(a) =>
    case CloseInLoop => CloseIsTestAndSet(s, c);
  }

  /** From the moment the server accepts connection `c` on loop `io`, in any state it can be in. */
  predicate IsJointRun(config: S.Config, before: Server, io: nat, c: nat, servers: seq<Server>, streams: seq<S.Stream>,
                       moves: seq<Move>)
  {
    && Inv(before) && Enabled(before, Accept(io)) && c == |before.conns|
    && |servers| == |streams| == |moves| + 1
    && servers[0] == Next(before, Accept(io))
    && streams[0] == (if io == BASE then S.Established(S.FRESH) else S.FRESH)
    && forall i :: 0 <= i < |moves| ==>
         Sized(servers[i]) && c < |servers[i].conns| && CanMove(servers[i], streams[i], c, moves[i])
         && servers[i + 1] == MoveServer(servers[i], c, moves[i])
         && streams[i + 1] == MoveStream(config, servers[i], streams[i], c, moves[i])
  }

  lemma AcceptViews(before: Server, io: nat)
    requires Inv(before) && Enabled(before, Accept(io))
    ensures var t := Next(before, Accept(io));
            && Inv(t) && |t.conns| == |before.conns| + 1
            && Views(t.conns[|before.conns|], if io == BASE then S.Established(S.FRESH) else S.FRESH)
  {
    AcceptKeepsInv(before, io);
    hide ConnOk, LoopOk, NamesOk, Inv;
  }

  lemma StreamStart(config: S.Config, io: nat) returns (xs: seq<S.Stream>, actions: seq<S.Action>)
    ensures S.IsRun(config, xs, actions)
    ensures xs[|actions|] == if io == BASE then S.Established(S.FRESH) else S.FRESH
  {
    if io == BASE {
      xs, actions := S.JustEstablished(config);
    } else {
      xs, actions := [S.FRESH], [];
    }
  }

  /**
   Whatever the server, its loops and all the threads do, what happens to one
   connection is a run of the connection's own transition system, and the two agree
   on where the connection is. So all that is proved of such runs holds in the server.
   */
  lemma {:induction false} ConnectionRunsInServer(
      config: S.Config, before: Server, io: nat, c: nat, servers: seq<Server>, streams: seq<S.Stream>, moves: seq<Move>,
      n: nat) returns (xs: seq<S.Stream>, actions: seq<S.Action>)
    requires IsJointRun(config, before, io, c, servers, streams, moves) && n <= |moves|
    ensures S.IsRun(config, xs, actions) && xs[|actions|] == streams[n]
    ensures Inv(servers[n]) && c < |servers[n].conns| && Views(servers[n].conns[c], streams[n])
  {
    hide Inv, Views, ActionOf, MoveServer, S.IsRun, S.Step, S.Enabled, Next, Enabled;
    if n == 0 {
      AcceptViews(before, io);
      xs, actions := StreamStart(config, io);
    } else {
      xs, actions := ConnectionRunsInServer(config, before, io, c, servers, streams, moves, n - 1);
      var s, x, m := servers[n - 1], streams[n - 1], moves[n - 1];
      MoveFollows(config, s, x, c, m);
      if ActionOf(s, c, m).Some? {
        xs, actions := S.Extend(config, xs, actions, ActionOf(s, c, m).value);
      }
    }
  }

  // ---------------------------------------------------------------------------
  // Progress from HandleClose to set_connection_destroyed

  predicate Closing(s: Server, c: nat) {
    c < |s.conns| && s.conns[c].closes == 1 && s.conns[c].destroys == 0
  }

  /** The functor that takes a closing connection one stage on, and the loop that holds it. */
  function NextFn(s: Server, c: nat): Fn
    requires c < |s.conns|
  {
    if s.conns[c].erases == 0 then RemoveInLoop(c) else Destroy(c)
  }

  function Holder(s: Server, c: nat): nat
    requires c < |s.conns|
  {
    if s.conns[c].erases == 0 then BASE else s.conns[c].io
  }

  function Index(q: seq<Fn>, f: Fn): nat {
    if q == [] || q[0] == f then 0 else 1 + Index(q[1..], f)
  }

  /** Functors the holding loop runs before that one. */
  function Ahead(s: Server, c: nat): nat
    requires c < |s.conns|
  {
    if Holder(s, c) < |s.loops| then Index(s.loops[Holder(s, c)].Queue(), NextFn(s, c)) else 0
  }

  lemma {:induction false} IndexAppend(q: seq<Fn>, tail: seq<Fn>, f: Fn)
    requires f in q
    ensures Index(q + tail, f) == Index(q, f)
  {
    if q[0] != f {
      assert (q + tail)[1..] == q[1..] + tail;
      IndexAppend(q[1..], tail, f);
    }
  }

  /** `f` alone when `b`, else nothing. */
  function Only(b: bool, f: Fn): seq<Fn> {
    if b then [f] else []
  }

  lemma AfterQueue(s: Server, i: nat, f: Fn, sameThread: bool, j: nat)
    requires i < |s.loops| && j < |s.loops|
    ensures Queue(s, i, f, sameThread).loops[j].Queue() == s.loops[j].Queue() + Only(i == j, f)
  {
    assert s.loops[i].QueueInLoop(f, sameThread).Queue() == s.loops[i].Queue() + [f];
    assert s.loops[j].Queue() + [] == s.loops[j].Queue();
  }

  /** What a call of the protocol queues on loop `j`. */
  function Queues(s: Server, f: Fn, j: nat): seq<Fn> {
    if f.RemoveInLoop? && f.c < |s.conns| then Only(s.conns[f.c].io == j, Destroy(f.c)) else []
  }

  lemma AfterCall(s: Server, f: Fn, j: nat)
    requires Sized(s) && (!f.UserFn? ==> f.c < |s.conns|) && j < |s.loops|
    ensures |Call(s, f).loops| == |s.loops|
    ensures Call(s, f).loops[j].Queue() == s.loops[j].Queue() + Queues(s, f, j)
  {
    if f.RemoveInLoop? {
      var k := s.conns[f.c];
      var erased := SetConn(s.(connections := s.connections - {k.name}), f.c, k.(erases := k.erases + 1));
      AfterQueue(Check(erased, k.name in s.connections), k.io, Destroy(f.c), k.io == BASE, j);
    } else {
      assert s.loops[j].Queue() + [] == s.loops[j].Queue();
    }
  }

  lemma AfterClose(s: Server, c: nat, j: nat)
    requires Sized(s) && c < |s.conns| && j < |s.loops|
    ensures |HandleClose(s, c).loops| == |s.loops|
    ensures HandleClose(s, c).loops[j].Queue() == s.loops[j].Queue()
            + Only(j == BASE, if s.conns[c].io == BASE then Destroy(c) else RemoveInLoop(c))
  {
    var k := s.conns[c];
    var closed := SetConn(Check(s, k.state.Connected? || k.state.Disconnecting?), c,
                          k.(careRead := false, closes := k.closes + 1));
    if k.io == BASE {
      AfterCall(closed, RemoveInLoop(c), j);
    } else {
      AfterQueue(closed, BASE, RemoveInLoop(c), false, j);
    }
  }

  lemma AfterAccept(s: Server, io: nat, j: nat)
    requires Sized(s) && io < |s.loops| && j < |s.loops|
    ensures |NewConnection(s, io).loops| == |s.loops|
    ensures NewConnection(s, io).loops[j].Queue()
            == s.loops[j].Queue() + Only(io != BASE && io == j, Establish(|s.conns|))
  {
    AfterQueue(s, io, Establish(|s.conns|), false, j);
    assert s.loops[j].Queue() + [] == s.loops[j].Queue();
  }

  lemma AfterLoopStep(s: Server, i: nat, op: D.Op<Fn>, j: nat)
    requires Inv(s) && Enabled(s, LoopStep(i, op)) && j < |s.loops|
    ensures Next(s, LoopStep(i, op)).loops[j].Queue() == s.loops[j].Queue() + Only(i == j && op.QueueInLoop?, UserFn)
  {
    assert LoopOk(s, i);
    if op.QueueInLoop? {
      AfterQueue(s, i, UserFn, op.sameThread, j);
    } else {
      assert D.Apply(s.loops[i], op).Queue() == s.loops[i].Queue();
      assert s.loops[j].Queue() + [] == s.loops[j].Queue();
    }
  }

  /** What a step appends to the queue of loop `j`. */
  function Tail(s: Server, step: Step, j: nat): seq<Fn>
    requires Sized(s) && Enabled(s, step)
  {
    match step
    case LoopStep(i, op) => Only(i == j && op.QueueInLoop?, UserFn)
    case Accept(io) => Only(io != BASE && io == j, Establish(|s.conns|))
    case ReadEof(i) =>
      var c := s.handling[i].value.c;
      Only(j == BASE, if s.conns[c].io == BASE then Destroy(c) else RemoveInLoop(c))
    case RunFunctor(i) => Queues(s, s.loops[i].batch[0], j)
    case _ => []
  }

  /** A loop's queue changes only at its ends: the functor run leaves the front, new ones join the back. */
  lemma QueueChange(s: Server, step: Step, j: nat)
    requires Inv(s) && Enabled(s, step) && j < |s.loops|
    ensures |Next(s, step).loops| == |s.loops|
    ensures step == RunFunctor(j) ==> s.loops[j].Queue() != []
    ensures Next(s, step).loops[j].Queue()
            == (if step == RunFunctor(j) then s.loops[j].Queue()[1..] else s.loops[j].Queue()) + Tail(s, step, j)
  {
    match step
    case LoopStep(i, op) => AfterLoopStep(s, i, op, j);
    case Accept(io) => AfterAccept(s, io, j);
    case ReadEof(i) =>
      var e := s.handling[i].value;
      AfterClose(s.(handling := s.handling[i := Some(e.(readable := false))]), e.c, j);
    case RunFunctor(i) =>
      assert s.loops[i].RunNext().Queue() == s.loops[i].Queue()[1..];
      AfterCall(SetLoop(s, i, s.loops[i].RunNext()), s.loops[i].batch[0], j);
    case Poll(i, _) =>
      assert s.loops[i].Select().Queue() == s.loops[i].Queue();
      assert s.loops[j].Queue() + [] == s.loops[j].Queue();
    case _ =>
      assert s.loops[j].Queue() + [] == s.loops[j].Queue();
  }

  /** From `k` to `k'` no counter falls, and the loop and the name stay. */
  predicate Grown(k: Conn, k': Conn) {
    && k.io == k'.io && k.name == k'.name
    && k.established <= k'.established && k.closes <= k'.closes && k.erases <= k'.erases && k.destroys <= k'.destroys
  }

  lemma CallGrows(s: Server, f: Fn, c: nat)
    requires Sized(s) && (!f.UserFn? ==> f.c < |s.conns|) && c < |s.conns|
    ensures |Call(s, f).conns| == |s.conns| && Grown(s.conns[c], Call(s, f).conns[c])
    ensures f == RemoveInLoop(c) ==> Call(s, f).conns[c].erases > s.conns[c].erases
    ensures f == Destroy(c) ==> Call(s, f).conns[c].destroys > s.conns[c].destroys
  {}

  lemma CountersGrow(s: Server, step: Step, c: nat)
    requires Inv(s) && Enabled(s, step) && c < |s.conns|
    ensures c < |Next(s, step).conns| && Grown(s.conns[c], Next(s, step).conns[c])
  {
    match step
    case RunFunctor(i) => CallGrows(SetLoop(s, i, s.loops[i].RunNext()), s.loops[i].batch[0], c);
    case ReadEof(i) =>
      var e := s.handling[i].value;
      var t := s.(handling := s.handling[i := Some(e.(readable := false))]);
      CloseGrows(t, e.c, c);
    case _ =>
  }

  lemma CloseGrows(s: Server, c: nat, d: nat)
    requires Sized(s) && c < |s.conns| && d < |s.conns|
    ensures |HandleClose(s, c).conns| == |s.conns| && Grown(s.conns[d], HandleClose(s, c).conns[d])
  {}

  lemma QueuedNext(s: Server, c: nat)
    requires Inv(s) && Closing(s, c)
    ensures Holder(s, c) < |s.loops| && NextFn(s, c) in s.loops[Holder(s, c)].Queue()
  {
    assert ConnOk(s, c, UserFn);
    assert Tokens(s, Holder(s, c), NextFn(s, c)) == 1;
  }

  /** When the functor at the front of the holding loop is the one awaited, running it ends the stage. */
  lemma FrontEndsStage(s: Server, c: nat)
    requires Inv(s) && Closing(s, c) && Enabled(s, RunFunctor(Holder(s, c)))
    requires s.loops[Holder(s, c)].Queue() != [] && s.loops[Holder(s, c)].Queue()[0] == NextFn(s, c)
    ensures var t := Next(s, RunFunctor(Holder(s, c)));
            c < |t.conns| && t.conns[c].erases + t.conns[c].destroys > s.conns[c].erases + s.conns[c].destroys
  {
    hide ConnOk, NamesOk, LoopOk;
    var h := Holder(s, c);
    assert s.loops[h].Queue()[0] == s.loops[h].batch[0];
    CallGrows(SetLoop(s, h, s.loops[h].RunNext()), NextFn(s, c), c);
  }

  /**
   No step takes a closing connection back: it moves on a stage, or keeps its
   place or better in the queue. Each functor the holding loop runs moves it on.
   */
  lemma StepMakesProgress(s: Server, step: Step, c: nat)
    requires Inv(s) && Enabled(s, step) && Closing(s, c)
    ensures c < |Next(s, step).conns|
    ensures var t := Next(s, step);
            || t.conns[c].destroys == 1
            || (Closing(t, c) && t.conns[c].erases > s.conns[c].erases)
            || (Closing(t, c) && Holder(t, c) == Holder(s, c) && NextFn(t, c) == NextFn(s, c)
                && if step == RunFunctor(Holder(s, c)) then Ahead(t, c) < Ahead(s, c) else Ahead(t, c) <= Ahead(s, c))
  {
    var t, h, f := Next(s, step), Holder(s, c), NextFn(s, c);
    StepKeepsInv(s, step);
    CountersGrow(s, step, c);
    QueuedNext(s, c);
    assert ConnOk(t, c, UserFn);
    QueueChange(s, step, h);
    hide Next, Enabled, NamesOk, LoopOk, FnOk, Tail;
    var q, tail := s.loops[h].Queue(), Tail(s, step, h);
    if step == RunFunctor(h) {
      if q[0] == f {
        FrontEndsStage(s, c);
      } else {
        assert f in q[1..];
        IndexAppend(q[1..], tail, f);
      }
    } else {
      IndexAppend(q, tail, f);
    }
  }

  /** How many functors loop `h` runs in steps i..n. */
  function Runs(steps: seq<Step>, h: nat, i: nat, n: nat): nat
    requires i <= n <= |steps|
    decreases n
  {
    if i == n then 0 else Runs(steps, h, i, n - 1) + Count(steps[n - 1] == RunFunctor(h))
  }

  /** How far a closing connection has come: erased, then destroyed. */
  function Stage(k: Conn): nat {
    k.erases + k.destroys
  }

  /**
   A closing connection stays in a stage while its loop runs at most the functors
   that were ahead, whatever every other thread does: one more takes it on.
   */
  lemma {:induction false} StageEnds(trace: seq<Server>, steps: seq<Step>, i: nat, n: nat, c: nat)
    requires IsRun(trace, steps) && i <= n <= |steps| && Closing(trace[i], c)
    ensures c < |trace[n].conns|
    ensures Stage(trace[n].conns[c]) >= Stage(trace[i].conns[c])
    ensures Stage(trace[n].conns[c]) == Stage(trace[i].conns[c])
            ==> Closing(trace[n], c) && Holder(trace[n], c) == Holder(trace[i], c)
                && Runs(steps, Holder(trace[i], c), i, n) + Ahead(trace[n], c) <= Ahead(trace[i], c)
    decreases n
  {
    hide Next, Enabled, LoopOk, NamesOk;
    if i < n {
      StageEnds(trace, steps, i, n - 1, c);
      RunKeepsInv(trace, steps, n - 1);
      CountersGrow(trace[n - 1], steps[n - 1], c);
      RunKeepsInv(trace, steps, n);
      assert ConnOk(trace[n], c, UserFn) && ConnOk(trace[n - 1], c, UserFn);
      if Closing(trace[n - 1], c) {
        StepMakesProgress(trace[n - 1], steps[n - 1], c);
      }
    }
  }

  lemma CountersInRange(trace: seq<Server>, steps: seq<Step>, n: nat, c: nat)
    requires IsRun(trace, steps) && n <= |steps| && c < |trace[n].conns|
    ensures var k := trace[n].conns[c]; k.destroys <= k.erases <= k.closes <= k.established <= 1
  {
    LifeCycle(trace, steps, n, c);
  }

  /** Destruction is final. */
  lemma {:induction false} StaysDestroyed(trace: seq<Server>, steps: seq<Step>, m: nat, n: nat, c: nat)
    requires IsRun(trace, steps) && m <= n <= |steps| && c < |trace[m].conns| && trace[m].conns[c].destroys == 1
    ensures c < |trace[n].conns| && trace[n].conns[c].destroys == 1
    decreases n
  {
    hide Next, Enabled, LoopOk, NamesOk;
    if m < n {
      StaysDestroyed(trace, steps, m, n - 1, c);
      RunKeepsInv(trace, steps, n - 1);
      RunKeepsInv(trace, steps, n);
      CountersGrow(trace[n - 1], steps[n - 1], c);
      assert ConnOk(trace[n], c, UserFn);
    }
  }

  /**
   From HandleClose to destruction: once the loop that holds the connection has run
   more functors than were ahead of its own, and then, if that only erased it, its IO
   loop more than were ahead there, it has been destroyed, whatever the others do.
   */
  lemma ClosingIsDestroyed(trace: seq<Server>, steps: seq<Step>, i: nat, m: nat, n: nat, c: nat)
    requires IsRun(trace, steps) && i <= m <= n <= |steps| && Closing(trace[i], c)
    requires Runs(steps, Holder(trace[i], c), i, m) > Ahead(trace[i], c)
    requires Closing(trace[m], c) ==> Runs(steps, Holder(trace[m], c), m, n) > Ahead(trace[m], c)
    ensures c < |trace[n].conns| && trace[n].conns[c].destroys == 1
  {
    hide Inv, Next, Enabled, Runs, Ahead, Holder, NextFn;
    StageEnds(trace, steps, i, m, c);
    CountersInRange(trace, steps, m, c);
    StillClosed(trace, steps, i, m, c);
    if Closing(trace[m], c) {
      StageEnds(trace, steps, m, n, c);
      CountersInRange(trace, steps, n, c);
    } else {
      StaysDestroyed(trace, steps, m, n, c);
    }
  }

  lemma {:induction false} StillClosed(trace: seq<Server>, steps: seq<Step>, m: nat, n: nat, c: nat)
    requires IsRun(trace, steps) && m <= n <= |steps| && c < |trace[m].conns| && trace[m].conns[c].closes == 1
    ensures c < |trace[n].conns| && trace[n].conns[c].closes == 1
    decreases n
  {
    hide Next, Enabled, LoopOk, NamesOk;
    if m < n {
      StillClosed(trace, steps, m, n - 1, c);
      RunKeepsInv(trace, steps, n - 1);
      RunKeepsInv(trace, steps, n);
      CountersGrow(trace[n - 1], steps[n - 1], c);
      assert ConnOk(trace[n], c, UserFn);
    }
  }

  /**
   While its loop has not quit the connection is not stranded: its functor is
   queued on a loop that is awake, about to be woken, or in its first round.
   */
  lemma ClosingIsScheduled(trace: seq<Server>, steps: seq<Step>, n: nat, c: nat)
    requires IsRun(trace, steps) && n <= |steps| && Closing(trace[n], c)
    ensures var s := trace[n];
            && Holder(s, c) < |s.loops|
            && NextFn(s, c) in s.loops[Holder(s, c)].Queue()
            && (D.WouldBlock(s.loops[Holder(s, c)]) ==>
                  s.loops[Holder(s, c)].owed > 0 || s.loops[Holder(s, c)].early)
  {
    RunKeepsInv(trace, steps, n);
    QueuedNext(trace[n], c);
    assert LoopOk(trace[n], Holder(trace[n], c));
  }
}
