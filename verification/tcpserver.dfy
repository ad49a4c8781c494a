/**
 TcpServer and the connection functions it binds, as methods that update the
 server's map and the connections. The asserts of the source are asserts here,
 proved from the life-cycle invariant.
 */
module TcpServers {
  import opened Lifecycles
  import opened Prelude
  import D = Dispatchers
  import S = Streams
  import T = Decimal

  class TcpServer {
    const name: string
    var connId: nat
    var connections: map<string, nat>
    var conns: seq<Conn>
    var loops: seq<D.Loop<Fn>>
    var ready: seq<seq<Event>>
    var handling: seq<Option<Event>>

    ghost function State(): Server
      reads this
    {
      Server(name, connId, connections, conns, loops, ready, handling, false)
    }

    constructor (name: string, numLoops: nat)
      requires numLoops > 0
      ensures State() == Init(name, numLoops) && Inv(State())
    {
      this.name := name;
      connId, connections, conns := 0, map[], [];
      loops := seq(numLoops, _ => D.Fresh());
      ready := seq(numLoops, _ => []);
      handling := seq(numLoops, _ => None);
    }

    method QueueInLoop(i: nat, f: Fn, sameThread: bool)
      requires i < |loops|
      modifies this`loops
      ensures State() == Queue(old(State()), i, f, sameThread)
    {
      loops := loops[i := loops[i].QueueInLoop(f, sameThread)];
    }

    method SetConnectionEstablished(c: nat)
      requires c < |conns| && InvHolding(State(), Establish(c))
      modifies this`conns
      ensures State() == Lifecycles.SetConnectionEstablished(old(State()), c) && Inv(State())
    {
      EstablishKeepsInv(State(), c);
      EstablishIsSafe(State(), c);
      assert conns[c].state.Connecting?;
      var k := conns[c].(state := S.Connected, careRead := true, established := conns[c].established + 1);
      conns := conns[c := ConnectionCallback(k)];
    }

    /** The user's callback looks at is_connected(). */
    function ConnectionCallback(k: Conn): Conn {
      if k.state.Connected? then k.(ups := k.ups + 1) else k.(downs := k.downs + 1)
    }

    method NewConnection(io: nat)
      requires Inv(State()) && Enabled(State(), Accept(io))
      modifies this`connId, this`conns, this`connections, this`loops
      ensures State() == Next(old(State()), Accept(io)) && Inv(State())
    {
      AddedIsInserted(State(), io);
      AcceptHands(State(), io);
      connId := connId + 1;
      var c, connName := |conns|, name + T.Text(connId);
      conns := conns + [Conn(io, connName, S.Connecting, false, true, 0, 0, 0, 0, 0, 0, 0)];
      if connName !in connections {
        connections := connections[connName := c];
      }
      assert State() == Added(old(State()), io);
      if io == BASE {
        SetConnectionEstablished(c);
      } else {
        Put(State(), io, Establish(c), false);
        QueueInLoop(io, Establish(c), false);
      }
    }

    /** RemoveConnectionInLoop, on the server loop. */
    method RemoveConnectionInLoop(c: nat)
      requires c < |conns| && InvHolding(State(), RemoveInLoop(c)) && D.OwnerAtWork(loops[BASE].phase)
      modifies this`conns, this`connections, this`loops
      ensures State() == Lifecycles.RemoveConnectionInLoop(old(State()), c) && Inv(State())
    {
      RemoveKeepsInv(State(), c);
      RemoveIsSafe(State(), c);
      var connName := conns[c].name;
      var ret := if connName in connections then 1 else 0;
      connections := connections - {connName};
      assert ret == 1;
      conns := conns[c := conns[c].(erases := conns[c].erases + 1)];
      QueueInLoop(conns[c].io, Destroy(c), conns[c].io == BASE);
    }

    /** RemoveConnection: RunInLoop on the server loop, inline when that is the caller's own. */
    method RemoveConnection(c: nat)
      requires c < |conns| && InvHolding(State(), RemoveInLoop(c)) && loops[conns[c].io].phase.Dispatching?
      modifies this`conns, this`connections, this`loops
      ensures Inv(State())
      ensures State() == if old(conns)[c].io == BASE then Lifecycles.RemoveConnectionInLoop(old(State()), c)
                         else Queue(old(State()), BASE, RemoveInLoop(c), false)
    {
      if conns[c].io == BASE {
        RemoveConnectionInLoop(c);
      } else {
        Put(State(), BASE, RemoveInLoop(c), false);
        QueueInLoop(BASE, RemoveInLoop(c), false);
      }
    }

    method HandleClose(c: nat)
      requires c < |conns| && Inv(State()) && conns[c].careRead && Unread(State(), c)
      requires loops[conns[c].io].phase.Dispatching?
      modifies this`conns, this`connections, this`loops
      ensures State() == Lifecycles.HandleClose(old(State()), c) && Inv(State())
    {
      hide ConnOk, LoopOk, NamesOk;
      CloseHands(State(), c);
      assert conns[c].state.Connected? || conns[c].state.Disconnecting?;
      var k := conns[c].(careRead := false, closes := conns[c].closes + 1);
      conns := conns[c := k];
      assert State() == SetConn(old(State()), c, k);
      RemoveConnection(c);
    }

    method SetConnectionDestroyed(c: nat)
      requires c < |conns| && InvHolding(State(), Destroy(c)) && loops[conns[c].io].phase.Executing?
      modifies this`conns
      ensures State() == Lifecycles.SetConnectionDestroyed(old(State()), c) && Inv(State())
    {
      DestroyKeepsInv(State(), c);
      DestroyIsSafe(State(), c);
      assert conns[c].state.Connected? || conns[c].state.Disconnecting?;
      assert handling[conns[c].io].None?;
      var k := conns[c].(state := S.Disconnected, careRead := false, registered := false,
                         destroys := conns[c].destroys + 1);
      conns := conns[c := ConnectionCallback(k)];
    }

    /** One turn of the loop in ExecutePendingFuncs. */
    method RunFunctor(i: nat)
      requires Inv(State()) && Enabled(State(), Step.RunFunctor(i))
      modifies this`conns, this`connections, this`loops
      ensures State() == Next(old(State()), Step.RunFunctor(i)) && Inv(State())
    {
      Take(State(), i);
      var f := loops[i].batch[0];
      loops := loops[i := loops[i].RunNext()];
      match f {
        case Establish(c) => SetConnectionEstablished(c);
        case RemoveInLoop(c) => RemoveConnectionInLoop(c);
        case Destroy(c) => SetConnectionDestroyed(c);
        case UserFn =>
      }
    }
  }
}
