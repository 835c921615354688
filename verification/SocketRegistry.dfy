/** Which connection is found under which UUID, and how many connections there are. */
module SocketRegistry {
  import opened GoTypes

  /** A connection: which one it is, and the UUID it goes by. The client may choose the UUID, so
      two connections can share one. */
  datatype Socket = Socket(id: nat, uuid: string)

  datatype Op = Register(socket: Socket) | Deregister(socket: Socket)

  datatype State = State(sockets: map<string, Socket>, counter: int)

  const EMPTY := State(map[], 0)

  function Step(s: State, op: Op): (r: State) {
    match op
    case Register(socket) => State(s.sockets[socket.uuid := socket], s.counter + 1)
    case Deregister(socket) => State(s.sockets - {socket.uuid}, if s.counter > 0 then s.counter - 1 else s.counter)
  }

  /** The registry after a sequence of calls. */
  function After(ops: seq<Op>): (r: State) {
    if ops == [] then EMPTY else Step(After(ops[..|ops| - 1]), ops[|ops| - 1])
  }

  function Find(s: State, uuid: string): (r: Option<Socket>) {
    if uuid in s.sockets then Some(s.sockets[uuid]) else None
  }

  class Registry {
    var sockets: map<string, Socket>
    var counter: int

    function Contents(): State
      reads this
    {
      State(sockets, counter)
    }

    constructor ()
      ensures Contents() == EMPTY
    {
      sockets, counter := map[], 0;
    }

    method RegisterSocket(socket: Socket)
      modifies this
      ensures Contents() == Step(old(Contents()), Register(socket))
    {
      sockets := sockets[socket.uuid := socket];
      counter := counter + 1;
    }

    method DeregisterSocket(socket: Socket)
      modifies this
      ensures Contents() == Step(old(Contents()), Deregister(socket))
    {
      sockets := sockets - {socket.uuid};
      if counter > 0 {
        counter := counter - 1;
      }
    }

    method GetSocket(uuid: string) returns (r: Option<Socket>)
      ensures r == Find(Contents(), uuid)
    {
      if uuid in sockets {
        return Some(sockets[uuid]);
      }
      r := None;
    }

    method NumConnectedSockets() returns (n: int)
      ensures n == Contents().counter
    {
      n := counter;
    }
  }

  // ---------------------------------------------------------------- lifecycles

  /** The sockets that are registered and not yet deregistered. */
  ghost function Live(ops: seq<Op>): (r: set<Socket>) {
    if ops == [] then {}
    else
      var before := Live(ops[..|ops| - 1]);
      match ops[|ops| - 1]
      case Register(socket) => before + {socket}
      case Deregister(socket) => before - {socket}
  }

  /** Every connection registers once, and deregisters once after that. */
  ghost predicate Lifecycle(ops: seq<Op>) {
    ops != [] ==>
      && Lifecycle(ops[..|ops| - 1])
      && match ops[|ops| - 1]
         case Register(socket) => forall i :: 0 <= i < |ops| - 1 ==> ops[i].socket.id != socket.id
         case Deregister(socket) => socket in Live(ops[..|ops| - 1])
  }

  /** The last call that concerned a UUID. */
  ghost function LastOn(ops: seq<Op>, uuid: string): (r: Option<Op>)
    ensures r.None? <==> forall i :: 0 <= i < |ops| ==> ops[i].socket.uuid != uuid
    ensures r.Some? ==> r.value in ops && r.value.socket.uuid == uuid
  {
    if ops == [] then None
    else if ops[|ops| - 1].socket.uuid == uuid then Some(ops[|ops| - 1])
    else LastOn(ops[..|ops| - 1], uuid)
  }

  /** One more call. */
  lemma CallAdded(ops: seq<Op>, op: Op)
    ensures Live(ops + [op]) == if op.Register? then Live(ops) + {op.socket} else Live(ops) - {op.socket}
    ensures Lifecycle(ops + [op]) <==>
            && Lifecycle(ops)
            && if op.Register? then forall i :: 0 <= i < |ops| ==> ops[i].socket.id != op.socket.id
               else op.socket in Live(ops)
  {
    var more := ops + [op];
    assert more[..|ops|] == ops;
    assert forall i :: 0 <= i < |ops| ==> more[i] == ops[i];
  }

  lemma LastAdded(ops: seq<Op>, op: Op, uuid: string)
    ensures LastOn(ops + [op], uuid) == if op.socket.uuid == uuid then Some(op) else LastOn(ops, uuid)
  {
    assert (ops + [op])[..|ops|] == ops;
  }

  /** Whatever the calls and whoever makes them: a UUID finds a socket exactly when the last call
      about that UUID registered it. */
  lemma {:induction false} FindsLastRegistered(ops: seq<Op>, uuid: string, socket: Socket)
    ensures Find(After(ops), uuid) == Some(socket) <==> (LastOn(ops, uuid) == Some(Register(socket)) && socket.uuid == uuid)
  {
    if ops != [] {
      FindsLastRegistered(ops[..|ops| - 1], uuid, socket);
    }
  }

  lemma {:induction false} LiveWasRegistered(ops: seq<Op>, socket: Socket)
    requires socket in Live(ops)
    ensures Register(socket) in ops
  {
    if ops[|ops| - 1] != Register(socket) {
      LiveWasRegistered(ops[..|ops| - 1], socket);
    }
  }

  /** The counter is the number of live sockets, so a deregistration never meets a counter of zero. */
  lemma {:induction false} CounterIsLive(ops: seq<Op>)
    requires Lifecycle(ops)
    ensures After(ops).counter == |Live(ops)|
    ensures ops != [] && ops[|ops| - 1].Deregister? ==> After(ops[..|ops| - 1]).counter > 0
  {
    if ops != [] {
      var before, op := ops[..|ops| - 1], ops[|ops| - 1];
      CounterIsLive(before);
      if op.Register? {
        if op.socket in Live(before) {
          LiveWasRegistered(before, op.socket);
          assert false;
        }
      } else {
        assert Live(before) == Live(ops) + {op.socket};
      }
    }
  }

  /** How many more registrations than deregistrations. */
  function Net(ops: seq<Op>): (n: int) {
    if ops == [] then 0 else Net(ops[..|ops| - 1]) + if ops[|ops| - 1].Register? then 1 else -1
  }

  lemma NetOfLast(ops: seq<Op>, i: nat)
    requires i < |ops|
    ensures Net(ops[i..]) == Net(ops[..|ops| - 1][i..]) + if ops[|ops| - 1].Register? then 1 else -1
  {
    assert ops[i..][..|ops| - 1 - i] == ops[..|ops| - 1][i..];
  }

  /** Whatever the calls, even deregistrations of sockets nobody registered: the counter is the largest
      surplus of registrations in any run of calls up to now, and so never negative. */
  lemma {:induction false} CounterExactly(ops: seq<Op>)
    ensures forall i :: 0 <= i <= |ops| ==> Net(ops[i..]) <= After(ops).counter
    ensures exists i :: 0 <= i <= |ops| && Net(ops[i..]) == After(ops).counter
    ensures After(ops).counter >= 0
  {
    assert ops[|ops|..] == [];
    if ops == [] {
      assert Net(ops[0..]) == After(ops).counter;
    } else {
      var before := ops[..|ops| - 1];
      CounterExactly(before);
      forall i | 0 <= i < |ops|
        ensures Net(ops[i..]) == Net(before[i..]) + if ops[|ops| - 1].Register? then 1 else -1
      {
        NetOfLast(ops, i);
      }
      var i :| 0 <= i <= |before| && Net(before[i..]) == After(before).counter;
      assert Net(ops[i..]) == After(ops).counter || Net(ops[|ops|..]) == After(ops).counter;
    }
  }

  /** What a UUID finds is a live socket of that UUID. */
  lemma {:induction false} FoundIsLive(ops: seq<Op>, uuid: string)
    requires Lifecycle(ops) && uuid in After(ops).sockets
    ensures After(ops).sockets[uuid] in Live(ops) && After(ops).sockets[uuid].uuid == uuid
  {
    var before, op := ops[..|ops| - 1], ops[|ops| - 1];
    if op.socket.uuid != uuid {
      FoundIsLive(before, uuid);
    }
  }

  /** The sockets that are found under their own UUID. */
  ghost function Found(ops: seq<Op>): (r: set<Socket>) {
    set socket | socket in Live(ops) && Find(After(ops), socket.uuid) == Some(socket)
  }

  ghost function KeysOf(sockets: set<Socket>): (r: set<string>) {
    set socket | socket in sockets :: socket.uuid
  }

  lemma {:induction false} DistinctKeys(sockets: set<Socket>)
    requires forall a, b :: a in sockets && b in sockets && a.uuid == b.uuid ==> a == b
    ensures |KeysOf(sockets)| == |sockets|
  {
    if sockets != {} {
      var a :| a in sockets;
      DistinctKeys(sockets - {a});
      assert KeysOf(sockets) == KeysOf(sockets - {a}) + {a.uuid};
    }
  }

  /** The map has one entry for each live socket that is found. */
  lemma SizeOfFound(ops: seq<Op>)
    requires Lifecycle(ops)
    ensures |After(ops).sockets| == |Found(ops)|
  {
    hide After, Live, Lifecycle;
    var s := After(ops);
    forall uuid | uuid in s.sockets
      ensures s.sockets[uuid] in Found(ops) && s.sockets[uuid].uuid == uuid
    {
      FoundIsLive(ops, uuid);
    }
    assert s.sockets.Keys == KeysOf(Found(ops)) by {
      forall uuid | uuid in s.sockets ensures uuid in KeysOf(Found(ops)) {
        assert s.sockets[uuid] in Found(ops);
      }
    }
    DistinctKeys(Found(ops));
    assert |s.sockets| == |s.sockets.Keys|;
  }

  /** The map is never larger than the counter, and as large exactly when, for every live socket,
      its registration is the last call about its UUID. */
  lemma SizeIsFound(ops: seq<Op>)
    requires Lifecycle(ops)
    ensures |After(ops).sockets| <= After(ops).counter
    ensures |After(ops).sockets| == After(ops).counter <==>
            forall socket :: socket in Live(ops) ==> LastOn(ops, socket.uuid) == Some(Register(socket))
  {
    hide After, Live, Lifecycle, LastOn;
    SizeOfFound(ops);
    CounterIsLive(ops);
    SubsetSize(Found(ops), Live(ops));
    forall socket: Socket
      ensures Find(After(ops), socket.uuid) == Some(socket) <==> LastOn(ops, socket.uuid) == Some(Register(socket))
    {
      FindsLastRegistered(ops, socket.uuid, socket);
    }
  }

  lemma {:induction false} SubsetSize(a: set<Socket>, b: set<Socket>)
    requires a <= b
    ensures |a| <= |b| && (|a| == |b| <==> a == b)
  {
    assert b == a + (b - a);
  }

  /** No socket registers under the UUID of a socket that is still live. */
  ghost predicate NeverShared(ops: seq<Op>) {
    ops != [] ==>
      && NeverShared(ops[..|ops| - 1])
      && (ops[|ops| - 1].Register? ==> forall other :: other in Live(ops[..|ops| - 1]) ==> other.uuid != ops[|ops| - 1].socket.uuid)
  }

  /** If UUIDs are never shared by sockets that are live at the same time, every live socket is
      found and the map is as large as the counter. */
  lemma {:induction false} UnsharedAreFound(ops: seq<Op>)
    requires Lifecycle(ops) && NeverShared(ops)
    ensures forall socket :: socket in Live(ops) ==> LastOn(ops, socket.uuid) == Some(Register(socket))
    ensures forall a, b :: a in Live(ops) && b in Live(ops) && a.uuid == b.uuid ==> a == b
    ensures |After(ops).sockets| == After(ops).counter
  {
    if ops != [] {
      UnsharedAreFound(ops[..|ops| - 1]);
    }
    SizeIsFound(ops);
  }

  /** It is not enough that the UUIDs are distinct now: when one of two sockets that shared a UUID
      leaves, the other is live but no longer found. */
  lemma DistinctNowIsNotEnough()
    ensures var a, b := Socket(0, "u"), Socket(1, "u");
            var ops := [Register(a), Register(b), Deregister(a)];
            Lifecycle(ops) && Live(ops) == {b} && After(ops).counter == 1 && After(ops).sockets == map[]
  {
    var a, b := Socket(0, "u"), Socket(1, "u");
    var ops := [Register(a), Register(b), Deregister(a)];
    var none: seq<Op>, one, two := [], [Register(a)], [Register(a), Register(b)];
    assert ops[..2] == two && two[..1] == one && one[..0] == none;
    assert Lifecycle(none) && Live(none) == {} && After(none) == EMPTY;
    assert Lifecycle(one) && Live(one) == {a} && After(one) == State(map["u" := a], 1);
    assert Lifecycle(two) && Live(two) == {a, b} && After(two) == State(map["u" := b], 2);
  }
}
