/** app/realtime/connection_manager.py, cut at its awaits: the lock is never held across one,
    so taking the snapshot of the connections and filling their queues is one step, and each
    disconnect of a stale client another. The i-th broadcast is the message i. */
module ConnectionManager {
  import opened Collections

  type Socket = nat

  /** One client: its queue, the message its sender has taken but not finished sending, what
      has been sent, the number of broadcasts before it registered, and whether some broadcast
      has found its queue full. */
  datatype Client = Client(
    queue: seq<nat>, sending: Option<nat>, sent: seq<nat>, since: nat, alive: bool, stale: bool)

  /** All clients ever seen; `registered` is the connections dictionary in insertion order. */
  datatype Room = Room(clients: map<Socket, Client>, registered: seq<Socket>, broadcasts: nat)

  datatype Step =
    | Connect(ws: Socket)
    | Broadcast
    | Disconnect(ws: Socket)
    | Take(ws: Socket)      // the sender gets a message from the queue
    | Deliver(ws: Socket)   // send_json returns
    | Fail(ws: Socket)      // send_json fails or times out
    | Cancelled(ws: Socket) // the cancellation reaches the sender

  function Path(c: Client): seq<nat> {
    c.sent + (if c.sending.Some? then [c.sending.value] else []) + c.queue
  }

  predicate IsFull(c: Client, size: int) {
    size > 0 && |c.queue| >= size
  }

  function Offered(c: Client, message: nat, size: int): Client {
    if IsFull(c, size) then c.(stale := true) else c.(queue := c.queue + [message])
  }

  /** The effect of one broadcast on the clients in `group`. */
  function OfferTo(clients: map<Socket, Client>, group: seq<Socket>, message: nat, size: int): map<Socket, Client> {
    map ws | ws in clients :: if ws in group then Offered(clients[ws], message, size) else clients[ws]
  }

  function Unregistered(r: Room, ws: Socket): Room {
    r.(registered := RemoveFirst(r.registered, ws))
  }

  predicate Enabled(r: Room, s: Step) {
    match s
    case Connect(ws) => ws !in r.clients
    case Broadcast => true
    case Disconnect(_) => true
    case Take(ws) => ws in r.clients && r.clients[ws].alive && r.clients[ws].sending.None? && r.clients[ws].queue != []
    case Deliver(ws) => ws in r.clients && r.clients[ws].alive && r.clients[ws].sending.Some?
    case Fail(ws) => ws in r.clients && r.clients[ws].alive && r.clients[ws].sending.Some?
    case Cancelled(ws) => ws in r.clients && ws !in r.registered
  }

  function Next(r: Room, s: Step, size: int): Room
    requires Enabled(r, s)
  {
    match s
    case Connect(ws) =>
      Room(r.clients[ws := Client([], None, [], r.broadcasts, true, false)], r.registered + [ws], r.broadcasts)
    case Broadcast => Room(OfferTo(r.clients, r.registered, r.broadcasts, size), r.registered, r.broadcasts + 1)
    case Disconnect(ws) => Unregistered(r, ws)
    case Take(ws) =>
      var c := r.clients[ws];
      r.(clients := r.clients[ws := c.(sending := Some(c.queue[0]), queue := c.queue[1..])])
    case Deliver(ws) =>
      var c := r.clients[ws];
      r.(clients := r.clients[ws := c.(sending := None, sent := c.sent + [c.sending.value])])
    case Fail(ws) => Unregistered(r.(clients := r.clients[ws := r.clients[ws].(alive := false)]), ws)
    case Cancelled(ws) => r.(clients := r.clients[ws := r.clients[ws].(alive := false)])
  }

  // ----- the guarantee -----

  ghost predicate Increasing(s: seq<nat>) {
    forall i, j :: 0 <= i < j < |s| ==> s[i] < s[j]
  }

  ghost predicate CountsUpFrom(s: seq<nat>, first: nat) {
    forall i :: 0 <= i < |s| ==> s[i] == first + i
  }

  /** A client gets an increasing selection of the broadcasts since it registered; all of them,
      up to the present while it is registered, unless some broadcast found its queue full. */
  ghost predicate InOrder(c: Client, registered: bool, broadcasts: nat, size: int) {
    var p := Path(c);
    && c.since <= broadcasts
    && (size > 0 ==> |c.queue| <= size)
    && Increasing(p)
    && (forall i :: 0 <= i < |p| ==> c.since <= p[i] < broadcasts)
    && (!c.stale ==> CountsUpFrom(p, c.since))
    && (!c.stale && registered ==> c.since + |p| == broadcasts)
    && (registered ==> c.alive)
  }

  ghost predicate Fair(r: Room, size: int) {
    && (forall ws :: ws in r.clients ==> InOrder(r.clients[ws], ws in r.registered, r.broadcasts, size))
    && (forall ws :: ws in r.registered ==> ws in r.clients)
    && forall i, j :: 0 <= i < j < |r.registered| ==> r.registered[i] != r.registered[j]
  }

  lemma {:induction false} RemovedFromDistinct<T>(s: seq<T>, x: T)
    requires forall i, j :: 0 <= i < j < |s| ==> s[i] != s[j]
    ensures x !in RemoveFirst(s, x)
    ensures forall y :: y in RemoveFirst(s, x) <==> y in s && y != x
    ensures var r := RemoveFirst(s, x); forall i, j :: 0 <= i < j < |r| ==> r[i] != r[j]
  {
    if s != [] && s[0] != x {
      RemovedFromDistinct(s[1..], x);
      assert forall y :: y in s <==> y == s[0] || y in s[1..];
      assert s[0] !in s[1..];
    }
  }

  /** The i-th connection's turn in a broadcast. */
  lemma OfferNext(clients: map<Socket, Client>, group: seq<Socket>, i: nat, message: nat, size: int)
    requires i < |group| && group[i] in clients
    requires forall a, b :: 0 <= a < b < |group| ==> group[a] != group[b]
    ensures
      var done := OfferTo(clients, group[..i], message, size);
      && done[group[i]] == clients[group[i]]
      && OfferTo(clients, group[..i + 1], message, size) == done[group[i] := Offered(clients[group[i]], message, size)]
    ensures forall ws :: ws in group[..i + 1] <==> ws in group[..i] || ws == group[i]
  {
    assert group[..i + 1] == group[..i] + [group[i]];
  }

  /** What a broadcast does to each client: the registered ones with room get the message, those
      with a full queue are marked, and nobody else is touched. */
  lemma BroadcastReaches(r: Room, size: int, ws: Socket)
    requires Fair(r, size) && ws in r.clients
    ensures
      var c, c' := r.clients[ws], Next(r, Broadcast, size).clients[ws];
      && (ws !in r.registered ==> c' == c)
      && (ws in r.registered && (size <= 0 || |c.queue| < size) ==> c' == c.(queue := c.queue + [r.broadcasts]))
      && (ws in r.registered && size > 0 && |c.queue| == size ==> c' == c.(stale := true))
  {
    assert InOrder(r.clients[ws], ws in r.registered, r.broadcasts, size);
  }

  lemma OfferInOrder(c: Client, registered: bool, broadcasts: nat, size: int)
    requires InOrder(c, registered, broadcasts, size)
    ensures InOrder(if registered then Offered(c, broadcasts, size) else c, registered, broadcasts + 1, size)
  {
    if registered && !IsFull(c, size) {
      assert Path(c.(queue := c.queue + [broadcasts])) == Path(c) + [broadcasts];
    }
  }

  lemma BroadcastFair(r: Room, size: int)
    requires Fair(r, size)
    ensures Fair(Next(r, Broadcast, size), size)
  {
    forall ws | ws in r.clients
      ensures InOrder(Next(r, Broadcast, size).clients[ws], ws in r.registered, r.broadcasts + 1, size)
    {
      OfferInOrder(r.clients[ws], ws in r.registered, r.broadcasts, size);
    }
  }

  lemma DisconnectFair(r: Room, ws: Socket, size: int)
    requires Fair(r, size)
    ensures Fair(Unregistered(r, ws), size)
    ensures ws !in Unregistered(r, ws).registered
  {
    RemovedFromDistinct(r.registered, ws);
  }

  lemma SenderFair(r: Room, s: Step, size: int)
    requires Enabled(r, s) && Fair(r, size)
    requires s.Take? || s.Deliver?
    ensures Fair(Next(r, s, size), size)
  {
    var c, c' := r.clients[s.ws], Next(r, s, size).clients[s.ws];
    if s.Take? {
      assert c.queue == [c.queue[0]] + c.queue[1..];
    }
    assert Path(c') == Path(c);
  }

  lemma StepFair(r: Room, s: Step, size: int)
    requires Enabled(r, s) && Fair(r, size)
    ensures Fair(Next(r, s, size), size)
  {
    match s
    case Connect(ws) =>
    case Broadcast => BroadcastFair(r, size);
    case Disconnect(ws) => DisconnectFair(r, ws, size);
    case Take(_) => SenderFair(r, s, size);
    case Deliver(_) => SenderFair(r, s, size);
    case Fail(ws) => FailFair(r, ws, size);
    case Cancelled(ws) => assert Path(r.clients[ws].(alive := false)) == Path(r.clients[ws]);
  }

  lemma FailFair(r: Room, ws: Socket, size: int)
    requires ws in r.clients && Fair(r, size)
    ensures Fair(Unregistered(r.(clients := r.clients[ws := r.clients[ws].(alive := false)]), ws), size)
  {
    RemovedFromDistinct(r.registered, ws);
    assert Path(r.clients[ws].(alive := false)) == Path(r.clients[ws]);
  }

  predicate IsRun(r: Room, run: seq<Step>, size: int)
    decreases |run|
  {
    run == [] || (Enabled(r, run[0]) && IsRun(Next(r, run[0], size), run[1..], size))
  }

  function After(r: Room, run: seq<Step>, size: int): Room
    requires IsRun(r, run, size)
    decreases |run|
  {
    if run == [] then r else After(Next(r, run[0], size), run[1..], size)
  }

  const EMPTY: Room := Room(map[], [], 0)

  lemma {:induction false} FairRun(r: Room, run: seq<Step>, size: int)
    requires IsRun(r, run, size) && Fair(r, size)
    ensures Fair(After(r, run, size), size)
    decreases |run|
  {
    if run != [] {
      StepFair(r, run[0], size);
      FairRun(Next(r, run[0], size), run[1..], size);
    }
  }

  /** Under every interleaving of broadcasters, senders and disconnects, what a client has been
      sent, is being sent and has queued is an increasing selection of the broadcasts since it
      registered, in a queue within bounds; without a gap unless some broadcast has found the
      queue full, and then up to the present while it is registered. */
  lemma FanOutKeepsOrder(run: seq<Step>, size: int, ws: Socket)
    requires IsRun(EMPTY, run, size) && ws in After(EMPTY, run, size).clients
    ensures
      var r := After(EMPTY, run, size);
      var c := r.clients[ws];
      && (size > 0 ==> |c.queue| <= size)
      && Increasing(Path(c))
      && (forall m :: m in Path(c) ==> c.since <= m < r.broadcasts)
      && (!c.stale ==> CountsUpFrom(Path(c), c.since))
      && (!c.stale && ws in r.registered ==> forall m: nat :: m in Path(c) <==> c.since <= m < r.broadcasts)
  {
    FairRun(EMPTY, run, size);
    var r := After(EMPTY, run, size);
    var p := Path(r.clients[ws]);
    assert InOrder(r.clients[ws], ws in r.registered, r.broadcasts, size);
    if !r.clients[ws].stale && ws in r.registered {
      forall m: nat | r.clients[ws].since <= m < r.broadcasts
        ensures m in p
      {
        assert p[m - r.clients[ws].since] == m;
      }
    }
  }

  // ----- the code -----

  class ConnectionManager {
    const queueSize: int
    var clients: map<Socket, Client>
    var registered: seq<Socket>
    var broadcasts: nat

    ghost function View(): Room
      reads this
    {
      Room(clients, registered, broadcasts)
    }

    ghost predicate Valid()
      reads this
    {
      Fair(View(), queueSize)
    }

    constructor (queueSize: int)
      ensures Valid() && View() == EMPTY && this.queueSize == queueSize
    {
      this.queueSize := queueSize;
      clients, registered, broadcasts := map[], [], 0;
    }

    method Connect(ws: Socket)
      requires Valid() && ws !in clients
      modifies this
      ensures Valid() && View() == Next(old(View()), Step.Connect(ws), queueSize)
      ensures registered == old(registered) + [ws] && ws in clients && Path(clients[ws]) == []
      ensures clients[ws].since == broadcasts && !clients[ws].stale
    {
      StepFair(View(), Step.Connect(ws), queueSize);
      clients := clients[ws := Client([], None, [], broadcasts, true, false)];
      registered := registered + [ws];
    }

    method Disconnect(ws: Socket)
      requires Valid()
      modifies this
      ensures Valid() && View() == Next(old(View()), Step.Disconnect(ws), queueSize)
      ensures forall other :: other in registered <==> other in old(registered) && other != ws
    {
      DisconnectFair(View(), ws, queueSize);
      RemovedFromDistinct(registered, ws);
      registered := RemoveFirst(registered, ws);
    }

    /** The part of broadcast before its first await: returns the stale clients. */
    method Fill() returns (stale: seq<Socket>)
      requires Valid()
      modifies this
      ensures Valid() && View() == Next(old(View()), Step.Broadcast, queueSize)
      ensures forall ws :: ws in stale <==>
                ws in old(registered) && queueSize > 0 && |old(clients)[ws].queue| == queueSize
      ensures registered == old(registered) && clients.Keys == old(clients).Keys
      ensures forall ws :: ws in clients ==>
                var c := old(clients)[ws];
                clients[ws] == if ws in stale then c.(stale := true)
                               else if ws in old(registered) then c.(queue := c.queue + [old(broadcasts)])
                               else c
    {
      BroadcastFair(View(), queueSize);
      stale := PutAll();
    }

    method PutAll() returns (stale: seq<Socket>)
      requires forall ws :: ws in registered ==> ws in clients
      requires forall i, j :: 0 <= i < j < |registered| ==> registered[i] != registered[j]
      modifies this
      ensures View() == Next(old(View()), Step.Broadcast, queueSize)
      ensures forall ws :: ws in stale <==> ws in old(registered) && IsFull(old(clients)[ws], queueSize)
    {
      var items := registered;
      ghost var before := clients;
      stale := [];
      for i := 0 to |items|
        invariant clients == OfferTo(before, items[..i], broadcasts, queueSize)
        invariant registered == items && broadcasts == old(broadcasts)
        invariant forall ws :: ws in stale <==> ws in items[..i] && IsFull(before[ws], queueSize)
      {
        var ws := items[i];
        OfferNext(before, items, i, broadcasts, queueSize);
        if IsFull(clients[ws], queueSize) {
          stale := stale + [ws];
          clients := clients[ws := clients[ws].(stale := true)];
        } else {
          clients := clients[ws := clients[ws].(queue := clients[ws].queue + [broadcasts])];
        }
      }
      assert items[..|items|] == items;
      broadcasts := broadcasts + 1;
    }

    /** One round of _sender when nothing else runs at its awaits. */
    method SendOne(ws: Socket, fails: bool)
      requires Valid() && Enabled(View(), Step.Take(ws))
      modifies this
      ensures Valid()
      ensures
        var taken := Next(old(View()), Step.Take(ws), queueSize);
        View() == Next(taken, if fails then Step.Fail(ws) else Step.Deliver(ws), queueSize)
    {
      StepFair(View(), Step.Take(ws), queueSize);
      StepFair(Next(View(), Step.Take(ws), queueSize), if fails then Step.Fail(ws) else Step.Deliver(ws), queueSize);
      var message := clients[ws].queue[0];
      clients := clients[ws := clients[ws].(sending := Some(message), queue := clients[ws].queue[1..])];
      if fails {
        clients := clients[ws := clients[ws].(alive := false)];
        registered := RemoveFirst(registered, ws);
      } else {
        clients := clients[ws := clients[ws].(sending := None, sent := clients[ws].sent + [message])];
      }
    }

    /** broadcast when nothing else runs at its awaits: the clients that could not take the
        message are disconnected, and only those. */
    method Broadcast()
      requires Valid()
      modifies this
      ensures Valid()
      ensures clients == Next(old(View()), Step.Broadcast, queueSize).clients && broadcasts == old(broadcasts) + 1
      ensures forall ws :: ws in registered <==>
                ws in old(registered) && (queueSize <= 0 || |old(clients)[ws].queue| < queueSize)
    {
      var stale := Fill();
      ghost var filled := View();
      for i := 0 to |stale|
        invariant Valid() && clients == filled.clients && broadcasts == filled.broadcasts
        invariant forall ws :: ws in registered <==> ws in filled.registered && ws !in stale[..i]
      {
        RemovedFromDistinct(registered, stale[i]);
        Disconnect(stale[i]);
      }
    }
  }
}
