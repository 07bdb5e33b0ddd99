/** The flow table of the UDP-over-TCP listener (accept_udp.go on the server): one goroutine
    reads datagrams and owns all insertions, one handler per flow relays and finally closes the
    flow's payload channel.  Sending on a closed channel and closing it twice panic in Go; the
    model records a panic, and the results say that none is reachable. */
module FlowTable {
  import opened Options
  import Clock = CongestionClock

  type Key = string // the client address
  type Packet = seq<char>

  const PAYLOAD_SIZE := 100_000

  datatype Stage =
    | Stored                         // in the table, not offered to udpChan yet
    | Orphaned                       // udpChan was full: nobody will ever handle the flow
    | Queued                         // in udpChan
    | Pairing                        // taken by handleUDPLoop, waiting for a tunnel
    | Relaying(up: bool, down: bool) // udpToTCP and tcpToUDP still running?
    | Closed

  /** A payload channel.  received logs what the listener put into it, taken what udpToTCP received
      from it, written what it then wrote to the tunnel, and lost the packet whose write failed. */
  datatype Traffic = Traffic(
    payload: seq<Packet>,
    received: seq<Packet>,
    taken: seq<Packet>,
    written: seq<Packet>,
    lost: seq<Packet>)

  datatype Flow = Flow(key: Key, traffic: Traffic, closed: bool, congested: bool, stage: Stage)

  function NewFlow(key: Key): Flow { Flow(key, Traffic([], [], [], [], []), false, false, Stored) }

  function Enqueued(x: Flow, packet: Packet): Flow {
    x.(traffic := x.traffic.(payload := x.traffic.payload + [packet], received := x.traffic.received + [packet]))
  }

  /** Two bytes hold its length; an empty packet is written as its length alone. */
  predicate Sendable(packet: Packet) { |packet| <= 65535 }

  function SendableOf(ps: seq<Packet>): seq<Packet>
    decreases |ps|
  {
    if ps == [] then []
    else
      var last := ps[|ps| - 1];
      SendableOf(ps[..|ps| - 1]) + (if Sendable(last) then [last] else [])
  }

  /** One turn of udpToTCP for a relaying flow; a failed write has taken its packet, and ends the
      loop. */
  function Forwarded(x: Flow, ok: bool): Flow
    requires x.stage.Relaying? && x.traffic.payload != []
  {
    var q := x.traffic;
    var p := q.payload[0];
    var q' := q.(payload := q.payload[1..], taken := q.taken + [p]);
    if !Sendable(p) then x.(traffic := q')
    else if ok then x.(traffic := q'.(written := q.written + [p]))
    else x.(traffic := q'.(lost := q.lost + [p]), stage := x.stage.(up := false))
  }

  /** The listener goroutine between two datagrams, between its two critical sections, and
      between the second one and the offer to udpChan. */
  datatype Listener = Idle | Creating(key: Key, packet: Packet) | Offering(flow: nat, packet: Packet)

  /** loop: the flow for which handleUDPLoop is looking for a tunnel, if any. */
  datatype State = State(
    channelSize: nat,
    flows: seq<Flow>,
    table: map<Key, nat>,
    udpChan: seq<nat>,
    loop: Option<nat>,
    listener: Listener,
    panicked: bool)

  datatype Event =
    | Receive(key: Key, packet: Packet)
    | Store
    | Offer
    | Dequeue
    | Pair(flow: nat, ok: bool)
    | Forward(flow: nat, ok: bool)
    | Header(flow: nat, stamp: nat, now: nat, rtt: nat)
    | UpEnd(flow: nat)
    | DownEnd(flow: nat)
    | Finish(flow: nat)

  function Init(channelSize: nat): State { State(channelSize, [], map[], [], None, Idle, false) }

  function Put(s: State, f: nat, x: Flow): State
    requires f < |s.flows|
  {
    s.(flows := s.flows[f := x])
  }

  /** The listener goroutine. */
  function ListenerNext(s: State, e: Event): State {
    match e
    case Receive(key, packet) =>
      // first critical section: look up, and send without blocking if the flow is good
      if s.listener != Idle then s
      else if key in s.table && s.table[key] < |s.flows| && !s.flows[s.table[key]].congested then
        var x := s.flows[s.table[key]];
        if x.closed then s.(panicked := true)
        else if |x.traffic.payload| < PAYLOAD_SIZE then Put(s, s.table[key], Enqueued(x, packet))
        else s
      else s.(listener := Creating(key, packet))
    case Store =>
      // second critical section
      if s.listener.Creating? then
        s.(flows := s.flows + [NewFlow(s.listener.key)],
           table := s.table[s.listener.key := |s.flows|],
           listener := Offering(|s.flows|, s.listener.packet))
      else s
    case Offer =>
      if s.listener.Offering? && s.listener.flow < |s.flows| then
        var f := s.listener.flow;
        var x := s.flows[f];
        if |s.udpChan| < s.channelSize then
          // the first payload follows at once; see the assumptions in README.md
          Put(s, f, (if x.closed then x else Enqueued(x, s.listener.packet)).(stage := Queued))
            .(udpChan := s.udpChan + [f], listener := Idle, panicked := s.panicked || x.closed)
        else Put(s, f, x.(stage := Orphaned)).(listener := Idle)
      else s
    case _ => s
  }

  /** handleUDPLoop and the goroutines of UDPConnectionHandler for flow f. */
  function HandlerNext(s: State, f: nat, e: Event): State
    requires f < |s.flows|
  {
    var x := s.flows[f];
    match e
    case Pair(_, ok) =>
      if x.stage.Pairing? && ok then Put(s, f, x.(stage := Relaying(true, true))).(loop := None) else s
    case Forward(_, ok) =>
      if x.stage.Relaying? && x.stage.up && x.traffic.payload != [] then Put(s, f, Forwarded(x, ok))
      else s
    case Header(_, stamp, now, rtt) =>
      if x.stage.Relaying? && x.stage.down && Clock.Flagged(stamp, now, rtt) then Put(s, f, x.(congested := true))
      else s
    case UpEnd(_) =>
      if x.stage.Relaying? then Put(s, f, x.(stage := x.stage.(up := false))) else s
    case DownEnd(_) =>
      if x.stage.Relaying? then Put(s, f, x.(stage := x.stage.(down := false))) else s
    case Finish(_) =>
      // critical section: close, and delete the client's entry unless congested
      if x.stage == Relaying(false, false) then
        Put(s, f, x.(stage := Closed, closed := true))
          .(panicked := s.panicked || x.closed, table := if x.congested then s.table else s.table - {x.key})
      else s
    case _ => s
  }

  function Next(s: State, e: Event): State {
    match e
    case Receive(_, _) => ListenerNext(s, e)
    case Store => ListenerNext(s, e)
    case Offer => ListenerNext(s, e)
    case Dequeue =>
      if s.loop.None? && s.udpChan != [] && s.udpChan[0] < |s.flows| then
        Put(s, s.udpChan[0], s.flows[s.udpChan[0]].(stage := Pairing))
          .(udpChan := s.udpChan[1..], loop := Some(s.udpChan[0]))
      else s
    case _ => if e.flow < |s.flows| then HandlerNext(s, e.flow, e) else s
  }

  function Exec(s: State, es: seq<Event>): State
    decreases |es|
  {
    if es == [] then s else Exec(Next(s, es[0]), es[1..])
  }

  // ---- The inductive invariant ----

  /** A good flow (open and not congested) is the table's entry for its client. */
  predicate FlowOk(s: State, f: nat)
    requires f < |s.flows|
  {
    var x := s.flows[f];
    && (x.closed <==> x.stage.Closed?)
    && (!x.closed && !x.congested ==> x.key in s.table && s.table[x.key] == f)
    && (x.congested ==> x.stage.Relaying? || x.stage.Closed?)
    && (x.stage.Stored? <==> s.listener.Offering? && s.listener.flow == f)
    && (x.stage.Queued? <==> f in s.udpChan)
    && (x.stage.Pairing? <==> s.loop == Some(f))
  }

  /** An entry belongs to its client; if its channel is closed it is flagged congested. */
  predicate EntryOk(s: State, key: Key)
    requires key in s.table
  {
    var f := s.table[key];
    f < |s.flows| && s.flows[f].key == key && (s.flows[f].closed ==> s.flows[f].congested)
  }

  predicate ListenerOk(s: State) {
    match s.listener
    case Idle => true
    case Creating(key, _) => key in s.table ==> s.table[key] < |s.flows| && s.flows[s.table[key]].congested
    case Offering(f, _) => f < |s.flows|
  }

  ghost predicate Inv(s: State) {
    && !s.panicked
    && |s.udpChan| <= s.channelSize
    && (forall i :: 0 <= i < |s.udpChan| ==> s.udpChan[i] < |s.flows|)
    && (forall i, j :: 0 <= i < j < |s.udpChan| ==> s.udpChan[i] != s.udpChan[j])
    && ListenerOk(s)
    && (s.loop.Some? ==> s.loop.value < |s.flows|)
    && (forall f :: 0 <= f < |s.flows| ==> FlowOk(s, f))
    && (forall key :: key in s.table ==> EntryOk(s, key))
  }

  lemma InvReceive(s: State, key: Key, packet: Packet)
    requires Inv(s)
    ensures Inv(Next(s, Receive(key, packet)))
  {
    var s' := Next(s, Receive(key, packet));
    assert key in s.table ==> EntryOk(s, key);
    forall k | k in s'.table
      ensures EntryOk(s', k)
    {
      assert EntryOk(s, k);
    }
    forall f | 0 <= f < |s'.flows|
      ensures FlowOk(s', f)
    {
      assert FlowOk(s, f);
    }
  }

  lemma InvStore(s: State)
    requires Inv(s)
    ensures Inv(Next(s, Store))
  {
    var s' := Next(s, Store);
    forall key | key in s'.table
      ensures EntryOk(s', key)
    {
      assert key in s.table ==> EntryOk(s, key);
    }
    forall f | 0 <= f < |s'.flows|
      ensures FlowOk(s', f)
    {
      if f < |s.flows| { assert FlowOk(s, f); }
    }
  }

  /** The offered flow, queued with its first payload or orphaned. */
  lemma InvOffered(s: State, f: nat, x: Flow, queue: seq<nat>)
    requires Inv(s) && s.listener.Offering? && s.listener.flow == f < |s.flows| && |queue| <= s.channelSize
    requires (x.stage.Queued? && queue == s.udpChan + [f]) || (x.stage.Orphaned? && queue == s.udpChan)
    requires x.key == s.flows[f].key && !x.closed && !x.congested
    ensures Inv(Put(s, f, x).(udpChan := queue, listener := Idle))
  {
    var s' := Put(s, f, x).(udpChan := queue, listener := Idle);
    assert FlowOk(s, f);
    forall key | key in s'.table
      ensures EntryOk(s', key)
    {
      assert EntryOk(s, key);
    }
    forall g | 0 <= g < |s'.flows|
      ensures FlowOk(s', g)
    {
      assert FlowOk(s, g);
    }
  }

  lemma InvOffer(s: State)
    requires Inv(s)
    ensures Inv(Next(s, Offer))
  {
    if s.listener.Offering? {
      var f := s.listener.flow;
      var s' := Next(s, Offer);
      assert FlowOk(s, f);
      InvOffered(s, f, s'.flows[f], s'.udpChan);
    }
  }

  lemma InvDequeue(s: State)
    requires Inv(s)
    ensures Inv(Next(s, Dequeue))
  {
    var s' := Next(s, Dequeue);
    forall key | key in s'.table
      ensures EntryOk(s', key)
    {
      assert EntryOk(s, key);
    }
    forall f | 0 <= f < |s'.flows|
      ensures FlowOk(s', f)
    {
      assert FlowOk(s, f);
    }
  }

  lemma InvPair(s: State, f: nat)
    requires Inv(s) && f < |s.flows| && s.flows[f].stage.Pairing?
    ensures Inv(HandlerNext(s, f, Pair(f, true)))
  {
    var s' := HandlerNext(s, f, Pair(f, true));
    assert FlowOk(s, f);
    forall key | key in s'.table
      ensures EntryOk(s', key)
    {
      assert EntryOk(s, key);
    }
    forall g | 0 <= g < |s'.flows|
      ensures FlowOk(s', g)
    {
      assert FlowOk(s, g);
    }
  }

  /** A relaying flow may move packets on, be flagged, and lose a copy loop. */
  lemma InvRelaying(s: State, f: nat, x: Flow)
    requires Inv(s) && f < |s.flows| && s.flows[f].stage.Relaying? && x.stage.Relaying?
    requires x.key == s.flows[f].key && x.closed == s.flows[f].closed && (s.flows[f].congested ==> x.congested)
    ensures Inv(Put(s, f, x))
  {
    var s' := Put(s, f, x);
    assert FlowOk(s, f);
    forall key | key in s'.table
      ensures EntryOk(s', key)
    {
      assert EntryOk(s, key);
    }
    forall g | 0 <= g < |s'.flows|
      ensures FlowOk(s', g)
    {
      assert FlowOk(s, g);
    }
  }

  lemma InvFinish(s: State, f: nat)
    requires Inv(s) && f < |s.flows| && s.flows[f].stage == Relaying(false, false)
    ensures Inv(HandlerNext(s, f, Finish(f)))
  {
    var s' := HandlerNext(s, f, Finish(f));
    assert FlowOk(s, f);
    forall key | key in s'.table
      ensures EntryOk(s', key)
    {
      assert EntryOk(s, key);
      assert FlowOk(s, s.table[key]);
    }
    forall g | 0 <= g < |s'.flows|
      ensures FlowOk(s', g)
    {
      assert FlowOk(s, g);
    }
  }

  lemma InvHandler(s: State, f: nat, e: Event)
    requires Inv(s) && f < |s.flows|
    ensures Inv(HandlerNext(s, f, e))
  {
    var s' := HandlerNext(s, f, e);
    if s' != s {
      assert FlowOk(s, f);
      if e.Pair? {
        InvPair(s, f);
      } else if e.Finish? {
        InvFinish(s, f);
      } else {
        InvRelaying(s, f, s'.flows[f]);
      }
    }
  }

  lemma InvNext(s: State, e: Event)
    requires Inv(s)
    ensures Inv(Next(s, e))
  {
    match e
    case Receive(key, packet) => InvReceive(s, key, packet);
    case Store => InvStore(s);
    case Offer => InvOffer(s);
    case Dequeue => InvDequeue(s);
    case _ => if e.flow < |s.flows| { InvHandler(s, e.flow, e); }
  }

  lemma {:induction false} InvExec(s: State, es: seq<Event>)
    requires Inv(s)
    ensures Inv(Exec(s, es))
    decreases |es|
  {
    if es == [] {
    } else {
      InvNext(s, es[0]);
      InvExec(Next(s, es[0]), es[1..]);
    }
  }

  // ---- Main results, over every interleaving ----

  /** Open and not congested: the listener may send to it. */
  predicate Good(x: Flow) { !x.closed && !x.congested }

  /** No payload channel is ever sent on after its close or closed twice; an entry belongs to its
      client, and one whose channel is closed is flagged. */
  lemma NoPanic(channelSize: nat, es: seq<Event>, key: Key)
    ensures var s := Exec(Init(channelSize), es);
      !s.panicked && (key in s.table ==> EntryOk(s, key))
  {
    InvExec(Init(channelSize), es);
  }

  /** Each client has at most one good flow, and its entry names it. */
  lemma OneGoodFlow(channelSize: nat, es: seq<Event>, f: nat, g: nat)
    requires var s := Exec(Init(channelSize), es);
      f < |s.flows| && g < |s.flows| && Good(s.flows[f]) && Good(s.flows[g])
    ensures var s := Exec(Init(channelSize), es);
      && s.flows[f].key in s.table && s.table[s.flows[f].key] == f
      && (s.flows[f].key == s.flows[g].key ==> f == g)
  {
    InvExec(Init(channelSize), es);
    assert FlowOk(Exec(Init(channelSize), es), f) && FlowOk(Exec(Init(channelSize), es), g);
  }

  /** A packet reaches its client's good flow, and no other, whenever there is room. */
  lemma PacketReachesOwn(channelSize: nat, es: seq<Event>, f: nat, packet: Packet)
    requires var s := Exec(Init(channelSize), es); s.listener.Idle? && f < |s.flows| && Good(s.flows[f])
    ensures var s := Exec(Init(channelSize), es); var x := s.flows[f];
      Next(s, Receive(x.key, packet)) ==
      if |x.traffic.payload| < 100_000 then
        var q := x.traffic.(payload := x.traffic.payload + [packet], received := x.traffic.received + [packet]);
        s.(flows := s.flows[f := x.(traffic := q)])
      else s
  {
    InvExec(Init(channelSize), es);
    assert FlowOk(Exec(Init(channelSize), es), f);
  }

  predicate TrafficOk(x: Flow) {
    var q := x.traffic;
    && q.received == q.taken + q.payload
    && SendableOf(q.taken) == q.written + q.lost
    && |q.lost| <= 1
    && (q.lost != [] ==> x.stage.Closed? || (x.stage.Relaying? && !x.stage.up))
  }

  predicate AllTraffic(s: State) { forall f :: 0 <= f < |s.flows| ==> TrafficOk(s.flows[f]) }

  lemma ForwardedOk(x: Flow, ok: bool)
    requires TrafficOk(x) && x.stage.Relaying? && x.stage.up && x.traffic.payload != []
    ensures TrafficOk(Forwarded(x, ok))
  {
    var q := x.traffic;
    assert (q.taken + [q.payload[0]])[..|q.taken|] == q.taken;
    assert q.lost == [] && q.written + [] == q.written;
  }

  lemma TrafficListener(s: State, e: Event)
    requires Inv(s) && AllTraffic(s) && (e.Receive? || e.Store? || e.Offer?)
    ensures AllTraffic(ListenerNext(s, e))
  {
    if s.listener.Offering? { assert FlowOk(s, s.listener.flow); }
  }

  lemma TrafficHandler(s: State, f: nat, e: Event)
    requires AllTraffic(s) && f < |s.flows| && !e.Forward?
    ensures AllTraffic(HandlerNext(s, f, e))
  {
  }

  lemma TrafficNext(s: State, e: Event)
    requires Inv(s) && AllTraffic(s)
    ensures AllTraffic(Next(s, e))
  {
    if e.Receive? || e.Store? || e.Offer? {
      TrafficListener(s, e);
    } else if e.Dequeue? {
      if s.udpChan != [] { assert FlowOk(s, s.udpChan[0]); }
    } else if e.flow < |s.flows| {
      if e.Forward? {
        if Next(s, e) != s { ForwardedOk(s.flows[e.flow], e.ok); }
      } else {
        TrafficHandler(s, e.flow, e);
      }
    }
  }

  lemma {:induction false} TrafficExec(s: State, es: seq<Event>)
    requires Inv(s) && AllTraffic(s)
    ensures AllTraffic(Exec(s, es))
    decreases |es|
  {
    if es == [] {
      assert Exec(s, es) == s;
    } else {
      InvNext(s, es[0]);
      TrafficNext(s, es[0]);
      TrafficExec(Next(s, es[0]), es[1..]);
    }
  }

  lemma {:induction false} SendableAppend(a: seq<Packet>, b: seq<Packet>)
    ensures SendableOf(a + b) == SendableOf(a) + SendableOf(b)
    decreases |b|
  {
    if b == [] {
      assert a + b == a;
    } else {
      assert (a + b)[..|a + b| - 1] == a + b[..|b| - 1];
      SendableAppend(a, b[..|b| - 1]);
    }
  }

  /** At every moment the packets that a flow received and that two bytes can measure are, in this
      order, those written to the tunnel, at most one whose write failed, and those still buffered;
      a packet is lost only with the end of udpToTCP; and without a failed write all are written
      once the payload channel is empty. */
  lemma ForwardedInOrder(channelSize: nat, es: seq<Event>, f: nat)
    requires f < |Exec(Init(channelSize), es).flows|
    ensures var x := Exec(Init(channelSize), es).flows[f]; var q := x.traffic;
      && SendableOf(q.received) == q.written + q.lost + SendableOf(q.payload)
      && q.written <= SendableOf(q.received)
      && |q.lost| <= 1 && (q.lost != [] ==> x.stage.Closed? || (x.stage.Relaying? && !x.stage.up))
      && (q.payload == [] && q.lost == [] ==> q.written == SendableOf(q.received))
  {
    TrafficExec(Init(channelSize), es);
    var x := Exec(Init(channelSize), es).flows[f];
    assert TrafficOk(x);
    SendableAppend(x.traffic.taken, x.traffic.payload);
  }

  /** A finishing flow removes its own entry or none: when it was replaced because of
      congestion, the entry of its successor stays. */
  lemma FinishRemovesOwn(channelSize: nat, es: seq<Event>, f: nat, key: Key)
    requires var s := Exec(Init(channelSize), es);
      key in s.table && f < |s.flows| && key !in Next(s, Finish(f)).table
    ensures var s := Exec(Init(channelSize), es);
      s.table[key] == f && s.flows[f].key == key && !s.flows[f].congested
  {
    var s := Exec(Init(channelSize), es);
    InvExec(Init(channelSize), es);
    assert FlowOk(s, f);
  }

  // ---- Flows that nobody handles ----

  predicate Forsaken(s: State, f: nat) { f < |s.flows| && s.flows[f].stage.Orphaned? }

  /** The flow is offered while udpChan is full. */
  predicate OfferedInVain(s: State, e: Event, f: nat) {
    e.Offer? && s.listener.Offering? && s.listener.flow == f && |s.udpChan| == s.channelSize
  }

  lemma ForsakenNext(s: State, e: Event, f: nat)
    requires Inv(s) && f < |Next(s, e).flows|
    ensures Forsaken(Next(s, e), f) <==> Forsaken(s, f) || OfferedInVain(s, e, f)
  {
    match e
    case Receive(_, _) =>
    case Store =>
    case Offer => if s.listener.Offering? { assert FlowOk(s, s.listener.flow); }
    case Dequeue => if s.udpChan != [] { assert FlowOk(s, s.udpChan[0]); }
    case _ => if e.flow < |s.flows| { assert FlowOk(s, e.flow); }
  }

  lemma FlowsStay(s: State, e: Event)
    ensures |s.flows| <= |Next(s, e).flows| && Next(s, e).channelSize == s.channelSize
  {
  }

  lemma {:induction false} ExecStays(s: State, es: seq<Event>)
    requires Inv(s)
    ensures Inv(Exec(s, es)) && |s.flows| <= |Exec(s, es).flows| && Exec(s, es).channelSize == s.channelSize
    decreases |es|
  {
    if es == [] {
      assert Exec(s, es) == s;
    } else {
      InvNext(s, es[0]);
      FlowsStay(s, es[0]);
      ExecStays(Next(s, es[0]), es[1..]);
    }
  }

  lemma {:induction false} ExecAppend(s: State, es: seq<Event>, more: seq<Event>)
    ensures Exec(s, es + more) == Exec(Exec(s, es), more)
    decreases |es|
  {
    if es == [] {
      assert es + more == more;
    } else {
      assert (es + more)[0] == es[0] && (es + more)[1..] == es[1..] + more;
      ExecAppend(Next(s, es[0]), es[1..], more);
    }
  }

  lemma {:induction false} ForsakenExec(s: State, es: seq<Event>, f: nat)
    requires Inv(s) && Forsaken(s, f)
    ensures Forsaken(Exec(s, es), f)
    decreases |es|
  {
    if es == [] {
      assert Exec(s, es) == s;
    } else {
      InvNext(s, es[0]);
      FlowsStay(s, es[0]);
      ForsakenNext(s, es[0], f);
      ForsakenExec(Next(s, es[0]), es[1..], f);
    }
  }

  /** A flow that did not fit into udpChan shadows its client for good: in every later state it
      is the client's entry, and no goroutine handles it. */
  lemma OrphanForever(channelSize: nat, es: seq<Event>, later: seq<Event>, f: nat)
    requires Forsaken(Exec(Init(channelSize), es), f)
    ensures var s := Exec(Exec(Init(channelSize), es), later);
      && Forsaken(s, f) && !s.flows[f].closed && !s.flows[f].congested
      && s.flows[f].key in s.table && s.table[s.flows[f].key] == f
  {
    ExecStays(Init(channelSize), es);
    ExecStays(Exec(Init(channelSize), es), later);
    ForsakenExec(Exec(Init(channelSize), es), later, f);
    assert FlowOk(Exec(Exec(Init(channelSize), es), later), f);
  }

  /** UDPConnectionHandler has started for the flow. */
  predicate Handled(s: State, f: nat) { f < |s.flows| && (s.flows[f].stage.Relaying? || s.flows[f].stage.Closed?) }

  function Rank(g: Stage): nat { match g case Stored => 3 case Queued => 2 case Pairing => 1 case _ => 0 }

  /** What to wait for next until the flow is handled. */
  function Awaited(s: State, f: nat): Event
    requires f < |s.flows|
  {
    if s.loop.Some? then Pair(s.loop.value, true)
    else if s.flows[f].stage.Stored? && |s.udpChan| < s.channelSize then Offer
    else Dequeue
  }

  lemma AwaitedHelps(s: State, f: nat)
    requires Inv(s) && f < |s.flows| && s.channelSize > 0 && !Handled(s, f) && !Forsaken(s, f)
    ensures var s' := Next(s, Awaited(s, f)); var r, r' := Rank(s.flows[f].stage), Rank(s'.flows[f].stage);
      && f < |s'.flows| && !Forsaken(s', f) && r' <= r
      && (r' == r ==> |s'.udpChan| <= |s.udpChan|)
      && (r' == r && |s'.udpChan| == |s.udpChan| ==> s.loop.Some? && s'.loop.None?)
  {
    assert FlowOk(s, f);
    if s.loop.Some? { assert FlowOk(s, s.loop.value); }
    if s.udpChan != [] { assert FlowOk(s, s.udpChan[0]); }
  }

  lemma {:induction false} HandledLater(s: State, f: nat) returns (later: seq<Event>)
    requires Inv(s) && f < |s.flows| && s.channelSize > 0 && !Forsaken(s, f)
    ensures Handled(Exec(s, later), f)
    decreases Rank(s.flows[f].stage), |s.udpChan|, s.loop.Some?
  {
    if Handled(s, f) {
      later := [];
    } else {
      var e := Awaited(s, f);
      AwaitedHelps(s, f);
      InvNext(s, e);
      FlowsStay(s, e);
      var rest := HandledLater(Next(s, e), f);
      later := [e] + rest;
      assert later[1..] == rest;
    }
  }

  predicate HandledAfter(s: State, later: seq<Event>, f: nat) { Handled(Exec(s, later), f) }

  /** From every reachable state: some continuation hands a flow to a handler if and only if it
      was not orphaned. */
  lemma HandledUnlessOrphaned(channelSize: nat, es: seq<Event>, f: nat)
    requires channelSize > 0 && f < |Exec(Init(channelSize), es).flows|
    ensures var s := Exec(Init(channelSize), es);
      (exists later :: HandledAfter(s, later, f)) <==> !Forsaken(s, f)
  {
    var s := Exec(Init(channelSize), es);
    ExecStays(Init(channelSize), es);
    if !Forsaken(s, f) {
      var later := HandledLater(s, f);
      assert HandledAfter(s, later, f);
    } else {
      forall later
        ensures !HandledAfter(s, later, f)
      {
        ForsakenExec(s, later, f);
      }
    }
  }

  /** Clients with addresses of every length. */
  function Client(i: nat): Key { seq(i, _ => 'x') }

  function Arrival(i: nat): seq<Event> { [Receive(Client(i), []), Store, Offer] }

  lemma ExecThree(s: State, a: Event, b: Event, c: Event)
    ensures Exec(s, [a, b, c]) == Next(Next(Next(s, a), b), c)
  {
    assert [a, b, c][1..] == [b, c] && [b, c][1..] == [c] && [c][1..] == [];
    assert Exec(Next(Next(s, a), b), [c]) == Next(Next(Next(s, a), b), c);
  }

  /** That many clients have arrived, and all are queued. */
  predicate Filled(s: State, n: nat) {
    && |s.flows| == |s.udpChan| == n && s.listener.Idle? && s.loop.None? && n <= s.channelSize
    && forall key :: key in s.table ==> |key| < n
  }

  lemma {:induction false} Fill(channelSize: nat, n: nat) returns (es: seq<Event>)
    requires n <= channelSize
    ensures Filled(Exec(Init(channelSize), es), n) && Exec(Init(channelSize), es).channelSize == channelSize
  {
    if n == 0 {
      es := [];
    } else {
      var before := Fill(channelSize, n - 1);
      var s := Exec(Init(channelSize), before);
      es := before + Arrival(n - 1);
      ExecAppend(Init(channelSize), before, Arrival(n - 1));
      ExecThree(s, Receive(Client(n - 1), []), Store, Offer);
      assert Client(n - 1) !in s.table;
    }
  }

  /** One client more than udpChan has room for is enough. */
  lemma OrphanReachable(channelSize: nat) returns (es: seq<Event>)
    requires channelSize > 0
    ensures Forsaken(Exec(Init(channelSize), es), channelSize)
  {
    var before := Fill(channelSize, channelSize);
    var s := Exec(Init(channelSize), before);
    es := before + Arrival(channelSize);
    ExecAppend(Init(channelSize), before, Arrival(channelSize));
    ExecThree(s, Receive(Client(channelSize), []), Store, Offer);
    assert Client(channelSize) !in s.table;
  }

  // ---- The listener object ----

  /** What udpListener, handleUDPLoop and UDPConnectionHandler share; Fire performs one critical
      section or channel operation in place. */
  class UdpListener {
    const channelSize: nat
    var flows: seq<Flow>
    var activeConnections: map<Key, nat>
    var udpChan: seq<nat>
    var loop: Option<nat>
    var listener: Listener
    ghost var panicked: bool

    ghost function View(): State
      reads this
    {
      State(channelSize, flows, activeConnections, udpChan, loop, listener, panicked)
    }

    constructor (channelSize: nat)
      ensures View() == Init(channelSize)
    {
      this.channelSize := channelSize;
      flows, activeConnections, udpChan, loop, listener, panicked := [], map[], [], None, Idle, false;
    }

    method Fire(e: Event)
      requires Inv(View())
      modifies this
      ensures View() == Next(old(View()), e) && Inv(View())
    {
      InvNext(View(), e);
      match e
      case Receive(key, packet) => Receive(key, packet);
      case Store =>
        if listener.Creating? {
          activeConnections := activeConnections[listener.key := |flows|];
          flows, listener := flows + [NewFlow(listener.key)], Offering(|flows|, listener.packet);
        }
      case Offer => if listener.Offering? { OfferFlow(listener.flow, listener.packet); }
      case Dequeue =>
        if loop.None? && udpChan != [] {
          flows := flows[udpChan[0] := flows[udpChan[0]].(stage := Pairing)];
          udpChan, loop := udpChan[1..], Some(udpChan[0]);
        }
      case _ => if e.flow < |flows| { Handle(e.flow, e); }
    }

    method Receive(key: Key, packet: Packet)
      requires Inv(View())
      modifies this`flows, this`listener
      ensures View() == Next(old(View()), Event.Receive(key, packet))
    {
      if listener.Idle? {
        assert key in activeConnections ==> EntryOk(View(), key);
        if key in activeConnections && !flows[activeConnections[key]].congested {
          var f := activeConnections[key];
          if |flows[f].traffic.payload| < PAYLOAD_SIZE {
            flows := flows[f := Enqueued(flows[f], packet)];
          }
        } else {
          listener := Creating(key, packet);
        }
      }
    }

    method OfferFlow(f: nat, packet: Packet)
      requires Inv(View()) && listener == Offering(f, packet)
      modifies this`flows, this`udpChan, this`listener
      ensures View() == Next(old(View()), Offer)
    {
      assert FlowOk(View(), f);
      var x := flows[f];
      if |udpChan| < channelSize {
        udpChan := udpChan + [f];
        flows := flows[f := Enqueued(x, packet).(stage := Queued)];
      } else {
        flows := flows[f := x.(stage := Orphaned)];
      }
      listener := Idle;
    }

    /** One turn of udpToTCP. */
    method UdpToTcp(x: Flow, ok: bool) returns (x': Flow)
      requires x.stage.Relaying? && x.traffic.payload != []
      ensures x' == Forwarded(x, ok)
    {
      var q := x.traffic;
      var data := q.payload[0];
      q := q.(payload := q.payload[1..], taken := q.taken + [data]);
      if |data| > 65535 { return x.(traffic := q); }
      if ok {
        x' := x.(traffic := q.(written := q.written + [data]));
      } else {
        x' := x.(traffic := q.(lost := q.lost + [data]), stage := x.stage.(up := false));
      }
    }

    method Handle(f: nat, e: Event)
      requires Inv(View()) && f < |flows|
      modifies this`flows, this`activeConnections, this`loop
      ensures View() == HandlerNext(old(View()), f, e)
    {
      assert FlowOk(View(), f);
      var x := flows[f];
      if e.Pair? && x.stage.Pairing? && e.ok {
        x, loop := x.(stage := Relaying(true, true)), None;
      } else if x.stage.Relaying? {
        match e
        case Forward(_, ok) => if x.stage.up && x.traffic.payload != [] { x := UdpToTcp(x, ok); }
        case Header(_, stamp, now, rtt) =>
          if x.stage.down && Clock.Flagged(stamp, now, rtt) { x := x.(congested := true); }
        case UpEnd(_) => x := x.(stage := x.stage.(up := false));
        case DownEnd(_) => x := x.(stage := x.stage.(down := false));
        case Finish(_) =>
          if !x.stage.up && !x.stage.down {
            x := x.(stage := Closed, closed := true);
            if !x.congested { activeConnections := activeConnections - {x.key}; }
          }
        case _ =>
      }
      flows := flows[f := x];
    }
  }
}
