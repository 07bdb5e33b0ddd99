/** What the goroutines of the UDP-over-TCP listener bring about over whole runs. */
module FlowHistory {
  import opened FlowTable
  import opened Options
  import Clock = CongestionClock
  import Runs

  lemma {:induction false} SameRun(s: State, es: seq<Event>)
    ensures Runs.Exec(Next, s, es) == Exec(s, es)
    decreases |es|
  {
    if es == [] {
    } else {
      SameRun(Next(s, es[0]), es[1..]);
    }
  }

  // ---- A packet that no good flow takes ----

  /** The new flow for it: queued with the packet, or orphaned without. */
  function Founded(key: Key, packet: Packet, room: bool): Flow {
    if room then Flow(key, Traffic([packet], [packet], [], [], []), false, false, Queued)
    else Flow(key, Traffic([], [], [], [], []), false, false, Orphaned)
  }

  /** From every reachable state, a packet of a client without a good flow founds one: there is one
      flow more, it is the client's entry from then on, also when it replaces a congested flow, and
      no other flow changes. */
  lemma PacketFoundsFlow(channelSize: nat, es: seq<Event>, key: Key, packet: Packet)
    requires var s := Exec(Init(channelSize), es);
      s.listener.Idle? && forall f :: 0 <= f < |s.flows| && Good(s.flows[f]) ==> s.flows[f].key != key
    ensures var s := Exec(Init(channelSize), es); var n := |s.flows|; var room := |s.udpChan| < channelSize;
      Exec(s, [Receive(key, packet), Store, Offer]) ==
      s.(flows := s.flows + [Founded(key, packet, room)], table := s.table[key := n],
         udpChan := if room then s.udpChan + [n] else s.udpChan)
  {
    var s := Exec(Init(channelSize), es);
    var room := |s.udpChan| < channelSize;
    ExecStays(Init(channelSize), es);
    if key in s.table { assert EntryOk(s, key); }
    ExecThree(s, Receive(key, packet), Store, Offer);
    var s2 := Next(Next(s, Receive(key, packet)), Store);
    var n := |s.flows|;
    assert s2.listener == Offering(n, packet) && s2.flows == s.flows + [NewFlow(key)];
    assert [] + [packet] == [packet];
    assert Next(s2, Offer).flows[n] == Founded(key, packet, room);
    assert Next(s2, Offer).flows[..n] == s.flows;
    assert Next(s2, Offer).flows == Next(s2, Offer).flows[..n] + [Next(s2, Offer).flows[n]];
  }

  // ---- What becomes of a flow ----

  /** What can happen to a flow, once for each. */
  datatype Fate = Lonely | Served | Flagged | UpDone | DownDone | Ended

  /** The flow shows that it happened. */
  predicate Shows(s: State, f: nat, fate: Fate) {
    && f < |s.flows|
    && var g := s.flows[f].stage;
      match fate
      case Lonely => g.Orphaned?
      case Served => g.Relaying? || g.Closed?
      case Flagged => s.flows[f].congested
      case UpDone => g.Closed? || (g.Relaying? && !g.up)
      case DownDone => g.Closed? || (g.Relaying? && !g.down)
      case Ended => g.Closed?
  }

  /** The event that brings it about: the offer to a full channel; the address sent over a tunnel;
      a packet that is late by its stamp; the end of a copy loop, udpToTCP also by a failed write;
      the end of the flow once both have ended. */
  predicate Does(s: State, e: Event, f: nat, fate: Fate) {
    match fate
    case Lonely => OfferedInVain(s, e, f)
    case Served => e == Pair(f, true) && f < |s.flows| && s.flows[f].stage.Pairing?
    case Flagged =>
      && e.Header? && e.flow == f < |s.flows| && s.flows[f].stage.Relaying? && s.flows[f].stage.down
      && Clock.Flagged(e.stamp, e.now, e.rtt)
    case UpDone =>
      && (e == UpEnd(f) || e == Forward(f, false)) && f < |s.flows|
      && s.flows[f].stage.Relaying? && s.flows[f].stage.up
      && (e.Forward? ==> s.flows[f].traffic.payload != [] && Sendable(s.flows[f].traffic.payload[0]))
    case DownDone => e == DownEnd(f) && f < |s.flows| && s.flows[f].stage.Relaying? && s.flows[f].stage.down
    case Ended => e == Finish(f) && f < |s.flows| && s.flows[f].stage == Relaying(false, false)
  }

  lemma FateListener(s: State, e: Event, f: nat, fate: Fate)
    requires Inv(s) && (e.Receive? || e.Store? || e.Offer?)
    ensures Shows(ListenerNext(s, e), f, fate) <==> Shows(s, f, fate) || Does(s, e, f, fate)
  {
    if s.listener.Offering? { assert FlowOk(s, s.listener.flow); }
  }

  lemma FateHandler(s: State, e: Event, f: nat, fate: Fate)
    requires Inv(s) && !e.Receive? && !e.Store? && !e.Offer? && !e.Dequeue? && e.flow < |s.flows|
    ensures Shows(HandlerNext(s, e.flow, e), f, fate) <==> Shows(s, f, fate) || Does(s, e, f, fate)
  {
    assert FlowOk(s, e.flow);
    match e
    case Pair(_, _) =>
    case Forward(_, _) =>
    case Header(_, _, _, _) =>
    case UpEnd(_) =>
    case DownEnd(_) =>
    case Finish(_) =>
  }

  lemma FateNext(s: State, e: Event, f: nat, fate: Fate)
    requires Inv(s)
    ensures Shows(Next(s, e), f, fate) <==> Shows(s, f, fate) || Does(s, e, f, fate)
  {
    if e.Receive? || e.Store? || e.Offer? {
      FateListener(s, e, f, fate);
    } else if e.Dequeue? {
      if s.udpChan != [] { assert FlowOk(s, s.udpChan[0]); }
    } else if e.flow < |s.flows| {
      FateHandler(s, e, f, fate);
    }
  }

  /** In every run, each of these has happened to a flow exactly when one of its events met it. */
  lemma FateWhen(channelSize: nat, es: seq<Event>, f: nat, fate: Fate)
    ensures var s0 := Init(channelSize);
      Shows(Exec(s0, es), f, fate) <==> Runs.Befell(Next, s0, es, (t, e) => Does(t, e, f, fate))
  {
    var s0 := Init(channelSize);
    SameRun(s0, es);
    forall t: State, e: Event | Inv(t)
      ensures Inv(Next(t, e)) && (Shows(Next(t, e), f, fate) <==> Shows(t, f, fate) || Does(t, e, f, fate))
    {
      InvNext(t, e);
      FateNext(t, e, f, fate);
    }
    Runs.History(Next, s0, es, t => Inv(t), t => Shows(t, f, fate), (t, e) => Does(t, e, f, fate));
  }

  /** A flow is orphaned exactly when it was offered while udpChan was full. */
  lemma OrphanedWhen(channelSize: nat, es: seq<Event>, f: nat)
    ensures var s0 := Init(channelSize);
      Forsaken(Exec(s0, es), f) <==> Runs.Befell(Next, s0, es, (t, e) => OfferedInVain(t, e, f))
  {
    var s0 := Init(channelSize);
    FateWhen(channelSize, es, f, Lonely);
    forall k | 0 <= k < |es|
      ensures Does(Runs.Exec(Next, s0, es[..k]), es[k], f, Lonely)
         <==> OfferedInVain(Runs.Exec(Next, s0, es[..k]), es[k], f)
    {
    }
  }

  // ---- udpChan ----

  function Puts(s: State, e: Event): seq<nat> {
    if e.Offer? && s.listener.Offering? && s.listener.flow < |s.flows| && |s.udpChan| < s.channelSize
    then [s.listener.flow] else []
  }

  function Gets(s: State, e: Event): seq<nat> {
    if e.Dequeue? && s.loop.None? && s.udpChan != [] && s.udpChan[0] < |s.flows| then [s.udpChan[0]] else []
  }

  /** In every run handleUDPLoop takes the flows in the order in which the listener offered them. */
  lemma TakenInOrder(channelSize: nat, es: seq<Event>)
    ensures var s0 := Init(channelSize);
      Runs.Trace(Next, s0, es, Puts) == Runs.Trace(Next, s0, es, Gets) + Exec(s0, es).udpChan
  {
    var s0 := Init(channelSize);
    SameRun(s0, es);
    forall t: State, e: Event
      ensures t.udpChan + Puts(t, e) == Gets(t, e) + Next(t, e).udpChan
    {
    }
    Runs.Fifo(Next, s0, es, t => true, (t: State) => t.udpChan, Puts, Gets);
    assert [] + Runs.Trace(Next, s0, es, Puts) == Runs.Trace(Next, s0, es, Puts);
  }

  // ---- What a handled flow can still do ----

  lemma ExecCons(s: State, e: Event, es: seq<Event>)
    ensures Exec(s, [e] + es) == Exec(Next(s, e), es)
  {
    assert ([e] + es)[1..] == es;
  }

  /** One successful turn of udpToTCP. */
  lemma WritesOne(s: State, f: nat)
    requires f < |s.flows| && s.flows[f].stage.Relaying? && s.flows[f].stage.up && s.flows[f].traffic.payload != []
    ensures var s' := Next(s, Forward(f, true)); var q, q' := s.flows[f].traffic, s'.flows[f].traffic;
      && |s'.flows| == |s.flows| && s'.flows[f].stage == s.flows[f].stage
      && q'.payload == q.payload[1..] && q'.written == q.written + SendableOf([q.payload[0]])
  {
    SendableOne(s.flows[f].traffic.payload[0]);
  }

  /** While udpToTCP runs, everything that is buffered can be written. */
  lemma {:induction false} WritesAll(s: State, f: nat) returns (later: seq<Event>)
    requires f < |s.flows| && s.flows[f].stage.Relaying? && s.flows[f].stage.up
    ensures var s' := Exec(s, later); var q := s.flows[f].traffic;
      && f < |s'.flows| && s'.flows[f].stage == s.flows[f].stage && s'.flows[f].traffic.payload == []
      && s'.flows[f].traffic.written == q.written + SendableOf(q.payload)
    decreases |s.flows[f].traffic.payload|
  {
    var q := s.flows[f].traffic;
    if q.payload == [] {
      later := [];
    } else {
      WritesOne(s, f);
      var rest := WritesAll(Next(s, Forward(f, true)), f);
      later := [Forward(f, true)] + rest;
      ExecCons(s, Forward(f, true), rest);
      var one, more := [q.payload[0]], q.payload[1..];
      assert q.payload == one + more;
      SendableAppend(one, more);
      assert (q.written + SendableOf(one)) + SendableOf(more) == q.written + (SendableOf(one) + SendableOf(more));
    }
  }

  lemma SendableOne(p: Packet)
    ensures SendableOf([p]) == if Sendable(p) then [p] else []
  {
    assert [p][..0] == [] && SendableOf([]) == [];
  }

  /** Both copy loops can end, and the flow with them: its channel is closed then, and the table no
      longer names it. */
  lemma Finishes(s: State, f: nat) returns (later: seq<Event>)
    requires Inv(s) && f < |s.flows| && s.flows[f].stage.Relaying?
    ensures var s' := Exec(s, later); var key := s.flows[f].key;
      && f < |s'.flows| && s'.flows[f].closed
      && (key in s'.table && s'.table[key] == f ==> s'.flows[f].congested)
  {
    ExecThree(s, UpEnd(f), DownEnd(f), Finish(f));
    later := [UpEnd(f), DownEnd(f), Finish(f)];
    assert FlowOk(s, f);
  }
}
