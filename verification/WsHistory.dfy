/** What the goroutines of the websocket transport bring about over whole runs. */
module WsHistory {
  import opened Conns
  import opened Options
  import opened WsTunnel
  import Runs

  lemma {:induction false} SameRun(s: State, es: seq<Event>)
    ensures Runs.Exec(Next, s, es) == Exec(s, es)
    decreases |es|
  {
    if es == [] {
    } else {
      SameRun(Next(s, es[0]), es[1..]);
    }
  }

  // ---- What becomes of a tunnel ----

  /** What can happen to a tunnel: the address is written, or its write fails; its connection is
      closed; its keepAlive ends; its relay ends. */
  datatype Fate = Won | Failed | Shutdown | Silent | Over

  predicate OpShows(x: Tunnel, fate: Fate) {
    match fate
    case Won => x.stage.Paired?
    case Failed => x.stage.Dropped?
    case Shutdown => x.connClosed
    case Silent => x.beat.Stopped?
    case Over => x.relayEnded
  }

  predicate Shows(s: State, t: nat, fate: Fate) { t < |s.tunnels| && OpShows(s.tunnels[t], fate) }

  /** A handleLoop ends the address write to tunnel t. */
  predicate EndsAddress(s: State, e: Event, t: nat) {
    && e.EndAddress? && e.loop < |s.loops| && s.loops[e.loop].Busy? && s.loops[e.loop].tunnel == t < |s.tunnels|
    && s.tunnels[t].stage.Addressing?
  }

  predicate Writes(x: Tunnel, ok: bool) { ok && !x.connClosed }

  /** The operation on the tunnel does it. */
  predicate OpDoes(x: Tunnel, op: Op, fate: Fate) {
    match fate
    case Won => false
    case Failed => false
    case Shutdown =>
      || (op.Shut? && x.beat.Waiting?)
      || (op.Unlock? && x.beat.Unwinding?)
      || (op.EndData? && x.writer.Relayer? && !Writes(x, op.ok))
      || (op.EndRelay? && x.stage.Paired? && !x.writer.Relayer?)
    case Silent =>
      || (op.SeePingClosed? && x.beat.Waiting? && x.pingCloses > 0)
      || (op.Shut? && x.beat.Waiting?)
      || (op.Tick? && x.beat.Waiting? && !x.lock.Free?)
      || (op.Unlock? && x.beat.Unwinding?)
    case Over =>
      || (op.EndData? && x.writer.Relayer? && !Writes(x, op.ok))
      || (op.EndRelay? && x.stage.Paired? && !x.writer.Relayer?)
  }

  predicate Does(s: State, e: Event, t: nat, fate: Fate) {
    if e.On? then e.tunnel == t < |s.tunnels| && OpDoes(s.tunnels[t], e.op, fate)
    else
      && EndsAddress(s, e, t)
      && match fate
        case Won => Writes(s.tunnels[t], e.ok)
        case Failed => !Writes(s.tunnels[t], e.ok)
        case Shutdown => !Writes(s.tunnels[t], e.ok)
        case Silent => false
        case Over => false
  }

  lemma FateOp(x: Tunnel, op: Op, fate: Fate)
    requires TunnelOk(x)
    ensures OpShows(TunnelOp(x, op).tunnel, fate) <==> OpShows(x, fate) || OpDoes(x, op, fate)
  {
    match op
    case StartBeat =>
    case SeePingClosed =>
    case Shut =>
    case Tick =>
    case BeginPing =>
    case EndPing(_, _) =>
    case Unlock =>
    case ClosePing =>
    case TakeLock =>
    case BeginAddress =>
    case BeginData(_) =>
    case EndData(_, _) =>
    case EndRelay =>
  }

  lemma FateLoop(s: State, e: Event, t: nat, fate: Fate)
    requires Inv(s) && e.EndAddress? && e.loop < |s.loops|
    ensures Shows(LoopNext(s, e.loop, e), t, fate) <==> Shows(s, t, fate) || Does(s, e, t, fate)
  {
    assert LoopPlaced(s, e.loop);
    if s.loops[e.loop].Busy? { assert TunnelPlaced(s, s.loops[e.loop].tunnel); }
  }

  lemma FateNext(s: State, e: Event, t: nat, fate: Fate)
    requires Inv(s)
    ensures Shows(Next(s, e), t, fate) <==> Shows(s, t, fate) || Does(s, e, t, fate)
  {
    match e
    case On(u, op) =>
      if u < |s.tunnels| {
        assert TunnelPlaced(s, u);
        FateOp(s.tunnels[u], op, fate);
      }
    case EndAddress(l, _, _) => if l < |s.loops| { FateLoop(s, e, t, fate); }
    case TakeTunnel(_) => if s.tunnelChannel != [] { assert TunnelPlaced(s, s.tunnelChannel[0]); }
    case _ =>
  }

  /** In every run each of these has happened to a tunnel exactly when one of its events met it: in
      particular it is paired exactly when the address was written to it over an open connection, and
      dropped exactly when the write ended otherwise. */
  lemma FateWhen(channelSize: nat, loops: nat, es: seq<Event>, t: nat, fate: Fate)
    ensures var s0 := Init(channelSize, loops);
      Shows(Exec(s0, es), t, fate) <==> Runs.Befell(Next, s0, es, (u, e) => Does(u, e, t, fate))
  {
    var s0 := Init(channelSize, loops);
    SameRun(s0, es);
    forall u: State, e: Event | Inv(u)
      ensures Inv(Next(u, e)) && (Shows(Next(u, e), t, fate) <==> Shows(u, t, fate) || Does(u, e, t, fate))
    {
      InvNext(u, e);
      FateNext(u, e, t, fate);
    }
    Runs.History(Next, s0, es, u => Inv(u), u => Shows(u, t, fate), (u, e) => Does(u, e, t, fate));
  }

  /** When an address write ends in a reachable state: with success the address is on the wire, the
      relay starts and the loop looks for its next connection; otherwise the tunnel is given up and
      closed, and the loop checks the same connection again. */
  lemma AddressEnds(channelSize: nat, loops: nat, es: seq<Event>, l: nat, ok: bool, delivered: bool, t: nat)
    requires EndsAddress(Exec(Init(channelSize, loops), es), EndAddress(l, ok, delivered), t)
    ensures var s := Exec(Init(channelSize, loops), es); var s' := Next(s, EndAddress(l, ok, delivered));
      var x, x' := s.tunnels[t], s'.tunnels[t]; var c := s.loops[l].conn;
      && x'.target == Some(c)
      && if Writes(x, ok) then
           x'.stage.Paired? && x'.wire == x.wire + [Text(c.remoteAddr)] && !x'.connClosed && s'.loops[l] == Idle
         else
           && x'.stage == Dropped(delivered && !x.connClosed) && x'.connClosed && s'.loops[l] == Checking(c)
           && x'.wire == x.wire + if delivered && !x.connClosed then [Text(c.remoteAddr)] else []
  {
    InvExec(Init(channelSize, loops), es);
    assert LoopPlaced(Exec(Init(channelSize, loops), es), l);
  }

  /** How a ping ends in a reachable state: keepAlive gives up the lock in both cases, and waits for
      its next tick if the write had no error, or closes the tunnel's connection and is over.  What the
      loop does with the tunnel is not changed. */
  lemma PingEnds(channelSize: nat, loops: nat, es: seq<Event>, t: nat, ok: bool, delivered: bool)
    requires var s := Exec(Init(channelSize, loops), es); t < |s.tunnels| && s.tunnels[t].beat.Pinging?
    ensures var s := Exec(Init(channelSize, loops), es);
      var s1 := Next(s, On(t, EndPing(ok, delivered))); var s2 := Next(s1, On(t, Unlock));
      && |s2.tunnels| == |s1.tunnels| == |s.tunnels| && s2.loops == s.loops
      && PingEnded(s.tunnels[t], s1.tunnels[t], s2.tunnels[t], ok, delivered)
  {
    InvExec(Init(channelSize, loops), es);
    assert TunnelPlaced(Exec(Init(channelSize, loops), es), t);
  }

  predicate PingEnded(x: Tunnel, x1: Tunnel, x2: Tunnel, ok: bool, delivered: bool) {
    && x1.wire == x.wire + (if (ok || delivered) && !x.connClosed then [PING] else [])
    && x1.lock.ByBeat? && x1.writer.Nobody? && x1.connClosed == x.connClosed
    && x2.lock.Free? && x2.writer.Nobody? && x2.wire == x1.wire
    && x2.stage == x.stage && x2.target == x.target && x2.pingCloses == x.pingCloses
    && if Writes(x, ok) then x2.beat.Waiting? && x2.connClosed == x.connClosed
       else x2.beat.Stopped? && x2.connClosed
  }

  // ---- The channels ----

  function PutsLocal(s: State, e: Event): seq<Conn> {
    if e.Accept? && e.conn !in s.accepted && |s.localChannel| < s.channelSize then [e.conn] else []
  }

  function GetsLocal(s: State, e: Event): seq<Conn> {
    if e.TakeLocal? && e.loop < |s.loops| && s.loops[e.loop].Idle? && s.localChannel != [] then [s.localChannel[0]]
    else []
  }

  function PutsTunnel(s: State, e: Event): seq<nat> {
    if e.Arrive? && |s.tunnelChannel| < s.channelSize then [|s.tunnels|] else []
  }

  function GetsTunnel(s: State, e: Event): seq<nat> {
    if e.TakeTunnel? && e.loop < |s.loops| && s.loops[e.loop].Selecting?
       && s.tunnelChannel != [] && s.tunnelChannel[0] < |s.tunnels|
    then [s.tunnelChannel[0]] else []
  }

  /** In every run connections and tunnels are received in the order in which they arrived. */
  lemma TakenInOrder(channelSize: nat, loops: nat, es: seq<Event>)
    ensures var s0 := Init(channelSize, loops); var s := Exec(s0, es);
      && Runs.Trace(Next, s0, es, PutsLocal) == Runs.Trace(Next, s0, es, GetsLocal) + s.localChannel
      && Runs.Trace(Next, s0, es, PutsTunnel) == Runs.Trace(Next, s0, es, GetsTunnel) + s.tunnelChannel
  {
    var s0 := Init(channelSize, loops);
    SameRun(s0, es);
    forall u: State, e: Event
      ensures u.localChannel + PutsLocal(u, e) == GetsLocal(u, e) + Next(u, e).localChannel
    {
      LocalNext(u, e);
    }
    Runs.Fifo(Next, s0, es, u => true, (u: State) => u.localChannel, PutsLocal, GetsLocal);
    forall u: State, e: Event
      ensures u.tunnelChannel + PutsTunnel(u, e) == GetsTunnel(u, e) + Next(u, e).tunnelChannel
    {
      TunnelNext(u, e);
    }
    Runs.Fifo(Next, s0, es, u => true, (u: State) => u.tunnelChannel, PutsTunnel, GetsTunnel);
    assert [] + Runs.Trace(Next, s0, es, PutsLocal) == Runs.Trace(Next, s0, es, PutsLocal);
    assert [] + Runs.Trace(Next, s0, es, PutsTunnel) == Runs.Trace(Next, s0, es, PutsTunnel);
  }

  lemma LocalNext(s: State, e: Event)
    ensures s.localChannel + PutsLocal(s, e) == GetsLocal(s, e) + Next(s, e).localChannel
  {
  }

  lemma TunnelNext(s: State, e: Event)
    ensures s.tunnelChannel + PutsTunnel(s, e) == GetsTunnel(s, e) + Next(s, e).tunnelChannel
  {
  }

  // ---- What a tunnel can still carry ----

  lemma ExecCons(s: State, e: Event, es: seq<Event>)
    ensures Exec(s, [e] + es) == Exec(Next(s, e), es)
  {
    assert ([e] + es)[1..] == es;
  }

  /** keepAlive is not at its end, the mutex not taken for the address, the connection open. */
  predicate CanPing(x: Tunnel) {
    !x.connClosed && !x.lock.ByLoop? && !x.beat.Stopped? && !x.beat.Unwinding?
  }

  function BeatRank(b: Beat): nat {
    match b
    case Pinging => 1
    case Locked => 2
    case Waiting => 3
    case Unlocking => 4
    case Unstarted => 4
    case _ => 0
  }

  function BeatAwaited(b: Beat): Op {
    match b
    case Pinging => EndPing(true, true)
    case Locked => BeginPing
    case Waiting => Tick
    case Unlocking => Unlock
    case _ => StartBeat
  }

  predicate PingedAfter(s: State, later: seq<Event>, t: nat, pings: nat) {
    t < |Exec(s, later).tunnels| && Exec(s, later).tunnels[t].pings > pings
  }

  lemma {:induction false} PingLater(s: State, t: nat, pings: nat) returns (later: seq<Event>)
    requires t < |s.tunnels| && TunnelOk(s.tunnels[t]) && CanPing(s.tunnels[t]) && s.tunnels[t].pings >= pings
    ensures PingedAfter(s, later, t, pings)
    decreases BeatRank(s.tunnels[t].beat)
  {
    var x := s.tunnels[t];
    var op := BeatAwaited(x.beat);
    var s' := Next(s, On(t, op));
    OpOk(x, op);
    if x.beat.Pinging? {
      later := [On(t, op)] + [];
      ExecCons(s, On(t, op), []);
    } else {
      var rest := PingLater(s', t, pings);
      later := [On(t, op)] + rest;
      ExecCons(s, On(t, op), rest);
    }
  }

  lemma MuteNext(s: State, e: Event, t: nat)
    requires Inv(s) && t < |s.tunnels| && !CanPing(s.tunnels[t])
    ensures var s' := Next(s, e);
      t < |s'.tunnels| && !CanPing(s'.tunnels[t]) && s'.tunnels[t].pings == s.tunnels[t].pings
  {
    assert TunnelPlaced(s, t);
    match e
    case On(u, op) => if u == t { MuteOp(s.tunnels[t], op); }
    case EndAddress(l, _, _) => if l < |s.loops| { assert LoopPlaced(s, l); }
    case _ =>
  }

  lemma MuteOp(x: Tunnel, op: Op)
    requires TunnelOk(x) && !CanPing(x)
    ensures var x' := TunnelOp(x, op).tunnel; !CanPing(x') && x'.pings == x.pings
  {
    match op
    case StartBeat =>
    case SeePingClosed =>
    case Shut =>
    case Tick =>
    case BeginPing =>
    case EndPing(_, _) =>
    case Unlock =>
    case ClosePing =>
    case TakeLock =>
    case BeginAddress =>
    case BeginData(_) =>
    case EndData(_, _) =>
    case EndRelay =>
  }

  lemma {:induction false} MuteForever(s: State, es: seq<Event>, t: nat)
    requires Inv(s) && t < |s.tunnels| && !CanPing(s.tunnels[t])
    ensures t < |Exec(s, es).tunnels| && Exec(s, es).tunnels[t].pings == s.tunnels[t].pings
    decreases |es|
  {
    if es == [] {
    } else {
      InvNext(s, es[0]);
      MuteNext(s, es[0], t);
      MuteForever(Next(s, es[0]), es[1..], t);
    }
  }

  /** From every reachable state: some continuation pings the client over a tunnel if and only if its
      connection is open, the address has not been begun, and keepAlive has not ended or failed. */
  lemma PingsUntilAddress(channelSize: nat, loops: nat, es: seq<Event>, t: nat)
    requires t < |Exec(Init(channelSize, loops), es).tunnels|
    ensures var s := Exec(Init(channelSize, loops), es); var x := s.tunnels[t];
      (exists later :: PingedAfter(s, later, t, x.pings)) <==> CanPing(x)
  {
    var s := Exec(Init(channelSize, loops), es);
    var x := s.tunnels[t];
    InvExec(Init(channelSize, loops), es);
    assert TunnelPlaced(s, t);
    if CanPing(x) {
      var later := PingLater(s, t, x.pings);
      assert PingedAfter(s, later, t, x.pings);
    } else {
      forall later
        ensures !PingedAfter(s, later, t, x.pings)
      {
        MuteForever(s, later, t);
      }
    }
  }

  /** The relay of a paired tunnel can deliver any message as long as the connection is open and the
      relay runs. */
  lemma DataDelivered(channelSize: nat, loops: nat, es: seq<Event>, t: nat, body: string)
    requires t < |Exec(Init(channelSize, loops), es).tunnels|
    requires var x := Exec(Init(channelSize, loops), es).tunnels[t];
      x.stage.Paired? && !x.connClosed && !x.relayEnded && !x.writer.Relayer?
    ensures var s := Exec(Init(channelSize, loops), es); var x := s.tunnels[t];
      Exec(s, [On(t, BeginData(body))] + ([On(t, EndData(true, true))] + [])) ==
      s.(tunnels := s.tunnels[t := x.(wire := x.wire + [Binary(body)], data := x.data + [body])])
  {
    var s := Exec(Init(channelSize, loops), es);
    InvExec(Init(channelSize, loops), es);
    assert TunnelPlaced(s, t);
    var s1 := Next(s, On(t, BeginData(body)));
    ExecCons(s, On(t, BeginData(body)), [On(t, EndData(true, true))] + []);
    ExecCons(s1, On(t, EndData(true, true)), []);
  }
}
