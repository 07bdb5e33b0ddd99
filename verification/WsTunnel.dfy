/** Pairing of local connections with websocket tunnels (ws.go on the server): every tunnel has
    a keepAlive goroutine that pings it under a mutex, handleLoop goroutines take tunnels from
    tunnelChannel, stop the pings and write the address, and a relay writes the data.  A write
    is two events, begin and end, so overlapping writes are possible in the model; they make
    the websocket library panic, as does closing the ping channel twice. */
module WsTunnel {
  import opened Conns
  import opened Options
  import opened Tables

  const STALE_AFTER := 3000 // milliseconds

  datatype Message = Text(body: string) | Binary(body: string)

  const SG_PING: string := [2 as char]
  const PING := Binary(SG_PING)

  /** Program point of keepAlive; Unwinding is a failed ping before its unlock and close. */
  datatype Beat = Unstarted | Waiting | Locked | Pinging | Unlocking | Unwinding | Stopped

  /** How far a tunnel has come; Taken to Addressing belong to the handleLoop named in loop. */
  datatype Stage =
    | Queued
    | Taken                    // received, ping channel still open
    | Hushed                   // ping channel closed; at mu.Lock()
    | Holding                  // mutex held
    | Addressing               // address write begun
    | Paired                   // relay running or ended
    | Dropped(delivered: bool) // address write failed; the client may have got the address

  datatype Lock = Free | ByBeat | ByLoop

  datatype Writer = Nobody | Pinger | Addresser | Relayer

  /** wire: the messages that reached the client; pings: how many pings lead it; data: the bodies
      of the relay's writes so far, the last of which may be under way or have failed. */
  datatype Tunnel = Tunnel(
    wire: seq<Message>,
    pings: nat,
    lock: Lock,
    pingCloses: nat,
    beat: Beat,
    stage: Stage,
    loop: nat,
    target: Option<Conn>,
    writer: Writer,
    data: seq<string>,
    connClosed: bool,
    relayEnded: bool)

  const NEW_TUNNEL := Tunnel([], 0, Free, 0, Unstarted, Queued, 0, None, Nobody, [], false, false)

  /** Program point of a handleLoop goroutine. */
  datatype Loop = Idle | Checking(conn: Conn) | Selecting(conn: Conn) | Busy(conn: Conn, tunnel: nat)

  datatype State = State(
    channelSize: nat,
    tunnels: seq<Tunnel>,
    tunnelChannel: seq<nat>,
    localChannel: seq<Conn>,
    loops: seq<Loop>,
    accepted: set<Conn>,
    expired: seq<Conn>,
    panicked: bool)

  datatype Event =
    | Arrive
    | Accept(conn: Conn)
    | TakeLocal(loop: nat)
    | CheckAge(loop: nat, now: int)
    | TakeTunnel(loop: nat)
    | EndAddress(loop: nat, ok: bool, delivered: bool)
    | On(tunnel: nat, op: Op)

  datatype Op =
    | StartBeat
    | SeePingClosed
    | Shut
    | Tick
    | BeginPing
    | EndPing(ok: bool, delivered: bool)
    | Unlock
    | ClosePing
    | TakeLock
    | BeginAddress
    | BeginData(body: string)
    | EndData(ok: bool, delivered: bool)
    | EndRelay

  function Init(channelSize: nat, loops: nat): State {
    State(channelSize, [], [], [], seq(loops, _ => Idle), {}, [], false)
  }

  /** The tunnel after an operation, and whether Go would have panicked. */
  datatype Outcome = Outcome(tunnel: Tunnel, panics: bool)

  /** keepAlive. */
  function BeatOp(t: Tunnel, op: Op): Outcome {
    match op
    case StartBeat => Outcome(if t.beat.Unstarted? then t.(beat := Waiting) else t, false)
    case SeePingClosed => Outcome(if t.beat.Waiting? && t.pingCloses > 0 then t.(beat := Stopped) else t, false)
    case Shut => Outcome(if t.beat.Waiting? then t.(beat := Stopped, connClosed := true) else t, false)
    case Tick =>
      // TryLock, whatever the state of the ping channel
      if !t.beat.Waiting? then Outcome(t, false)
      else Outcome(if t.lock.Free? then t.(beat := Locked, lock := ByBeat) else t.(beat := Stopped), false)
    case BeginPing =>
      if t.beat.Locked? then Outcome(t.(beat := Pinging, writer := Pinger), t.writer != Nobody) else Outcome(t, false)
    case EndPing(ok, delivered) =>
      if !t.beat.Pinging? then Outcome(t, false)
      else if ok && !t.connClosed then
        Outcome(t.(beat := Unlocking, writer := Nobody, wire := t.wire + [PING], pings := t.pings + 1), false)
      else if delivered && !t.connClosed then
        Outcome(t.(beat := Unwinding, writer := Nobody, wire := t.wire + [PING], pings := t.pings + 1), false)
      else Outcome(t.(beat := Unwinding, writer := Nobody), false)
    case Unlock =>
      if t.beat.Unlocking? then Outcome(t.(beat := Waiting, lock := Free), false)
      else if t.beat.Unwinding? then Outcome(t.(beat := Stopped, lock := Free, connClosed := true), false)
      else Outcome(t, false)
    case _ => Outcome(t, false)
  }

  /** handleLoop between receiving a tunnel and the end of the address write. */
  function PairOp(t: Tunnel, op: Op): Outcome {
    match op
    case ClosePing =>
      if t.stage.Taken? then Outcome(t.(stage := Hushed, pingCloses := t.pingCloses + 1), t.pingCloses > 0)
      else Outcome(t, false)
    case TakeLock =>
      Outcome(if t.stage.Hushed? && t.lock.Free? then t.(stage := Holding, lock := ByLoop) else t, false)
    case BeginAddress =>
      if t.stage.Holding? then Outcome(t.(stage := Addressing, writer := Addresser), t.writer != Nobody)
      else Outcome(t, false)
    case _ => Outcome(t, false)
  }

  /** The relay's writes to the tunnel. */
  function RelayOp(t: Tunnel, op: Op): Outcome {
    match op
    case BeginData(body) =>
      if t.stage.Paired? && !t.relayEnded && t.writer != Relayer then
        Outcome(t.(writer := Relayer, data := t.data + [body]), t.writer != Nobody)
      else Outcome(t, false)
    case EndData(ok, delivered) =>
      if t.writer != Relayer || t.data == [] then Outcome(t, false)
      else
        var sent := (ok || delivered) && !t.connClosed;
        var fine := ok && !t.connClosed;
        Outcome(t.(writer := Nobody, wire := if sent then t.wire + [Binary(t.data[|t.data| - 1])] else t.wire,
                   relayEnded := !fine, connClosed := t.connClosed || !fine), false)
    case EndRelay =>
      Outcome(if t.stage.Paired? && t.writer != Relayer then t.(relayEnded := true, connClosed := true) else t, false)
    case _ => Outcome(t, false)
  }

  function TunnelOp(t: Tunnel, op: Op): Outcome {
    if op.ClosePing? || op.TakeLock? || op.BeginAddress? then PairOp(t, op)
    else if op.BeginData? || op.EndData? || op.EndRelay? then RelayOp(t, op)
    else BeatOp(t, op)
  }

  /** The end of an address write: the relay starts, or the tunnel is given up. */
  function Addressed(t: Tunnel, ok: bool, delivered: bool): Tunnel {
    if t.target.None? then t
    else if ok && !t.connClosed then
      t.(stage := Paired, writer := Nobody, wire := t.wire + [Text(t.target.value.remoteAddr)])
    else if delivered && !t.connClosed then
      t.(stage := Dropped(true), writer := Nobody, connClosed := true,
         wire := t.wire + [Text(t.target.value.remoteAddr)])
    else t.(stage := Dropped(false), writer := Nobody, connClosed := true)
  }

  function LoopNext(s: State, l: nat, e: Event): State
    requires l < |s.loops|
  {
    var p := s.loops[l];
    match e
    case TakeLocal(_) =>
      if p.Idle? && s.localChannel != [] then
        s.(loops := s.loops[l := Checking(s.localChannel[0])], localChannel := s.localChannel[1..])
      else s
    case CheckAge(_, now) =>
      if !p.Checking? then s
      else if now - p.conn.timeCreated > STALE_AFTER then
        s.(loops := s.loops[l := Idle], expired := s.expired + [p.conn])
      else s.(loops := s.loops[l := Selecting(p.conn)])
    case TakeTunnel(_) =>
      if p.Selecting? && s.tunnelChannel != [] && s.tunnelChannel[0] < |s.tunnels| then
        var t := s.tunnelChannel[0];
        s.(loops := s.loops[l := Busy(p.conn, t)], tunnelChannel := s.tunnelChannel[1..],
           tunnels := s.tunnels[t := s.tunnels[t].(stage := Taken, loop := l, target := Some(p.conn))])
      else s
    case EndAddress(_, ok, delivered) =>
      if p.Busy? && p.tunnel < |s.tunnels| && s.tunnels[p.tunnel].stage.Addressing? then
        var x := Addressed(s.tunnels[p.tunnel], ok, delivered);
        s.(tunnels := s.tunnels[p.tunnel := x],
           loops := s.loops[l := if x.stage.Paired? then Idle else Checking(p.conn)])
      else s
    case _ => s
  }

  function Next(s: State, e: Event): State {
    match e
    case Arrive =>
      if |s.tunnelChannel| < s.channelSize then
        s.(tunnels := s.tunnels + [NEW_TUNNEL], tunnelChannel := s.tunnelChannel + [|s.tunnels|])
      else s
    case Accept(c) =>
      if c !in s.accepted && |s.localChannel| < s.channelSize then
        s.(localChannel := s.localChannel + [c], accepted := s.accepted + {c})
      else s
    case On(t, op) =>
      if t < |s.tunnels| then
        var r := TunnelOp(s.tunnels[t], op);
        s.(tunnels := s.tunnels[t := r.tunnel], panicked := s.panicked || r.panics)
      else s
    case _ => if e.loop < |s.loops| then LoopNext(s, e.loop, e) else s
  }

  function Exec(s: State, es: seq<Event>): State
    decreases |es|
  {
    if es == [] then s else Exec(Next(s, es[0]), es[1..])
  }

  // ---- The invariant of one tunnel ----

  predicate InHand(g: Stage) { g.Taken? || g.Hushed? || g.Holding? || g.Addressing? }

  /** The address has reached the client's side of the wire. */
  predicate Addressee(g: Stage) { g.Paired? || g == Dropped(true) }

  predicate PingsOnly(wire: seq<Message>) { forall i :: 0 <= i < |wire| ==> wire[i] == PING }

  /** Pings, then the target's address, then what the relay wrote: all of it, unless the last
      write is under way or was the end of the relay. */
  predicate Framed(t: Tunnel) {
    && t.target.Some?
    && t.pings < |t.wire|
    && PingsOnly(t.wire[..t.pings])
    && t.wire[t.pings] == Text(t.target.value.remoteAddr)
    && t.wire[t.pings + 1..] <= Datas(t.data)
    && (if t.writer.Relayer? then !t.relayEnded && |t.data| == |t.wire| - t.pings
        else if t.relayEnded then |t.data| <= |t.wire| - t.pings
        else |t.data| == |t.wire| - t.pings - 1)
  }

  /** The messages of a relay's writes. */
  function Datas(bodies: seq<string>): seq<Message> {
    seq(|bodies|, i requires 0 <= i < |bodies| => Binary(bodies[i]))
  }

  predicate TunnelOk(t: Tunnel) {
    && (t.lock.ByBeat? <==> t.beat.Locked? || t.beat.Pinging? || t.beat.Unlocking? || t.beat.Unwinding?)
    && (t.lock.ByLoop? <==> t.stage.Holding? || t.stage.Addressing? || t.stage.Paired? || t.stage.Dropped?)
    && (t.writer.Pinger? <==> t.beat.Pinging?)
    && (t.writer.Addresser? <==> t.stage.Addressing?)
    && (t.writer.Relayer? ==> t.stage.Paired?)
    && t.pingCloses == (if t.stage.Queued? || t.stage.Taken? then 0 else 1)
    && (t.target.Some? <==> !t.stage.Queued?)
    && (if Addressee(t.stage) then Framed(t) else t.pings == |t.wire| && PingsOnly(t.wire) && t.data == [])
  }

  lemma BeatOk(t: Tunnel, op: Op)
    requires TunnelOk(t)
    ensures TunnelOk(BeatOp(t, op).tunnel) && !BeatOp(t, op).panics
    ensures var t' := BeatOp(t, op).tunnel; t'.stage == t.stage && t'.loop == t.loop && t'.target == t.target
  {
    match op
    case EndPing(_, _) => PingOk(t, op);
    case Tick =>
    case BeginPing =>
    case Unlock =>
    case _ =>
  }

  lemma PingOk(t: Tunnel, op: Op)
    requires TunnelOk(t) && op.EndPing?
    ensures TunnelOk(BeatOp(t, op).tunnel) && !BeatOp(t, op).panics
  {
    if t.beat.Pinging? { assert !Addressee(t.stage) && PingsOnly(t.wire + [PING]); }
  }

  lemma PairOk(t: Tunnel, op: Op)
    requires TunnelOk(t)
    ensures TunnelOk(PairOp(t, op).tunnel) && !PairOp(t, op).panics
    ensures var t' := PairOp(t, op).tunnel;
      (t' == t || (InHand(t.stage) && InHand(t'.stage))) && t'.loop == t.loop && t'.target == t.target
  {
  }

  lemma RelayOk(t: Tunnel, op: Op)
    requires TunnelOk(t)
    ensures TunnelOk(RelayOp(t, op).tunnel) && !RelayOp(t, op).panics
    ensures var t' := RelayOp(t, op).tunnel; t'.stage == t.stage && t'.loop == t.loop && t'.target == t.target
  {
    var t' := RelayOp(t, op).tunnel;
    if Addressee(t.stage) {
      assert t'.wire[..t.pings] == t.wire[..t.pings];
      if op.BeginData? { assert Datas(t.data + [op.body]) == Datas(t.data) + [Binary(op.body)]; }
      if |t'.wire| > |t.wire| {
        assert t'.wire[t.pings + 1..] == t.wire[t.pings + 1..] + [Datas(t.data)[|t.data| - 1]];
      }
    }
  }

  lemma OpOk(t: Tunnel, op: Op)
    requires TunnelOk(t)
    ensures TunnelOk(TunnelOp(t, op).tunnel) && !TunnelOp(t, op).panics
    ensures var t' := TunnelOp(t, op).tunnel;
      (t'.stage == t.stage || (InHand(t.stage) && InHand(t'.stage))) && t'.loop == t.loop && t'.target == t.target
  {
    BeatOk(t, op);
    PairOk(t, op);
    RelayOk(t, op);
  }

  lemma AddressedOk(t: Tunnel, ok: bool, delivered: bool)
    requires TunnelOk(t) && t.stage.Addressing?
    ensures TunnelOk(Addressed(t, ok, delivered))
  {
    var t' := Addressed(t, ok, delivered);
    if Addressee(t'.stage) { assert t'.wire[..t.pings] == t.wire && t'.wire[t.pings + 1..] == []; }
  }

  // ---- The invariant of the whole ----

  /** A loop and the tunnel in its hands name each other. */
  predicate TunnelPlaced(s: State, t: nat)
    requires t < |s.tunnels|
  {
    var x := s.tunnels[t];
    && TunnelOk(x)
    && (x.stage.Queued? <==> t in s.tunnelChannel)
    && (InHand(x.stage) ==> x.loop < |s.loops| && s.loops[x.loop] == Busy(x.target.value, t))
  }

  predicate LoopPlaced(s: State, l: nat)
    requires l < |s.loops|
  {
    var p := s.loops[l];
    p.Busy? ==> p.tunnel < |s.tunnels| && InHand(s.tunnels[p.tunnel].stage) && s.tunnels[p.tunnel].loop == l
                && s.tunnels[p.tunnel].target == Some(p.conn)
  }

  predicate Inv(s: State) {
    && !s.panicked
    && (forall i :: 0 <= i < |s.tunnelChannel| ==> s.tunnelChannel[i] < |s.tunnels|)
    && (forall i, j :: 0 <= i < j < |s.tunnelChannel| ==> s.tunnelChannel[i] != s.tunnelChannel[j])
    && (forall t :: 0 <= t < |s.tunnels| ==> TunnelPlaced(s, t))
    && (forall l :: 0 <= l < |s.loops| ==> LoopPlaced(s, l))
  }

  lemma InvOn(s: State, t: nat, op: Op)
    requires Inv(s) && t < |s.tunnels|
    ensures Inv(Next(s, On(t, op)))
  {
    var s' := Next(s, On(t, op));
    var x := s.tunnels[t];
    assert TunnelPlaced(s, t);
    OpOk(x, op);
    forall u | 0 <= u < |s'.tunnels|
      ensures TunnelPlaced(s', u)
    {
      assert TunnelPlaced(s, u);
    }
    forall l | 0 <= l < |s'.loops|
      ensures LoopPlaced(s', l)
    {
      assert LoopPlaced(s, l);
    }
  }

  lemma InvTakeTunnel(s: State, l: nat)
    requires Inv(s) && l < |s.loops|
    ensures Inv(LoopNext(s, l, TakeTunnel(l)))
  {
    var s' := LoopNext(s, l, TakeTunnel(l));
    if s.tunnelChannel != [] { assert TunnelPlaced(s, s.tunnelChannel[0]); }
    forall u | 0 <= u < |s'.tunnels|
      ensures TunnelPlaced(s', u)
    {
      assert TunnelPlaced(s, u);
    }
    forall k | 0 <= k < |s'.loops|
      ensures LoopPlaced(s', k)
    {
      assert LoopPlaced(s, k);
    }
  }

  lemma InvEndAddress(s: State, l: nat, ok: bool, delivered: bool)
    requires Inv(s) && l < |s.loops|
    ensures Inv(LoopNext(s, l, EndAddress(l, ok, delivered)))
  {
    var s' := LoopNext(s, l, EndAddress(l, ok, delivered));
    assert LoopPlaced(s, l);
    if s' != s {
      assert TunnelPlaced(s, s.loops[l].tunnel);
      AddressedOk(s.tunnels[s.loops[l].tunnel], ok, delivered);
    }
    forall u | 0 <= u < |s'.tunnels|
      ensures TunnelPlaced(s', u)
    {
      assert TunnelPlaced(s, u);
    }
    forall k | 0 <= k < |s'.loops|
      ensures LoopPlaced(s', k)
    {
      assert LoopPlaced(s, k);
    }
  }

  /** Events that only move a local connection, or bring a tunnel. */
  lemma InvOther(s: State, e: Event)
    requires Inv(s) && (e.Arrive? || e.Accept? || e.TakeLocal? || e.CheckAge?)
    ensures Inv(Next(s, e))
  {
    var s' := Next(s, e);
    forall u | 0 <= u < |s'.tunnels|
      ensures TunnelPlaced(s', u)
    {
      if u < |s.tunnels| { assert TunnelPlaced(s, u); }
    }
    forall k | 0 <= k < |s'.loops|
      ensures LoopPlaced(s', k)
    {
      assert LoopPlaced(s, k);
    }
  }

  lemma InvNext(s: State, e: Event)
    requires Inv(s)
    ensures Inv(Next(s, e))
  {
    match e
    case On(t, op) => if t < |s.tunnels| { InvOn(s, t, op); }
    case TakeTunnel(l) => if l < |s.loops| { InvTakeTunnel(s, l); }
    case EndAddress(l, ok, delivered) => if l < |s.loops| { InvEndAddress(s, l, ok, delivered); }
    case _ => InvOther(s, e);
  }

  lemma {:induction false} InvExec(s: State, es: seq<Event>)
    requires Inv(s)
    ensures Inv(Exec(s, es))
    decreases |es|
  {
    if es == [] {
    } else {
      InvNext(s, es[0]);
      InvExec(Next(s, es[0]), es[1..]);
    }
  }

  // ---- Where a local connection is ----

  function HeldBy(c: Conn): Loop -> nat { (p: Loop) => if !p.Idle? && p.conn == c then 1 else 0 }

  /** Relays started for c: a tunnel stays Paired when its relay has ended. */
  function RelayFor(c: Conn): Tunnel -> nat { (t: Tunnel) => if t.stage.Paired? && t.target == Some(c) then 1 else 0 }

  ghost predicate Conserved(s: State, c: Conn) {
    Sum(s.localChannel, Is(c)) + Sum(s.loops, HeldBy(c)) + Sum(s.tunnels, RelayFor(c)) + Sum(s.expired, Is(c))
    == if c in s.accepted then 1 else 0
  }

  lemma ConservedReceive(s: State, l: nat, c: Conn)
    requires Inv(s) && Conserved(s, c) && l < |s.loops|
    ensures Conserved(LoopNext(s, l, TakeTunnel(l)), c)
  {
    var s' := LoopNext(s, l, TakeTunnel(l));
    if s' != s {
      var t := s.tunnelChannel[0];
      assert TunnelPlaced(s, t);
      SumUpdate(s.loops, l, s'.loops[l], HeldBy(c));
      SumUpdate(s.tunnels, t, s'.tunnels[t], RelayFor(c));
    }
  }

  lemma ConservedEnd(s: State, l: nat, ok: bool, delivered: bool, c: Conn)
    requires Inv(s) && Conserved(s, c) && l < |s.loops|
    ensures Conserved(LoopNext(s, l, EndAddress(l, ok, delivered)), c)
  {
    var s' := LoopNext(s, l, EndAddress(l, ok, delivered));
    if s' != s {
      var t := s.loops[l].tunnel;
      assert LoopPlaced(s, l);
      assert HeldBy(c)(s'.loops[l]) + RelayFor(c)(s'.tunnels[t]) == HeldBy(c)(s.loops[l]);
      SumUpdate(s.loops, l, s'.loops[l], HeldBy(c));
      SumUpdate(s.tunnels, t, s'.tunnels[t], RelayFor(c));
    }
  }

  lemma ConservedTake(s: State, l: nat, c: Conn)
    requires Conserved(s, c) && l < |s.loops|
    ensures Conserved(LoopNext(s, l, TakeLocal(l)), c)
  {
    if s.loops[l].Idle? && s.localChannel != [] {
      SumUpdate(s.loops, l, Checking(s.localChannel[0]), HeldBy(c));
      assert Sum(s.localChannel, Is(c)) == Is(c)(s.localChannel[0]) + Sum(s.localChannel[1..], Is(c));
    }
  }

  lemma ConservedCheck(s: State, l: nat, now: int, c: Conn)
    requires Conserved(s, c) && l < |s.loops|
    ensures Conserved(LoopNext(s, l, CheckAge(l, now)), c)
  {
    if s.loops[l].Checking? {
      var d := s.loops[l].conn;
      assert HeldBy(c)(s.loops[l]) == HeldBy(c)(Selecting(d)) == Is(c)(d);
      if now - d.timeCreated > STALE_AFTER {
        SumUpdate(s.loops, l, Idle, HeldBy(c));
        SumAppend(s.expired, d, Is(c));
      } else {
        SumUpdate(s.loops, l, Selecting(d), HeldBy(c));
      }
    }
  }

  /** Only the end of an address write pairs a tunnel. */
  lemma SamePairing(x: Tunnel, op: Op)
    ensures (TunnelOp(x, op).tunnel.stage.Paired? <==> x.stage.Paired?) && TunnelOp(x, op).tunnel.target == x.target
  {
  }

  lemma ConservedOn(s: State, t: nat, op: Op, c: Conn)
    requires Conserved(s, c) && t < |s.tunnels|
    ensures Conserved(Next(s, On(t, op)), c)
  {
    var x := s.tunnels[t];
    SamePairing(x, op);
    assert RelayFor(c)(TunnelOp(x, op).tunnel) == RelayFor(c)(x);
    SumUpdate(s.tunnels, t, TunnelOp(x, op).tunnel, RelayFor(c));
  }

  lemma ConservedNext(s: State, e: Event, c: Conn)
    requires Inv(s) && Conserved(s, c)
    ensures Conserved(Next(s, e), c)
  {
    match e
    case Arrive => SumAppend(s.tunnels, NEW_TUNNEL, RelayFor(c));
    case Accept(d) => SumAppend(s.localChannel, d, Is(c));
    case On(t, op) => if t < |s.tunnels| { ConservedOn(s, t, op, c); }
    case TakeLocal(l) => if l < |s.loops| { ConservedTake(s, l, c); }
    case CheckAge(l, now) => if l < |s.loops| { ConservedCheck(s, l, now, c); }
    case TakeTunnel(l) => if l < |s.loops| { ConservedReceive(s, l, c); }
    case EndAddress(l, ok, delivered) => if l < |s.loops| { ConservedEnd(s, l, ok, delivered, c); }
  }

  lemma {:induction false} ConservedExec(s: State, es: seq<Event>, c: Conn)
    requires Inv(s) && Conserved(s, c)
    ensures Conserved(Exec(s, es), c)
    decreases |es|
  {
    if es == [] {
    } else {
      InvNext(s, es[0]);
      ConservedNext(s, es[0], c);
      ConservedExec(Next(s, es[0]), es[1..], c);
    }
  }

  lemma Reached(channelSize: nat, loops: nat, es: seq<Event>, c: Conn)
    ensures var s := Exec(Init(channelSize, loops), es); Inv(s) && Conserved(s, c)
  {
    SumZero(seq(loops, _ => Idle), HeldBy(c));
    InvExec(Init(channelSize, loops), es);
    ConservedExec(Init(channelSize, loops), es, c);
  }

  // ---- What the client reads ----

  /** tunnelDialer: skip messages equal to the ping byte; the next one is the address. */
  function ReadAddress(wire: seq<Message>): Option<(string, seq<Message>)> {
    if wire == [] then None
    else if wire[0].body == SG_PING then ReadAddress(wire[1..])
    else Some((wire[0].body, wire[1..]))
  }

  method TunnelDialer(wire: seq<Message>) returns (result: Option<(string, seq<Message>)>)
    ensures result == ReadAddress(wire)
  {
    var next := 0;
    while next < |wire|
      invariant next <= |wire| && ReadAddress(wire) == ReadAddress(wire[next..])
    {
      var message := wire[next];
      next := next + 1;
      if message.body != SG_PING { return Some((message.body, wire[next..])); }
    }
    return None;
  }

  lemma {:induction false} SkipPings(wire: seq<Message>, k: nat)
    requires k <= |wire| && PingsOnly(wire[..k])
    ensures ReadAddress(wire) == ReadAddress(wire[k..])
  {
    if k == 0 {
    } else {
      assert wire[..k][0] == PING;
      assert wire[1..][..k - 1] == wire[..k][1..];
      SkipPings(wire[1..], k - 1);
      assert wire[1..][k - 1..] == wire[k..];
    }
  }

  // ---- Main results, over every interleaving ----

  function Pings(n: nat): seq<Message> { seq(n, _ => PING) }

  /** The grammar of a tunnel's messages: pings; then, once and for all, the address of the one
      connection the tunnel was taken for; then the relay's writes in order, of which only the
      last may be missing. */
  predicate Grammar(x: Tunnel) {
    && x.pings <= |x.wire|
    && if x.pings == |x.wire| then x.wire == Pings(x.pings)
       else
         var delivered := |x.wire| - x.pings - 1;
         && x.target.Some? && delivered <= |x.data| <= delivered + 1
         && x.wire == Pings(x.pings) + [Text(x.target.value.remoteAddr)] + Datas(x.data[..delivered])
  }

  /** Writes on a tunnel never overlap and its ping channel is closed at most once (either would
      panic), and what reached the client is of the form Ping* Address Data*: the data are the
      relay's writes, and neither a ping nor anything else is ever among them. */
  lemma WireGrammar(channelSize: nat, loops: nat, es: seq<Event>, t: nat)
    requires t < |Exec(Init(channelSize, loops), es).tunnels|
    ensures var s := Exec(Init(channelSize, loops), es); var x := s.tunnels[t];
      && !s.panicked && x.pingCloses <= 1
      && Grammar(x)
      && (x.pings < |x.wire| ==> !x.lock.ByBeat?)
      && (x.stage.Paired? ==> x.pings < |x.wire|)
  {
    var s := Exec(Init(channelSize, loops), es);
    InvExec(Init(channelSize, loops), es);
    assert TunnelPlaced(s, t);
    GrammarOk(s.tunnels[t]);
  }

  lemma GrammarOk(x: Tunnel)
    requires TunnelOk(x)
    ensures Grammar(x)
  {
    if Addressee(x.stage) {
      var delivered := |x.wire| - x.pings - 1;
      assert x.wire[..x.pings] == Pings(x.pings);
      assert x.wire[x.pings + 1..] == Datas(x.data)[..delivered] == Datas(x.data[..delivered]);
      assert x.wire == x.wire[..x.pings] + [x.wire[x.pings]] + x.wire[x.pings + 1..];
    } else {
      assert x.wire == Pings(x.pings);
    }
  }

  /** Reading any part of a tunnel's messages the client has either seen pings only, or obtains
      the paired connection's address, with the relay's messages and nothing else behind it, if
      and only if that address is not itself the ping byte. */
  lemma ClientGetsAddress(channelSize: nat, loops: nat, es: seq<Event>, t: nat, arrived: seq<Message>)
    requires t < |Exec(Init(channelSize, loops), es).tunnels|
    requires arrived <= Exec(Init(channelSize, loops), es).tunnels[t].wire
    ensures var x := Exec(Init(channelSize, loops), es).tunnels[t];
      if |arrived| <= x.pings then ReadAddress(arrived) == None
      else
        && x.target.Some? && arrived[x.pings + 1..] <= Datas(x.data)
        && (ReadAddress(arrived) == Some((x.target.value.remoteAddr, arrived[x.pings + 1..]))
            <==> x.target.value.remoteAddr != SG_PING)
  {
    InvExec(Init(channelSize, loops), es);
    assert TunnelPlaced(Exec(Init(channelSize, loops), es), t);
    var x := Exec(Init(channelSize, loops), es).tunnels[t];
    if |arrived| <= x.pings {
      assert arrived[..|arrived|] == x.wire[..x.pings][..|arrived|];
      SkipPings(arrived, |arrived|);
    } else {
      assert arrived[..x.pings] == x.wire[..x.pings];
      SkipPings(arrived, x.pings);
      assert arrived[x.pings..][1..] == arrived[x.pings + 1..] <= x.wire[x.pings + 1..];
      AddressNotPing(arrived[x.pings + 1..]);
    }
  }

  /** Whatever the reader returns, it is not the ping byte. */
  lemma {:induction false} AddressNotPing(wire: seq<Message>)
    ensures ReadAddress(wire).Some? ==> ReadAddress(wire).value.0 != SG_PING
  {
    if wire == [] {
    } else {
      AddressNotPing(wire[1..]);
    }
  }

  /** A local connection is in one place, so at most one relay is ever started for it. */
  lemma OneRelayEach(channelSize: nat, loops: nat, es: seq<Event>, c: Conn)
    ensures var s := Exec(Init(channelSize, loops), es);
      && Sum(s.localChannel, Is(c)) + Sum(s.loops, HeldBy(c)) + Sum(s.tunnels, RelayFor(c)) + Sum(s.expired, Is(c))
         == (if c in s.accepted then 1 else 0)
      && (forall t, u :: 0 <= t < u < |s.tunnels| ==> RelayFor(c)(s.tunnels[t]) == 0 || RelayFor(c)(s.tunnels[u]) == 0)
  {
    var s := Exec(Init(channelSize, loops), es);
    Reached(channelSize, loops, es, c);
    forall t, u | 0 <= t < u < |s.tunnels|
      ensures RelayFor(c)(s.tunnels[t]) == 0 || RelayFor(c)(s.tunnels[u]) == 0
    {
      SumPair(s.tunnels, t, u, RelayFor(c));
    }
  }

  // ---- The age check, over whole runs ----

  /** The event is a loop's check of this very connection, and finds it too old, or not. */
  predicate ChecksOld(s: State, e: Event, c: Conn) {
    e.CheckAge? && e.loop < |s.loops| && s.loops[e.loop] == Checking(c) && e.now > c.timeCreated + 3000
  }

  predicate ChecksYoung(s: State, e: Event, l: nat, c: Conn) {
    e.CheckAge? && e.loop == l < |s.loops| && s.loops[l] == Checking(c) && e.now <= c.timeCreated + 3000
  }

  predicate Selects(s: State, l: nat, c: Conn) { l < |s.loops| && s.loops[l] == Selecting(c) }

  /** The loop's latest check was of c, found it young, and has not been acted on yet. */
  predicate Fresh(s: State, es: seq<Event>, l: nat, c: Conn) {
    exists j :: 0 <= j < |es| && ChecksYoung(Exec(s, es[..j]), es[j], l, c)
      && forall i :: j < i <= |es| ==> Selects(Exec(s, es[..i]), l, c)
  }

  predicate Receives(s: State, e: Event, t: nat) { e.TakeTunnel? && s.tunnelChannel != [] && s.tunnelChannel[0] == t }

  lemma {:induction false} ExecLast(s: State, es: seq<Event>)
    requires es != []
    ensures Exec(s, es) == Next(Exec(s, es[..|es| - 1]), es[|es| - 1])
    decreases |es|
  {
    if |es| == 1 {
      assert es[1..] == [] && es[..0] == [];
    } else {
      ExecLast(Next(s, es[0]), es[1..]);
      assert es[1..][..|es| - 2] == es[..|es| - 1][1..];
    }
  }

  lemma ExpiredNext(s: State, e: Event, c: Conn)
    ensures c in Next(s, e).expired <==> c in s.expired || ChecksOld(s, e, c)
  {
  }

  /** A connection is closed unpaired exactly when a check of it found it over three seconds old. */
  lemma {:induction false} ExpiredWhen(s: State, es: seq<Event>, c: Conn)
    requires c !in s.expired
    ensures c in Exec(s, es).expired <==> exists k :: 0 <= k < |es| && ChecksOld(Exec(s, es[..k]), es[k], c)
    decreases |es|
  {
    if es == [] {
      assert c !in Exec(s, es).expired;
    } else {
      var n := |es| - 1;
      var before := es[..n];
      ExecLast(s, es);
      ExpiredNext(Exec(s, before), es[n], c);
      ExpiredWhen(s, before, c);
      assert forall k :: 0 <= k < n ==> before[..k] == es[..k] && before[k] == es[k];
    }
  }

  lemma SelectsNext(s: State, e: Event, l: nat, c: Conn)
    requires Selects(Next(s, e), l, c)
    ensures Selects(s, l, c) || ChecksYoung(s, e, l, c)
  {
  }

  lemma FreshExtends(s: State, es: seq<Event>, l: nat, c: Conn)
    requires es != [] && Fresh(s, es[..|es| - 1], l, c) && Selects(Exec(s, es), l, c)
    ensures Fresh(s, es, l, c)
  {
    var before := es[..|es| - 1];
    var j :| 0 <= j < |before| && ChecksYoung(Exec(s, before[..j]), before[j], l, c)
      && forall i :: j < i <= |before| ==> Selects(Exec(s, before[..i]), l, c);
    assert before[..j] == es[..j] && before[j] == es[j];
    forall i | j < i <= |es| ensures Selects(Exec(s, es[..i]), l, c) {
      if i == |es| {
        assert es[..i] == es;
      } else {
        assert before[..i] == es[..i];
      }
    }
  }

  lemma {:induction false} SelectsFresh(s: State, es: seq<Event>, l: nat, c: Conn)
    requires !Selects(s, l, c) && Selects(Exec(s, es), l, c)
    ensures Fresh(s, es, l, c)
    decreases |es|
  {
    if es == [] {
    } else {
      var n := |es| - 1;
      var before := es[..n];
      ExecLast(s, es);
      SelectsNext(Exec(s, before), es[n], l, c);
      if Selects(Exec(s, before), l, c) {
        SelectsFresh(s, before, l, c);
        FreshExtends(s, es, l, c);
      } else {
        assert es[..n + 1] == es;
      }
    }
  }

  lemma TargetNext(s: State, e: Event, t: nat, c: Conn)
    requires t < |Next(s, e).tunnels| && Next(s, e).tunnels[t].target == Some(c)
    ensures (t < |s.tunnels| && s.tunnels[t].target == Some(c)) || (Receives(s, e, t) && Selects(s, e.loop, c))
  {
    match e
    case On(u, op) => if u < |s.tunnels| { SamePairing(s.tunnels[u], op); }
    case EndAddress(_, ok, delivered) => if t < |s.tunnels| { AddressedTarget(s.tunnels[t], ok, delivered); }
    case _ =>
  }

  lemma AddressedTarget(t: Tunnel, ok: bool, delivered: bool)
    ensures Addressed(t, ok, delivered).target == t.target
  {
  }

  /** The tunnel was taken by a loop whose latest check had found c young. */
  predicate TakenFresh(s: State, es: seq<Event>, t: nat, c: Conn) {
    exists k :: 0 <= k < |es| && Receives(Exec(s, es[..k]), es[k], t) && Fresh(s, es[..k], es[k].loop, c)
  }

  lemma {:induction false} TargetTaken(s: State, es: seq<Event>, t: nat, c: Conn)
    requires |s.tunnels| <= t && (forall l :: !Selects(s, l, c))
    requires t < |Exec(s, es).tunnels| && Exec(s, es).tunnels[t].target == Some(c)
    ensures TakenFresh(s, es, t, c)
    decreases |es|
  {
    if es == [] {
    } else {
      var n := |es| - 1;
      var before := es[..n];
      var s' := Exec(s, before);
      ExecLast(s, es);
      TargetNext(s', es[n], t, c);
      if t < |s'.tunnels| && s'.tunnels[t].target == Some(c) {
        TargetTaken(s, before, t, c);
        assert forall k :: 0 <= k < n ==> before[..k] == es[..k] && before[k] == es[k];
      } else {
        SelectsFresh(s, before, es[n].loop, c);
      }
    }
  }

  /** In every run a connection is closed unpaired exactly when a loop's check of it found it more
      than three seconds old, and every tunnel taken for it was taken by a loop whose check just
      before, of that connection, had found it at most that old; a retry checks anew. */
  lemma AgeRespected(channelSize: nat, loops: nat, es: seq<Event>, c: Conn)
    ensures var s0 := Init(channelSize, loops); var s := Exec(s0, es);
      && (c in s.expired <==> exists k :: 0 <= k < |es| && ChecksOld(Exec(s0, es[..k]), es[k], c))
      && (forall t :: 0 <= t < |s.tunnels| && s.tunnels[t].target == Some(c) ==> TakenFresh(s0, es, t, c))
  {
    var s0 := Init(channelSize, loops);
    var s := Exec(s0, es);
    ExpiredWhen(s0, es, c);
    forall t | 0 <= t < |s.tunnels| && s.tunnels[t].target == Some(c) ensures TakenFresh(s0, es, t, c) {
      TargetTaken(s0, es, t, c);
    }
  }

  predicate Settled(g: Stage) { g.Paired? || g.Dropped? }

  lemma SettledNext(s: State, e: Event, t: nat)
    requires Inv(s) && t < |s.tunnels| && Settled(s.tunnels[t].stage)
    ensures t < |Next(s, e).tunnels|
    ensures Next(s, e).tunnels[t].stage == s.tunnels[t].stage && Next(s, e).tunnels[t].target == s.tunnels[t].target
  {
    assert TunnelPlaced(s, t);
    match e
    case On(u, op) =>
      BeatOk(s.tunnels[t], op);
      PairOk(s.tunnels[t], op);
      RelayOk(s.tunnels[t], op);
    case TakeTunnel(l) => if s.tunnelChannel != [] { assert TunnelPlaced(s, s.tunnelChannel[0]); }
    case _ =>
  }

  /** A tunnel is used once: paired, it keeps its connection; after a failed address write it is
      never paired. */
  lemma {:induction false} UsedOnce(s: State, es: seq<Event>, t: nat)
    requires Inv(s) && t < |s.tunnels| && Settled(s.tunnels[t].stage)
    ensures t < |Exec(s, es).tunnels|
    ensures Exec(s, es).tunnels[t].stage == s.tunnels[t].stage && Exec(s, es).tunnels[t].target == s.tunnels[t].target
    decreases |es|
  {
    if es == [] {
    } else {
      InvNext(s, es[0]);
      SettledNext(s, es[0], t);
      UsedOnce(Next(s, es[0]), es[1..], t);
    }
  }

  /** The number of tunnels the loops receive in a run. */
  function Takes(s: State, es: seq<Event>): nat
    decreases |es|
  {
    if es == [] then 0
    else (if es[0].TakeTunnel? && Next(s, es[0]) != s then 1 else 0) + Takes(Next(s, es[0]), es[1..])
  }

  /** Every attempt to pair, first or repeated, uses up a tunnel: as long as none arrives there
      are no more attempts than tunnels were queued. */
  lemma {:induction false} RetryBound(s: State, es: seq<Event>)
    requires forall e :: e in es ==> !e.Arrive?
    ensures Takes(s, es) + |Exec(s, es).tunnelChannel| == |s.tunnelChannel|
    decreases |es|
  {
    if es == [] {
    } else {
      assert es[0] in es;
      assert forall e :: e in es[1..] ==> e in es;
      RetryBound(Next(s, es[0]), es[1..]);
    }
  }

  // ---- The transport object ----

  /** The channels and tunnels of WsTransport with the program points of its goroutines; Fire
      performs one operation in place. */
  class WsTransport {
    const channelSize: nat
    var tunnels: seq<Tunnel>
    var tunnelChannel: seq<nat>
    var localChannel: seq<Conn>
    var loops: seq<Loop>
    ghost var accepted: set<Conn>
    ghost var expired: seq<Conn>
    ghost var panicked: bool

    ghost function View(): State
      reads this
    {
      State(channelSize, tunnels, tunnelChannel, localChannel, loops, accepted, expired, panicked)
    }

    constructor (channelSize: nat, loopCount: nat)
      ensures View() == Init(channelSize, loopCount)
    {
      this.channelSize := channelSize;
      tunnels, tunnelChannel, localChannel, loops := [], [], [], seq(loopCount, _ => Idle);
      accepted, expired, panicked := {}, [], false;
    }

    method Fire(e: Event)
      requires Inv(View())
      requires e.Accept? ==> e.conn !in accepted // a new connection
      modifies this
      ensures View() == Next(old(View()), e) && Inv(View())
    {
      InvNext(View(), e);
      match e
      case Arrive =>
        if |tunnelChannel| < channelSize {
          tunnelChannel, tunnels := tunnelChannel + [|tunnels|], tunnels + [NEW_TUNNEL];
        }
      case Accept(c) =>
        if |localChannel| < channelSize {
          localChannel, accepted := localChannel + [c], accepted + {c};
        }
      case On(t, op) => if t < |tunnels| { UseTunnel(t, op); }
      case _ => if e.loop < |loops| { HandleLoop(e.loop, e); }
    }

    method UseTunnel(t: nat, op: Op)
      requires Inv(View()) && t < |tunnels|
      modifies this`tunnels
      ensures View() == Next(old(View()), On(t, op))
    {
      assert TunnelPlaced(View(), t);
      BeatOk(tunnels[t], op);
      PairOk(tunnels[t], op);
      RelayOk(tunnels[t], op);
      if op.ClosePing? || op.TakeLock? || op.BeginAddress? { Pair(t, op); }
      else if op.BeginData? || op.EndData? || op.EndRelay? { RelayData(t, op); }
      else { KeepAlive(t, op); }
    }

    method KeepAlive(t: nat, op: Op)
      requires t < |tunnels|
      modifies this`tunnels
      ensures tunnels == old(tunnels)[t := BeatOp(old(tunnels)[t], op).tunnel]
    {
      var x := tunnels[t];
      if x.beat.Unstarted? && op.StartBeat? {
        x := x.(beat := Waiting);
      } else if x.beat.Waiting? {
        if op.SeePingClosed? && x.pingCloses > 0 {
          x := x.(beat := Stopped);
        } else if op.Shut? {
          x := x.(beat := Stopped, connClosed := true);
        } else if op.Tick? {
          x := if x.lock.Free? then x.(beat := Locked, lock := ByBeat) else x.(beat := Stopped);
        }
      } else if x.beat.Locked? && op.BeginPing? {
        x := x.(beat := Pinging, writer := Pinger);
      } else if x.beat.Pinging? && op.EndPing? {
        if (op.ok || op.delivered) && !x.connClosed {
          x := x.(wire := x.wire + [PING], pings := x.pings + 1);
        }
        x := x.(writer := Nobody, beat := if op.ok && !x.connClosed then Unlocking else Unwinding);
      } else if x.beat.Unlocking? && op.Unlock? {
        x := x.(beat := Waiting, lock := Free);
      } else if x.beat.Unwinding? && op.Unlock? {
        x := x.(beat := Stopped, lock := Free, connClosed := true);
      }
      tunnels := tunnels[t := x];
    }

    method Pair(t: nat, op: Op)
      requires t < |tunnels|
      modifies this`tunnels
      ensures tunnels == old(tunnels)[t := PairOp(old(tunnels)[t], op).tunnel]
    {
      var x := tunnels[t];
      if op.ClosePing? && x.stage.Taken? {
        x := x.(stage := Hushed, pingCloses := x.pingCloses + 1);
      } else if op.TakeLock? && x.stage.Hushed? && x.lock.Free? {
        x := x.(stage := Holding, lock := ByLoop);
      } else if op.BeginAddress? && x.stage.Holding? {
        x := x.(stage := Addressing, writer := Addresser);
      }
      tunnels := tunnels[t := x];
    }

    method RelayData(t: nat, op: Op)
      requires t < |tunnels|
      modifies this`tunnels
      ensures tunnels == old(tunnels)[t := RelayOp(old(tunnels)[t], op).tunnel]
    {
      var x := tunnels[t];
      if op.BeginData? && x.stage.Paired? && !x.relayEnded && x.writer != Relayer {
        x := x.(writer := Relayer, data := x.data + [op.body]);
      } else if op.EndData? && x.writer == Relayer && x.data != [] {
        if (op.ok || op.delivered) && !x.connClosed { x := x.(wire := x.wire + [Binary(x.data[|x.data| - 1])]); }
        var fine := op.ok && !x.connClosed;
        x := x.(connClosed := !fine, relayEnded := !fine);
        x := x.(writer := Nobody);
      } else if op.EndRelay? && x.stage.Paired? && x.writer != Relayer {
        x := x.(relayEnded := true, connClosed := true);
      }
      tunnels := tunnels[t := x];
    }

    method HandleLoop(l: nat, e: Event)
      requires l < |loops| && (e.TakeLocal? || e.CheckAge? || e.TakeTunnel? || e.EndAddress?)
      requires Inv(View())
      modifies this`tunnels, this`tunnelChannel, this`localChannel, this`loops, this`expired
      ensures View() == LoopNext(old(View()), l, e)
    {
      var p := loops[l];
      assert LoopPlaced(View(), l);
      match e
      case TakeLocal(_) =>
        if p.Idle? && localChannel != [] {
          loops := loops[l := Checking(localChannel[0])];
          localChannel := localChannel[1..];
        }
      case CheckAge(_, now) =>
        if p.Checking? {
          if now - p.conn.timeCreated > STALE_AFTER {
            loops, expired := loops[l := Idle], expired + [p.conn];
          } else {
            loops := loops[l := Selecting(p.conn)];
          }
        }
      case TakeTunnel(_) =>
        if p.Selecting? && tunnelChannel != [] {
          var t := tunnelChannel[0];
          tunnelChannel := tunnelChannel[1..];
          tunnels := tunnels[t := tunnels[t].(stage := Taken, loop := l, target := Some(p.conn))];
          loops := loops[l := Busy(p.conn, t)];
        }
      case EndAddress(_, ok, delivered) =>
        if p.Busy? && tunnels[p.tunnel].stage.Addressing? {
          assert TunnelPlaced(View(), p.tunnel);
          var x := tunnels[p.tunnel];
          if (ok || delivered) && !x.connClosed { x := x.(wire := x.wire + [Text(p.conn.remoteAddr)]); }
          if ok && !x.connClosed {
            x := x.(stage := Paired);
            loops := loops[l := Idle];
          } else {
            x := x.(stage := Dropped(delivered && !x.connClosed), connClosed := true);
            loops := loops[l := Checking(p.conn)];
          }
          tunnels := tunnels[p.tunnel := x.(writer := Nobody)];
        }
    }
  }
}
