/** Which connections of the websocket transport can still be relayed. */
module WsProgress {
  import opened Conns
  import opened Options
  import opened Tables
  import opened WsTunnel
  import opened WsHistory

  // ---- Time ----

  /** The clock reading of an event, if it makes one. */
  function Reading(e: Event): Option<int> {
    if e.Accept? then Some(e.conn.timeCreated) else if e.CheckAge? then Some(e.now) else None
  }

  /** Readings start at t and do not go back. */
  predicate Timely(es: seq<Event>, t: int)
    decreases |es|
  {
    es == [] ||
    match Reading(es[0])
    case None => Timely(es[1..], t)
    case Some(now) => now >= t && Timely(es[1..], now)
  }

  predicate AllAt(es: seq<Event>, t: int) { forall e :: e in es ==> Reading(e) == None || Reading(e) == Some(t) }

  lemma {:induction false} AllAtTimely(es: seq<Event>, t: int)
    requires AllAt(es, t)
    ensures Timely(es, t)
    decreases |es|
  {
    if es == [] {
    } else {
      assert es[0] in es && forall e :: e in es[1..] ==> e in es;
      AllAtTimely(es[1..], t);
    }
  }

  lemma {:induction false} TimelyEarlier(es: seq<Event>, t: int, t': int)
    requires Timely(es, t) && t' <= t
    ensures Timely(es, t')
    decreases |es|
  {
    if es == [] {
    } else if Reading(es[0]).None? {
      TimelyEarlier(es[1..], t, t');
    }
  }

  lemma {:induction false} ExecAppend(s: State, es: seq<Event>, more: seq<Event>)
    ensures Exec(s, es + more) == Exec(Exec(s, es), more)
    decreases |es|
  {
    if es == [] {
      assert es + more == more;
    } else {
      assert (es + more)[0] == es[0] && (es + more)[1..] == es[1..] + more;
      ExecAppend(Next(s, es[0]), es[1..], more);
    }
  }

  // ---- The end of an address write ----

  /** The connection is closed, or keepAlive is about to close it: the address cannot be written. */
  predicate Doomed(x: Tunnel) { x.connClosed || x.beat.Unwinding? }

  function StageRank(g: Stage): nat {
    match g
    case Taken => 4
    case Hushed => 3
    case Holding => 2
    case Addressing => 1
    case _ => 0
  }

  function LockRank(b: Beat): nat {
    match b
    case Locked => 3
    case Pinging => 2
    case Unlocking => 1
    case Unwinding => 1
    case _ => 0
  }

  /** What a tunnel in hand is waiting for: its loop, or keepAlive to leave the mutex. */
  function TunnelAwaited(x: Tunnel): Op {
    match x.stage
    case Taken => ClosePing
    case Hushed =>
      (match x.beat
       case Locked => BeginPing
       case Pinging => EndPing(true, true)
       case Unlocking => Unlock
       case Unwinding => Unlock
       case _ => TakeLock)
    case _ => BeginAddress
  }

  lemma TunnelNearer(x: Tunnel)
    requires TunnelOk(x) && (x.stage.Taken? || x.stage.Hushed? || x.stage.Holding?)
    ensures var x' := TunnelOp(x, TunnelAwaited(x)).tunnel;
      && InHand(x'.stage) && x'.target == x.target && x'.loop == x.loop
      && (Doomed(x') <==> Doomed(x))
      && (StageRank(x'.stage) < StageRank(x.stage)
          || (StageRank(x'.stage) == StageRank(x.stage) && LockRank(x'.beat) < LockRank(x.beat)))
  {
  }

  /** Everything but one loop and what tunnels it takes. */
  predicate Elsewhere(s: State, s': State, l: nat) {
    && Inv(s') && s'.channelSize == s.channelSize && |s'.loops| == |s.loops|
    && s'.localChannel == s.localChannel
    && (forall k :: 0 <= k < |s.loops| && k != l ==> s'.loops[k] == s.loops[k])
    && |s.tunnels| <= |s'.tunnels|
    && (forall t :: 0 <= t < |s.tunnels| && s.tunnels[t].stage.Paired? ==>
          s'.tunnels[t].stage.Paired? && s'.tunnels[t].target == s.tunnels[t].target)
    && |s'.tunnelChannel| <= |s.tunnelChannel|
    && (forall t :: t in s'.tunnelChannel ==>
          t >= |s.tunnels| || (t in s.tunnelChannel && s'.tunnels[t] == s.tunnels[t]))
  }

  predicate Relayed(s: State, c: Conn) {
    exists t :: 0 <= t < |s.tunnels| && s.tunnels[t].stage.Paired? && s.tunnels[t].target == Some(c)
  }

  lemma RelayedStays(s: State, s': State, l: nat, c: Conn)
    requires Elsewhere(s, s', l) && Relayed(s, c)
    ensures Relayed(s', c)
  {
    var t :| 0 <= t < |s.tunnels| && s.tunnels[t].stage.Paired? && s.tunnels[t].target == Some(c);
    assert s'.tunnels[t].stage.Paired? && s'.tunnels[t].target == Some(c);
  }

  lemma ElsewhereTwice(s: State, s': State, s'': State, l: nat)
    requires Elsewhere(s, s', l) && Elsewhere(s', s'', l)
    ensures Elsewhere(s, s'', l)
  {
  }

  /** The write of a loop that has a tunnel in hand ends: with a relay unless the tunnel is doomed. */
  lemma {:induction false} FinishBusy(s: State, l: nat) returns (later: seq<Event>)
    requires Inv(s) && l < |s.loops| && s.loops[l].Busy?
    ensures forall e :: e in later ==> Reading(e) == None
    ensures var s' := Exec(s, later); var c, t := s.loops[l].conn, s.loops[l].tunnel;
      && Elsewhere(s, s', l) && s'.tunnelChannel == s.tunnelChannel && t < |s.tunnels|
      && (if Doomed(s.tunnels[t]) then s'.loops[l] == Checking(c) else s'.loops[l] == Idle && Relayed(s', c))
    decreases if s.loops[l].tunnel < |s.tunnels| then StageRank(s.tunnels[s.loops[l].tunnel].stage) else 0,
              if s.loops[l].tunnel < |s.tunnels| then LockRank(s.tunnels[s.loops[l].tunnel].beat) else 0
  {
    var t := s.loops[l].tunnel;
    assert LoopPlaced(s, l) && TunnelPlaced(s, t);
    var x := s.tunnels[t];
    if x.stage.Addressing? {
      var e := EndAddress(l, true, true);
      later := [e] + [];
      ExecCons(s, e, []);
      InvNext(s, e);
      if !Doomed(x) { assert Next(s, e).tunnels[t].stage.Paired?; }
    } else {
      var e := On(t, TunnelAwaited(x));
      var s' := Next(s, e);
      TunnelNearer(x);
      InvNext(s, e);
      var rest := FinishBusy(s', l);
      later := [e] + rest;
      ExecCons(s, e, rest);
      assert t !in s.tunnelChannel;
      assert Elsewhere(s, s', l);
      ElsewhereTwice(s, s', Exec(s, later), l);
      if !Doomed(x) { assert Relayed(Exec(s, later), s.loops[l].conn); }
    }
  }

  // ---- A loop deals with its connection ----

  /** The loop has its connection relayed next: it is young enough for any further check, or has
      passed its check and meets a tunnel that is not doomed. */
  predicate Favoured(s: State, l: nat, now: int)
    requires l < |s.loops|
  {
    match s.loops[l]
    case Idle => false
    case Checking(c) => now <= c.timeCreated + 3000
    case Selecting(c) => now <= c.timeCreated + 3000 || HeadFit(s)
    case Busy(c, t) => now <= c.timeCreated + 3000 || (t < |s.tunnels| && !Doomed(s.tunnels[t]))
  }

  /** The next tunnel, if one is queued, is not doomed. */
  predicate HeadFit(s: State) {
    s.tunnelChannel == [] || (s.tunnelChannel[0] < |s.tunnels| && !Doomed(s.tunnels[s.tunnelChannel[0]]))
  }

  function LoopRank(s: State, l: nat): nat
    requires l < |s.loops|
  {
    match s.loops[l]
    case Idle => 0
    case Busy(_, t) => if t < |s.tunnels| && Doomed(s.tunnels[t]) then 4 else 1
    case Selecting(_) => 2
    case Checking(_) => 3
  }

  /** The loop is nearer to the end of its work, with its connection relayed if that was due. */
  predicate LoopNearer(s: State, s': State, l: nat, now: int)
    requires l < |s.loops| && !s.loops[l].Idle?
  {
    && Elsewhere(s, s', l)
    && (|s'.tunnelChannel| < |s.tunnelChannel| || LoopRank(s', l) < LoopRank(s, l))
    && (if s'.loops[l].Idle? then Favoured(s, l, now) ==> Relayed(s', s.loops[l].conn)
        else s'.loops[l].conn == s.loops[l].conn && (Favoured(s, l, now) ==> Favoured(s', l, now)))
  }

  lemma LoopChecks(s: State, l: nat, now: int)
    requires Inv(s) && l < |s.loops| && s.loops[l].Checking?
    ensures LoopNearer(s, Next(s, CheckAge(l, now)), l, now)
  {
    InvNext(s, CheckAge(l, now));
  }

  lemma LoopReceives(s: State, l: nat, now: int)
    requires Inv(s) && l < |s.loops| && s.loops[l].Selecting? && s.tunnelChannel != []
    ensures LoopNearer(s, Next(s, TakeTunnel(l)), l, now)
  {
    InvNext(s, TakeTunnel(l));
    assert s.tunnelChannel[0] in s.tunnelChannel && TunnelPlaced(s, s.tunnelChannel[0]);
  }

  lemma LoopAwaits(s: State, l: nat, now: int)
    requires Inv(s) && s.channelSize > 0 && l < |s.loops| && s.loops[l].Selecting? && s.tunnelChannel == []
    ensures LoopNearer(s, Next(Next(s, Arrive), TakeTunnel(l)), l, now)
  {
    var s1 := Next(s, Arrive);
    InvNext(s, Arrive);
    InvNext(s1, TakeTunnel(l));
    assert s1.tunnelChannel == [|s.tunnels|] && s1.tunnels[|s.tunnels|] == NEW_TUNNEL;
  }

  /** The next thing that a loop with a connection does. */
  lemma LoopStep(s: State, l: nat, now: int) returns (es: seq<Event>)
    requires Inv(s) && s.channelSize > 0 && l < |s.loops| && !s.loops[l].Idle?
    ensures AllAt(es, now) && LoopNearer(s, Exec(s, es), l, now)
  {
    match s.loops[l]
    case Busy(_, _) => es := FinishBusy(s, l);
    case Checking(_) =>
      LoopChecks(s, l, now);
      es := [CheckAge(l, now)] + [];
      ExecCons(s, CheckAge(l, now), []);
    case Selecting(_) =>
      if s.tunnelChannel == [] {
        LoopAwaits(s, l, now);
        es := [Arrive] + ([TakeTunnel(l)] + []);
        ExecCons(s, Arrive, [TakeTunnel(l)] + []);
        ExecCons(Next(s, Arrive), TakeTunnel(l), []);
      } else {
        LoopReceives(s, l, now);
        es := [TakeTunnel(l)] + [];
        ExecCons(s, TakeTunnel(l), []);
      }
  }

  lemma {:induction false} Settle(s: State, l: nat, now: int) returns (later: seq<Event>)
    requires Inv(s) && s.channelSize > 0 && l < |s.loops|
    ensures AllAt(later, now)
    ensures var s' := Exec(s, later);
      Elsewhere(s, s', l) && s'.loops[l].Idle? && (Favoured(s, l, now) ==> Relayed(s', s.loops[l].conn))
    decreases |s.tunnelChannel|, LoopRank(s, l)
  {
    if s.loops[l].Idle? {
      later := [];
    } else {
      var step := LoopStep(s, l, now);
      var s' := Exec(s, step);
      var rest := Settle(s', l, now);
      later := step + rest;
      ExecAppend(s, step, rest);
      ElsewhereTwice(s, s', Exec(s, later), l);
      if s'.loops[l].Idle? && Relayed(s', s.loops[l].conn) {
        RelayedStays(s', Exec(s, later), l, s.loops[l].conn);
      }
    }
  }

  // ---- A connection in localChannel ----

  lemma {:induction false} RelayQueued(s: State, p: nat, c: Conn, now: int) returns (later: seq<Event>)
    requires Inv(s) && s.channelSize > 0 && |s.loops| > 0
    requires p < |s.localChannel| && s.localChannel[p] == c && now <= c.timeCreated + 3000
    ensures AllAt(later, now) && Relayed(Exec(s, later), c)
    decreases p
  {
    var free := Settle(s, 0, now);
    var s1 := Exec(s, free);
    var s2 := Next(s1, TakeLocal(0));
    InvNext(s1, TakeLocal(0));
    var rest;
    if p == 0 { rest := Settle(s2, 0, now); } else { rest := RelayQueued(s2, p - 1, c, now); }
    later := free + ([TakeLocal(0)] + rest);
    ExecAppend(s, free, [TakeLocal(0)] + rest);
    ExecCons(s1, TakeLocal(0), rest);
  }

  // ---- A loop that has checked its connection, before a doomed tunnel ----

  lemma IdBound(cs: set<Conn>) returns (bound: nat)
    ensures forall c :: c in cs ==> c.id < bound
    decreases |cs|
  {
    if d :| d in cs {
      var below := IdBound(cs - {d});
      bound := below + d.id + 1;
    } else {
      bound := 0;
    }
  }

  /** Everything but one loop and the connections it takes. */
  predicate TunnelsKept(s: State, s': State, k: nat) {
    && Inv(s') && s'.channelSize == s.channelSize && |s'.loops| == |s.loops|
    && s'.tunnels == s.tunnels && s'.tunnelChannel == s.tunnelChannel
    && forall l :: 0 <= l < |s.loops| && l != k ==> s'.loops[l] == s.loops[l]
  }

  /** A loop with nothing to do finds a connection that is young. */
  lemma {:induction false} FindsYoung(s: State, k: nat, now: int) returns (later: seq<Event>)
    requires Inv(s) && s.channelSize > 0 && k < |s.loops| && s.loops[k].Idle?
    ensures AllAt(later, now) && TunnelsKept(s, Exec(s, later), k) && Exec(s, later).loops[k].Selecting?
    decreases |s.localChannel|
  {
    var before := [];
    if s.localChannel == [] {
      var id := IdBound(s.accepted);
      before := [Accept(Conn(id, "", now))];
      InvNext(s, Accept(Conn(id, "", now)));
    }
    var s1 := if s.localChannel == [] then Next(s, before[0]) else s;
    assert Exec(s, before) == s1 by { if before != [] { assert before[1..] == []; } }
    var s2 := Next(s1, TakeLocal(k));
    var s3 := Next(s2, CheckAge(k, now));
    InvNext(s1, TakeLocal(k));
    InvNext(s2, CheckAge(k, now));
    var rest := [];
    if s3.loops[k].Idle? { rest := FindsYoung(s3, k, now); }
    later := before + ([TakeLocal(k)] + ([CheckAge(k, now)] + rest));
    ExecAppend(s, before, [TakeLocal(k)] + ([CheckAge(k, now)] + rest));
    ExecCons(s1, TakeLocal(k), [CheckAge(k, now)] + rest);
    ExecCons(s2, CheckAge(k, now), rest);
  }

  /** Another loop uses up the doomed tunnels ahead. */
  lemma {:induction false} ClearsHead(s: State, l: nat, k: nat, now: int) returns (later: seq<Event>)
    requires Inv(s) && s.channelSize > 0 && l < |s.loops| && k < |s.loops| && l != k
    ensures AllAt(later, now)
    ensures var s' := Exec(s, later);
      Inv(s') && s'.channelSize == s.channelSize && |s'.loops| == |s.loops| && s'.loops[l] == s.loops[l] && HeadFit(s')
    decreases |s.tunnelChannel|
  {
    if HeadFit(s) {
      later := [];
    } else {
      var free := Settle(s, k, now);
      var s1 := Exec(s, free);
      if HeadFit(s1) {
        later := free;
      } else {
        var find := FindsYoung(s1, k, now);
        var s2 := Exec(s1, find);
        var s3 := Next(s2, TakeTunnel(k));
        InvNext(s2, TakeTunnel(k));
        var rest := ClearsHead(s3, l, k, now);
        later := free + (find + ([TakeTunnel(k)] + rest));
        ExecAppend(s, free, find + ([TakeTunnel(k)] + rest));
        ExecAppend(s1, find, [TakeTunnel(k)] + rest);
        ExecCons(s2, TakeTunnel(k), rest);
      }
    }
  }

  // ---- Main result ----

  /** The connection has passed its check and can meet a tunnel that is not doomed: it has one, or one
      is next, or there is another loop to use up the others. */
  predicate Ready(s: State, c: Conn) {
    exists l :: 0 <= l < |s.loops| && ReadyIn(s, l, c)
  }

  predicate ReadyIn(s: State, l: nat, c: Conn)
    requires l < |s.loops|
  {
    || (s.loops[l] == Selecting(c) && (|s.loops| > 1 || HeadFit(s)))
    || (s.loops[l].Busy? && s.loops[l].conn == c && s.loops[l].tunnel < |s.tunnels|
        && !Doomed(s.tunnels[s.loops[l].tunnel]))
  }

  predicate RelayedAfter(s: State, later: seq<Event>, c: Conn, t: int) {
    Timely(later, t) && Relayed(Exec(s, later), c)
  }

  /** The connection is closed for its age, or will be at its next check. */
  ghost predicate Hopeless(s: State, c: Conn, t: int) {
    && c in s.accepted && Inv(s) && Conserved(s, c)
    && (c in s.expired || (!Relayed(s, c) && !Ready(s, c) && t > c.timeCreated + 3000))
  }

  lemma ExpiredOnly(s: State, c: Conn)
    requires Conserved(s, c) && c in s.expired
    ensures !Relayed(s, c)
  {
    var i :| 0 <= i < |s.expired| && s.expired[i] == c;
    SumMember(s.expired, i, Is(c));
    forall t | 0 <= t < |s.tunnels| ensures RelayFor(c)(s.tunnels[t]) == 0 { SumMember(s.tunnels, t, RelayFor(c)); }
  }

  lemma DoomedOp(x: Tunnel, op: Op)
    requires TunnelOk(x) && Doomed(x)
    ensures Doomed(TunnelOp(x, op).tunnel)
  {
    match op
    case Unlock =>
    case _ =>
  }

  lemma RelayedNext(s: State, e: Event, c: Conn)
    requires Inv(s) && !Relayed(s, c) && !Ready(s, c)
    ensures !Relayed(Next(s, e), c)
  {
    var s' := Next(s, e);
    forall t | 0 <= t < |s'.tunnels|
      ensures !(s'.tunnels[t].stage.Paired? && s'.tunnels[t].target == Some(c))
    {
      if t < |s.tunnels| {
        assert TunnelPlaced(s, t) && !(s.tunnels[t].stage.Paired? && s.tunnels[t].target == Some(c));
        match e
        case On(u, op) => if u == t { SamePairing(s.tunnels[t], op); }
        case EndAddress(l, _, _) =>
          if l < |s.loops| {
            assert LoopPlaced(s, l) && !ReadyIn(s, l, c);
          }
        case TakeTunnel(_) =>
        case _ =>
      }
    }
  }

  lemma ReadyOn(s: State, u: nat, op: Op, c: Conn, l: nat)
    requires Inv(s) && l < |s.loops| && !ReadyIn(s, l, c)
    ensures !ReadyIn(Next(s, On(u, op)), l, c)
  {
    if u < |s.tunnels| {
      assert TunnelPlaced(s, u);
      if Doomed(s.tunnels[u]) { DoomedOp(s.tunnels[u], op); }
    }
  }

  lemma ReadyNext(s: State, e: Event, c: Conn, t: int)
    requires Inv(s) && !Ready(s, c) && t > c.timeCreated + 3000 && (Reading(e).Some? ==> Reading(e).value >= t)
    ensures !Ready(Next(s, e), c)
  {
    var s' := Next(s, e);
    forall l | 0 <= l < |s'.loops|
      ensures !ReadyIn(s', l, c)
    {
      assert !ReadyIn(s, l, c) && LoopPlaced(s, l);
      if s.tunnelChannel != [] { assert TunnelPlaced(s, s.tunnelChannel[0]); }
      match e
      case On(u, op) => ReadyOn(s, u, op, c, l);
      case Arrive =>
      case Accept(_) =>
      case TakeLocal(_) =>
      case CheckAge(_, _) =>
      case TakeTunnel(_) =>
      case EndAddress(k, _, _) => if k < |s.loops| { assert LoopPlaced(s, k); }
    }
  }

  lemma HopelessNext(s: State, e: Event, c: Conn, t: int)
    requires Hopeless(s, c, t) && (Reading(e).Some? ==> Reading(e).value >= t)
    ensures Hopeless(Next(s, e), c, t)
  {
    InvNext(s, e);
    ConservedNext(s, e, c);
    if c in s.expired {
      ExpiredNext(s, e, c);
    } else {
      RelayedNext(s, e, c);
      ReadyNext(s, e, c, t);
    }
  }

  lemma {:induction false} HopelessForever(s: State, es: seq<Event>, c: Conn, t: int)
    requires Hopeless(s, c, t) && Timely(es, t)
    ensures !Relayed(Exec(s, es), c)
    decreases |es|
  {
    if es == [] {
      if c in s.expired { ExpiredOnly(s, c); }
    } else {
      HopelessNext(s, es[0], c, t);
      if Reading(es[0]).Some? { TimelyEarlier(es[1..], Reading(es[0]).value, t); }
      HopelessForever(Next(s, es[0]), es[1..], c, t);
    }
  }

  /** An accepted connection is in one of these places. */
  lemma Somewhere(s: State, c: Conn)
    requires Conserved(s, c) && c in s.accepted
    ensures c in s.localChannel || c in s.expired || Relayed(s, c)
            || exists l :: 0 <= l < |s.loops| && !s.loops[l].Idle? && s.loops[l].conn == c
  {
    if c !in s.localChannel { SumZero(s.localChannel, Is(c)); }
    if c !in s.expired { SumZero(s.expired, Is(c)); }
    if !Relayed(s, c) { SumZero(s.tunnels, RelayFor(c)); }
    if forall l :: 0 <= l < |s.loops| ==> s.loops[l].Idle? || s.loops[l].conn != c { SumZero(s.loops, HeldBy(c)); }
  }

  lemma RelayReady(s: State, l: nat, c: Conn, now: int) returns (later: seq<Event>)
    requires Inv(s) && s.channelSize > 0 && l < |s.loops| && ReadyIn(s, l, c)
    ensures AllAt(later, now) && Relayed(Exec(s, later), c)
  {
    if Favoured(s, l, now) {
      later := Settle(s, l, now);
    } else {
      var clear := ClearsHead(s, l, if l == 0 then 1 else 0, now);
      var s1 := Exec(s, clear);
      var rest := Settle(s1, l, now);
      later := clear + rest;
      ExecAppend(s, clear, rest);
    }
  }

  lemma RelayLaterOn(s: State, c: Conn, now: int) returns (later: seq<Event>)
    requires Inv(s) && Conserved(s, c) && s.channelSize > 0 && |s.loops| > 0 && c in s.accepted && !Hopeless(s, c, now)
    ensures RelayedAfter(s, later, c, now)
  {
    Somewhere(s, c);
    if Relayed(s, c) {
      later := [];
    } else if Ready(s, c) {
      var l :| 0 <= l < |s.loops| && ReadyIn(s, l, c);
      later := RelayReady(s, l, c, now);
    } else if c in s.localChannel {
      var p :| 0 <= p < |s.localChannel| && s.localChannel[p] == c;
      later := RelayQueued(s, p, c, now);
    } else {
      var l :| 0 <= l < |s.loops| && !s.loops[l].Idle? && s.loops[l].conn == c;
      later := Settle(s, l, now);
    }
    AllAtTimely(later, now);
  }

  lemma {:induction false} ExecStays(s: State, es: seq<Event>)
    ensures Exec(s, es).channelSize == s.channelSize && |Exec(s, es).loops| == |s.loops|
    decreases |es|
  {
    if es == [] {
    } else {
      ExecStays(Next(s, es[0]), es[1..]);
    }
  }

  /** From every reachable state, whatever time it is: an accepted connection is relayed in some
      continuation with clock readings from then on if and only if it is not closed for its age and
      is relayed already, or has passed its check and can meet a tunnel that works, or would pass a
      check now. */
  lemma RelayedUnlessOverdue(channelSize: nat, loops: nat, es: seq<Event>, c: Conn, now: int)
    requires channelSize > 0 && loops > 0 && c in Exec(Init(channelSize, loops), es).accepted
    ensures var s := Exec(Init(channelSize, loops), es);
      (exists later :: RelayedAfter(s, later, c, now)) <==>
      c !in s.expired && (Relayed(s, c) || Ready(s, c) || now <= c.timeCreated + 3000)
  {
    var s := Exec(Init(channelSize, loops), es);
    Reached(channelSize, loops, es, c);
    ExecStays(Init(channelSize, loops), es);
    if Hopeless(s, c, now) {
      forall later
        ensures !RelayedAfter(s, later, c, now)
      {
        if Timely(later, now) { HopelessForever(s, later, c, now); }
      }
    } else {
      var later := RelayLaterOn(s, c, now);
      assert RelayedAfter(s, later, c, now);
    }
  }
}
