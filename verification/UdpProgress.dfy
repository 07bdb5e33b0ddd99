/** Which entries of the UDP transport can still be served: those for which the goroutines have,
    from the state reached and with clock readings from now on, a continuation in which udpCopy
    relays them. */
module UdpProgress {
  import opened Options
  import opened UdpTables
  import opened UdpService

  /** The continuation, whose clock readings begin at t, serves the entry. */
  predicate ServedAfter(s: State, later: seq<Event>, n: nat, t: int) {
    var s' := Exec(s, later);
    Timely(later, t) && n < |s'.entries| && Served(s'.entries[n].stage)
  }

  /** An event that reads the time t, or no clock. */
  predicate At(e: Event, t: int) { Reading(e) == None || Reading(e) == Some(t) }

  lemma TimelyCons(e: Event, es: seq<Event>, t: int)
    requires At(e, t) && Timely(es, t)
    ensures Timely([e] + es, t)
  {
    assert ([e] + es)[1..] == es;
  }

  lemma ExecCons(s: State, e: Event, es: seq<Event>)
    ensures Exec(s, [e] + es) == Exec(Next(s, e), es)
  {
    assert ([e] + es)[1..] == es;
  }

  /** The lengths of a set of keys are bounded, so there is always another key. */
  lemma LengthBound(keys: set<Key>) returns (bound: nat)
    ensures forall key :: key in keys ==> |key| < bound
    decreases |keys|
  {
    if k :| k in keys {
      var below := LengthBound(keys - {k});
      bound := below + |k| + 1;
    } else {
      bound := 0;
    }
  }

  lemma NewKey(keys: set<Key>) returns (key: Key)
    ensures key !in keys
  {
    var bound := LengthBound(keys);
    key := seq(bound, _ => 'x');
  }

  // ---- A side brings an entry into its empty channel ----

  function PointRank(p: Point): nat {
    match p
    case Offering(_, _) => 1
    case Creating(_, _) => 2
    case Idle => 3
    case Deleting(_) => 4
    case Closing(_) => 5
  }

  predicate PointsTo(p: Point, n: nat) { Offers(p, n) || p == Closing(n) || p == Deleting(n) }

  function BringEvent(s: State, i: nat, key: Key, now: int): Event
    requires i < |s.sides|
  {
    match s.sides[i].point
    case Idle => Receive(i, key, s.token)
    case Creating(_, _) => Store(i, now)
    case Offering(_, _) => Offer(i)
    case Closing(_) => Close(i)
    case Deleting(_) => Delete(i)
  }

  predicate CanBring(s: State, i: nat, key: Key) {
    && i < |s.sides| && s.channelSize > 0 && s.sides[i].channel == []
    && (s.sides[i].point.Idle? ==> key !in s.sides[i].table)
  }

  lemma BringHelps(s: State, i: nat, key: Key, now: int)
    requires Inv(s) && CanBring(s, i, key)
    ensures At(BringEvent(s, i, key, now), now)
    ensures var s' := Next(s, BringEvent(s, i, key, now));
      && |s'.sides| == |s.sides| && s'.sides == s.sides[i := s'.sides[i]] && s'.sides[i].loop == s.sides[i].loop
      && |s.entries| <= |s'.entries|
      && (forall m :: 0 <= m < |s.entries| && !PointsTo(s.sides[i].point, m) ==> s'.entries[m] == s.entries[m])
      && (s'.sides[i].channel != [] || PointRank(s'.sides[i].point) < PointRank(s.sides[i].point))
  {
    assert SideOk(s, i);
  }

  /** An entry that is created is created now, and one that is offered is received next. */
  lemma BringsYoung(s: State, i: nat, key: Key, now: int)
    requires Inv(s) && CanBring(s, i, key)
    ensures var s' := Next(s, BringEvent(s, i, key, now)); var p, p' := s.sides[i].point, s'.sides[i].point;
      && (p.Creating? ==> p'.Offering? && p'.entry < |s'.entries| && s'.entries[p'.entry].timeCreated == now)
      && (p.Offering? ==>
            p'.Idle? && s'.sides[i].channel == [p.entry]
            && p.entry < |s.entries| <= |s'.entries|
            && s'.entries[p.entry].timeCreated == s.entries[p.entry].timeCreated)
      && (p'.Offering? ==> p.Creating?)
  {
    assert SideOk(s, i);
  }

  // ---- A handleLoop finds a tunnel for its flow ----

  predicate Hushed(s: State, m: nat) {
    && m < |s.entries| && s.entries[m].stage.Addressing? && s.entries[m].stage.tunnel < |s.entries|
    && s.entries[s.entries[m].stage.tunnel].stage == Taken(m, true)
  }

  function SearchEvent(s: State, m: nat, key: Key, now: int, ok: bool): Event
    requires m < |s.entries| && |s.sides| > 0
  {
    if s.entries[m].stage.Addressing? then if Hushed(s, m) then WriteAddress(m, ok) else ClosePing(m)
    else if s.sides[0].channel != [] then TakeTunnel(m)
    else BringEvent(s, 0, key, now)
  }

  function SearchRank(s: State, m: nat): nat
    requires m < |s.entries| && |s.sides| > 0
  {
    if s.entries[m].stage.Addressing? then if Hushed(s, m) then 1 else 2
    else if s.sides[0].channel != [] then 3
    else 3 + PointRank(s.sides[0].point)
  }

  predicate Searches(s: State, i: nat, m: nat) { 0 < i < |s.sides| && s.sides[i].loop == Some(m) }

  /** Entries, except up to two, and sides, except one, are as before. */
  predicate Aside(s: State, s': State, m: nat, t: nat, i: nat) {
    && |s.entries| <= |s'.entries| && |s'.sides| == |s.sides|
    && (forall n :: 0 <= n < |s.entries| && n != m && n != t ==> s'.entries[n] == s.entries[n])
    && (forall j :: 0 <= j < |s.sides| && j != i ==> s'.sides[j] == s.sides[j])
  }

  lemma LoopFlow(s: State, i: nat, m: nat)
    requires Inv(s) && Searches(s, i, m)
    ensures m < |s.entries| && s.entries[m].side == i && InLoop(s.entries[m].stage)
    ensures s.entries[m].stage.Addressing? ==>
      var t := s.entries[m].stage.tunnel;
      t < |s.entries| && s.entries[t].side == 0 && s.entries[t].stage.Taken? && s.entries[t].stage.flow == m
  {
    assert SideOk(s, i) && EntryListed(s, m) && Paired(s.entries, m);
    if s.entries[m].stage.Addressing? { assert EntryOk(s.entries[s.entries[m].stage.tunnel]); }
  }

  lemma Addressed(s: State, i: nat, m: nat, key: Key, now: int, ok: bool)
    requires Inv(s) && Searches(s, i, m) && m < |s.entries| && s.entries[m].stage.Addressing?
    ensures var t := s.entries[m].stage.tunnel; var s' := Next(s, SearchEvent(s, m, key, now, ok));
      && t < |s.entries| && Aside(s, s', m, t, if ok then i else 0) && s'.sides[0] == s.sides[0]
      && s'.sides[i].channel == s.sides[i].channel && s'.sides[i].point == s.sides[i].point
      && (if !Hushed(s, m) then
            s'.entries[m] == s.entries[m] && s'.sides == s.sides && s'.entries[t].stage == Taken(m, true)
          else if ok then
            s'.entries[m].stage.Relaying? && s'.entries[t].stage == Bound(m) && s'.sides[i].loop.None?
          else
            s'.entries[m].stage.Pairing? && s'.entries[t].stage.Dropped? && s'.sides == s.sides)
  {
    LoopFlow(s, i, m);
  }

  lemma Received(s: State, i: nat, m: nat, key: Key, now: int, ok: bool)
    requires Inv(s) && Searches(s, i, m) && m < |s.entries| && s.entries[m].stage.Pairing? && s.sides[0].channel != []
    ensures var t := s.sides[0].channel[0]; var s' := Next(s, SearchEvent(s, m, key, now, ok));
      && t < |s.entries| && t != m && Aside(s, s', m, t, 0) && s'.sides[0].channel == s.sides[0].channel[1..]
      && s'.sides[0].point == s.sides[0].point
      && s'.entries[m].stage == Addressing(t) && s'.entries[t].stage == Taken(m, false)
      && s.entries[t].side == 0 && s.entries[t].stage.Queued?
  {
    LoopFlow(s, i, m);
    assert SideOk(s, 0);
    assert s.sides[0].channel[0] in s.sides[0].channel && EntryListed(s, s.sides[0].channel[0]);
  }

  // ---- Flows ----

  function FlowRank(g: Stage): nat {
    match g
    case Stored => 3
    case Queued => 2
    case Pairing => 1
    case Addressing(_) => 1
    case _ => 0
  }

  function LoopRank(s: State, i: nat): nat
    requires i < |s.sides|
  {
    var loop := s.sides[i].loop;
    if loop.Some? && loop.value < |s.entries| then SearchRank(s, loop.value) else 0
  }

  /** A flow that can still be served but is not yet, seen from its listener's side. */
  predicate Waiting(s: State, n: nat, now: int) {
    && Inv(s) && s.channelSize > 0 && n < |s.entries| && 0 < s.entries[n].side < |s.sides|
    && !Lost(s.entries[n].stage) && !Overdue(s.entries[n], now) && !Served(s.entries[n].stage)
  }

  /** A step brings the flow nearer to being served. */
  predicate FlowNearer(s: State, s': State, n: nat, now: int) {
    && n < |s.entries| && n < |s'.entries| && s.entries[n].side < |s.sides| && |s'.sides| == |s.sides|
    && s'.entries[n].side == s.entries[n].side && !Lost(s'.entries[n].stage) && !Overdue(s'.entries[n], now)
    && var i := s.entries[n].side;
      var r, r' := FlowRank(s.entries[n].stage), FlowRank(s'.entries[n].stage);
      var q, q' := |s.sides[i].channel|, |s'.sides[i].channel|;
      r' < r || (r' == r && (q' < q || (q' == q && LoopRank(s', i) < LoopRank(s, i))))
  }

  lemma FlowSearches(s: State, n: nat, key: Key, now: int)
    requires Waiting(s, n, now) && s.sides[s.entries[n].side].loop.Some?
    requires CanBring(s, 0, key) || s.sides[0].channel != []
    ensures var m := s.sides[s.entries[n].side].loop.value;
      && m < |s.entries| && FlowNearer(s, Next(s, SearchEvent(s, m, key, now, true)), n, now)
      && At(SearchEvent(s, m, key, now, true), now)
  {
    var i := s.entries[n].side;
    var m := s.sides[i].loop.value;
    LoopFlow(s, i, m);
    assert EntryListed(s, n) && EntryOk(s.entries[n]);
    if s.entries[m].stage.Addressing? {
      Addressed(s, i, m, key, now, true);
    } else if s.sides[0].channel != [] {
      Received(s, i, m, key, now, true);
    } else {
      FlowBrings(s, n, key, now);
    }
  }

  lemma FlowBrings(s: State, n: nat, key: Key, now: int)
    requires Waiting(s, n, now) && CanBring(s, 0, key) && s.sides[s.entries[n].side].loop.Some?
    requires var m := s.sides[s.entries[n].side].loop.value;
      m < |s.entries| && s.entries[m].stage.Pairing? && s.entries[m].side > 0
    ensures At(BringEvent(s, 0, key, now), now) && FlowNearer(s, Next(s, BringEvent(s, 0, key, now)), n, now)
  {
    var m := s.sides[s.entries[n].side].loop.value;
    BringHelps(s, 0, key, now);
    assert SideOk(s, 0) && !PointsTo(s.sides[0].point, n) && !PointsTo(s.sides[0].point, m);
  }

  /** The loop receives the head of the channel: the flow itself, or one that it skips or serves. */
  lemma FlowDequeues(s: State, n: nat, now: int)
    requires Waiting(s, n, now) && s.sides[s.entries[n].side].loop.None? && s.sides[s.entries[n].side].channel != []
    ensures FlowNearer(s, Next(s, Dequeue(s.entries[n].side, now)), n, now)
  {
    var i := s.entries[n].side;
    var h := s.sides[i].channel[0];
    assert SideOk(s, i) && EntryListed(s, n) && EntryOk(s.entries[n]);
    assert h in s.sides[i].channel && EntryListed(s, h);
  }

  lemma FlowOffers(s: State, n: nat, now: int)
    requires Waiting(s, n, now) && s.entries[n].stage.Stored?
    requires |s.sides[s.entries[n].side].channel| < s.channelSize
    ensures FlowNearer(s, Next(s, Offer(s.entries[n].side)), n, now)
  {
    assert EntryListed(s, n);
  }

  /** What to wait for next until the flow is served. */
  lemma FlowStep(s: State, n: nat, now: int) returns (e: Event)
    requires Waiting(s, n, now)
    ensures At(e, now) && FlowNearer(s, Next(s, e), n, now)
  {
    var i := s.entries[n].side;
    assert EntryListed(s, n) && EntryOk(s.entries[n]);
    if s.sides[i].loop.Some? {
      var key := NewKey(s.sides[0].table.Keys);
      FlowSearches(s, n, key, now);
      e := SearchEvent(s, s.sides[i].loop.value, key, now, true);
    } else if s.entries[n].stage.Stored? && |s.sides[i].channel| < s.channelSize {
      FlowOffers(s, n, now);
      e := Offer(i);
    } else {
      FlowDequeues(s, n, now);
      e := Dequeue(i, now);
    }
  }

  lemma {:induction false} ServeFlow(s: State, n: nat, now: int) returns (later: seq<Event>)
    requires Inv(s) && s.channelSize > 0 && n < |s.entries| && 0 < s.entries[n].side < |s.sides|
    requires !Lost(s.entries[n].stage) && !Overdue(s.entries[n], now)
    ensures ServedAfter(s, later, n, now)
    decreases FlowRank(s.entries[n].stage), |s.sides[s.entries[n].side].channel|, LoopRank(s, s.entries[n].side)
  {
    if Served(s.entries[n].stage) {
      later := [];
    } else {
      var e := FlowStep(s, n, now);
      InvNext(s, e);
      EntriesStay(s, e);
      var rest := ServeFlow(Next(s, e), n, now);
      later := [e] + rest;
      ExecCons(s, e, rest);
      TimelyCons(e, rest, now);
    }
  }

  // ---- Tunnels ----

  function TunnelRank(g: Stage): nat {
    match g
    case Stored => 4
    case Queued => 3
    case Taken(_, hushed) => if hushed then 1 else 2
    case _ => 0
  }

  predicate Old(s: State, n: nat, now: int) { n < |s.entries| && now > s.entries[n].timeCreated + 3000 }

  /** How far the first listener's loop is from receiving the next tunnel: in its search for one;
      with a flow to receive in time; with none yet; or with flows to skip. */
  function CustomRank(s: State, now: int): nat
    requires |s.sides| > 1
  {
    var d := s.sides[1];
    var late := if d.point.Offering? && Old(s, d.point.entry, now) then 2 else 0;
    if d.loop.Some? && d.loop.value < |s.entries| then
      var m := d.loop.value;
      if s.entries[m].stage.Pairing? then 1 else if Hushed(s, m) then 2 else 3
    else if d.channel == [] then if late == 0 then 4 + PointRank(d.point) else 22
    else if Old(s, d.channel[0], now) then 20 + |d.channel| + late
    else 4
  }

  predicate Open(s: State, t: nat) {
    && Inv(s) && s.channelSize > 0 && |s.sides| > 1 && t < |s.entries| && s.entries[t].side == 0
    && !Lost(s.entries[t].stage) && !Served(s.entries[t].stage)
  }

  predicate TunnelNearer(s: State, s': State, t: nat, now: int) {
    && t < |s.entries| && t < |s'.entries| && 1 < |s.sides| == |s'.sides|
    && s'.entries[t].side == 0 && !Lost(s'.entries[t].stage)
    && var r, r' := TunnelRank(s.entries[t].stage), TunnelRank(s'.entries[t].stage);
      var q, q' := |s.sides[0].channel|, |s'.sides[0].channel|;
      r' < r || (r' == r && (q' < q || (q' == q && CustomRank(s', now) < CustomRank(s, now))))
  }

  lemma TunnelTaken(s: State, t: nat, key: Key, now: int)
    requires Open(s, t) && s.entries[t].stage.Taken?
    ensures var f := s.entries[t].stage.flow;
      && f < |s.entries| && TunnelNearer(s, Next(s, SearchEvent(s, f, key, now, true)), t, now)
      && At(SearchEvent(s, f, key, now, true), now)
  {
    var f := s.entries[t].stage.flow;
    assert Paired(s.entries, t) && EntryOk(s.entries[f]) && EntryListed(s, f);
    Addressed(s, s.entries[f].side, f, key, now, true);
  }

  lemma TunnelOffers(s: State, t: nat, now: int)
    requires Open(s, t) && s.entries[t].stage.Stored? && |s.sides[0].channel| < s.channelSize
    ensures TunnelNearer(s, Next(s, Offer(0)), t, now)
  {
    assert EntryListed(s, t);
  }

  /** The first listener's loop takes the tunnels ahead of t, and fails to write to them. */
  lemma TunnelSearched(s: State, t: nat, key: Key, now: int)
    requires Open(s, t) && !s.entries[t].stage.Taken? && s.sides[0].channel != [] && s.sides[1].loop.Some?
    ensures var m := s.sides[1].loop.value;
      && m < |s.entries| && TunnelNearer(s, Next(s, SearchEvent(s, m, key, now, false)), t, now)
      && At(SearchEvent(s, m, key, now, false), now)
  {
    var m := s.sides[1].loop.value;
    LoopFlow(s, 1, m);
    assert EntryListed(s, t);
    if s.entries[m].stage.Addressing? {
      Addressed(s, 1, m, key, now, false);
    } else {
      Received(s, 1, m, key, now, false);
    }
  }

  lemma TunnelBrings(s: State, t: nat, key: Key, now: int)
    requires Open(s, t) && !s.entries[t].stage.Taken? && s.sides[1].loop.None? && CanBring(s, 1, key)
    ensures At(BringEvent(s, 1, key, now), now) && TunnelNearer(s, Next(s, BringEvent(s, 1, key, now)), t, now)
  {
    BringHelps(s, 1, key, now);
    BringsYoung(s, 1, key, now);
    assert SideOk(s, 1) && !PointsTo(s.sides[1].point, t);
  }

  lemma TunnelDequeues(s: State, t: nat, now: int)
    requires Open(s, t) && !s.entries[t].stage.Taken? && s.sides[1].loop.None? && s.sides[1].channel != []
    ensures TunnelNearer(s, Next(s, Dequeue(1, now)), t, now)
  {
    var d := s.sides[1];
    var h := d.channel[0];
    assert SideOk(s, 1);
    assert h in d.channel && EntryListed(s, h) && EntryListed(s, t);
    if d.point.Offering? { assert EntryListed(s, d.point.entry); }
  }

  lemma TunnelStep(s: State, t: nat, now: int) returns (e: Event)
    requires Open(s, t)
    ensures At(e, now) && TunnelNearer(s, Next(s, e), t, now)
  {
    assert EntryListed(s, t) && EntryOk(s.entries[t]);
    if s.entries[t].stage.Taken? {
      TunnelTaken(s, t, "", now);
      e := SearchEvent(s, s.entries[t].stage.flow, "", now, true);
    } else if s.entries[t].stage.Stored? && |s.sides[0].channel| < s.channelSize {
      TunnelOffers(s, t, now);
      e := Offer(0);
    } else if s.sides[1].loop.Some? {
      TunnelSearched(s, t, "", now);
      e := SearchEvent(s, s.sides[1].loop.value, "", now, false);
    } else if s.sides[1].channel != [] {
      TunnelDequeues(s, t, now);
      e := Dequeue(1, now);
    } else {
      var key := NewKey(s.sides[1].table.Keys);
      TunnelBrings(s, t, key, now);
      e := BringEvent(s, 1, key, now);
    }
  }

  lemma {:induction false} ServeTunnel(s: State, t: nat, now: int) returns (later: seq<Event>)
    requires Inv(s) && s.channelSize > 0 && |s.sides| > 1 && t < |s.entries| && s.entries[t].side == 0
    requires !Lost(s.entries[t].stage)
    ensures ServedAfter(s, later, t, now)
    decreases TunnelRank(s.entries[t].stage), |s.sides[0].channel|, CustomRank(s, now)
  {
    if Served(s.entries[t].stage) {
      later := [];
    } else {
      var e := TunnelStep(s, t, now);
      InvNext(s, e);
      EntriesStay(s, e);
      var rest := ServeTunnel(Next(s, e), t, now);
      later := [e] + rest;
      ExecCons(s, e, rest);
      TimelyCons(e, rest, now);
    }
  }

  // ---- Main result ----

  /** From every reachable state and whatever time it is: some continuation with clock readings
      from then on serves a flow or a tunnel if and only if it is not lost (expired, given up after
      a failed address write, or refused) and, if it is a flow that handleLoop has not received in
      time, at most three seconds have passed since it was created. */
  lemma ServedUnlessLost(channelSize: nat, token: Packet, listeners: nat, es: seq<Event>, n: nat, now: int)
    requires channelSize > 0 && listeners > 0
    requires n < |Exec(Init(channelSize, token, listeners), es).entries|
    ensures var s := Exec(Init(channelSize, token, listeners), es); var x := s.entries[n];
      (exists later :: ServedAfter(s, later, n, now)) <==> !Lost(x.stage) && !Overdue(x, now)
  {
    var s := Exec(Init(channelSize, token, listeners), es);
    InitOk(channelSize, token, listeners);
    ExecStays(Init(channelSize, token, listeners), es);
    if Lost(s.entries[n].stage) || Overdue(s.entries[n], now) {
      forall later
        ensures !ServedAfter(s, later, n, now)
      {
        NeverServed(s, later, n, now);
      }
    } else {
      assert EntryListed(s, n);
      var later;
      if s.entries[n].side > 0 { later := ServeFlow(s, n, now); } else { later := ServeTunnel(s, n, now); }
      assert ServedAfter(s, later, n, now);
    }
  }

  lemma NeverServed(s: State, later: seq<Event>, n: nat, now: int)
    requires Inv(s) && n < |s.entries| && (Lost(s.entries[n].stage) || Overdue(s.entries[n], now))
    ensures !ServedAfter(s, later, n, now)
  {
    if Lost(s.entries[n].stage) {
      LostForever(s, later, n);
    } else if Timely(later, now) {
      OverdueForever(s, later, n, now);
    }
  }

  // ---- Losing entries ----

  function Arrival(s: State, i: nat): seq<Event> { [Receive(i, "x", s.token)] + ([Store(i, 0)] + [Offer(i)]) }

  predicate Untouched(s: State, i: nat) { i < |s.sides| && s.sides[i] == Side(Idle, [], map[], None) }

  lemma ExecOne(s: State, e: Event)
    ensures Exec(s, [e]) == Next(s, e)
  {
    assert [e][1..] == [];
  }

  /** The first sender of a side arrives and is queued. */
  lemma Arrives(s: State, i: nat)
    requires Untouched(s, i) && s.channelSize > 0
    ensures var n := |s.entries|; var s' := Exec(s, Arrival(s, i));
      && s'.channelSize == s.channelSize && s'.token == s.token
      && |s'.entries| == n + 1 && s'.entries[..n] == s.entries
      && s'.entries[n].stage.Queued? && s'.entries[n].timeCreated == 0 && s'.entries[n].side == i
      && s'.sides == s.sides[i := Side(Idle, [n], map["x" := n], None)]
  {
    var s1 := Next(s, Receive(i, "x", s.token));
    var s2 := Next(s1, Store(i, 0));
    ExecCons(s, Receive(i, "x", s.token), [Store(i, 0)] + [Offer(i)]);
    ExecCons(s1, Store(i, 0), [Offer(i)]);
    ExecOne(s2, Offer(i));
    var n := |s.entries|;
    assert s1 == s.(sides := s.sides[i := Side(Creating("x", s.token), [], map[], None)]);
    assert s2.sides == s.sides[i := Side(Offering(n, s.token), [], map["x" := n], None)];
    assert Next(s2, Offer(i)).sides[i] == Side(Idle, [n], map["x" := n], None);
  }

  /** A flow that waits for 3001 ms in an otherwise idle server is lost. */
  lemma ExpiredReachable(channelSize: nat, token: Packet, listeners: nat) returns (es: seq<Event>)
    requires channelSize > 0 && listeners > 0
    ensures var s := Exec(Init(channelSize, token, listeners), es); |s.entries| == 1 && s.entries[0].stage.Expired?
  {
    var s0 := Init(channelSize, token, listeners);
    var s1 := Exec(s0, Arrival(s0, 1));
    es := Arrival(s0, 1) + [Dequeue(1, 3001)];
    Arrives(s0, 1);
    ExecAppend(s0, Arrival(s0, 1), [Dequeue(1, 3001)]);
    ExecOne(s1, Dequeue(1, 3001));
  }

  /** So is a tunnel to which the address cannot be written. */
  lemma DroppedReachable(channelSize: nat, token: Packet, listeners: nat) returns (es: seq<Event>)
    requires channelSize > 0 && listeners > 0
    ensures var s := Exec(Init(channelSize, token, listeners), es); |s.entries| == 2 && s.entries[0].stage.Dropped?
  {
    var s0 := Init(channelSize, token, listeners);
    var s1 := Exec(s0, Arrival(s0, 0));
    var s2 := Exec(s1, Arrival(s1, 1));
    Arrives(s0, 0);
    Arrives(s1, 1);
    assert s2.entries[0] == s2.entries[..1][0] == s1.entries[0];
    var write := FailsToWrite(s2);
    es := Arrival(s0, 0) + (Arrival(s1, 1) + write);
    ExecAppend(s0, Arrival(s0, 0), Arrival(s1, 1) + write);
    ExecAppend(s1, Arrival(s1, 1), write);
  }

  lemma Finds(s: State)
    requires |s.sides| > 1 && s.sides[0].channel == [0] && s.sides[1].channel == [1] && s.sides[1].loop.None?
    requires |s.entries| == 2 && s.entries[1].side == 1 && s.entries[1].timeCreated == 0
    ensures var s' := Exec(s, [Dequeue(1, 0)] + [TakeTunnel(1)]);
      && |s'.entries| == 2 && s'.entries[0].stage == Taken(1, false) && s'.entries[1].stage == Addressing(0)
      && s'.entries[1].side < |s'.sides|
  {
    var s1 := Next(s, Dequeue(1, 0));
    ExecCons(s, Dequeue(1, 0), [TakeTunnel(1)]);
    ExecOne(s1, TakeTunnel(1));
    assert s1.sides[0].channel == [0] && s1.entries[1].stage.Pairing?;
  }

  lemma FailsToWrite(s: State) returns (es: seq<Event>)
    requires |s.sides| > 1 && s.sides[0].channel == [0] && s.sides[1].channel == [1] && s.sides[1].loop.None?
    requires |s.entries| == 2 && s.entries[1].side == 1 && s.entries[1].timeCreated == 0
    ensures |Exec(s, es).entries| == 2 && Exec(s, es).entries[0].stage.Dropped?
  {
    var find, write := [Dequeue(1, 0)] + [TakeTunnel(1)], [ClosePing(1)] + [WriteAddress(1, false)];
    es := find + write;
    Finds(s);
    ExecAppend(s, find, write);
    var s2 := Exec(s, find);
    ExecCons(s2, ClosePing(1), [WriteAddress(1, false)]);
    ExecOne(Next(s2, ClosePing(1)), WriteAddress(1, false));
  }
}
