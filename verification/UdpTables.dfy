/** The two kinds of tables of the UDP transport (udp.go on the server).  Every local listener
    has a table of flows and the tunnel acceptor has the table of tunnels; the goroutines that
    fill them have the same shape: look the sender up and pass the datagram on under the mutex,
    or create an entry, store it under the mutex, offer it to a channel, and when the channel is
    full close and delete it, outside the mutex.  Side 0 is the tunnel acceptor, every other
    side a local listener with its handleLoop. */
module UdpTables {
  import opened Options

  type Key = string // the sender's address
  type Packet = seq<char>

  const PAYLOAD_SIZE := 100_000

  datatype Stage =
    | Stored                                      // in the table, not offered yet
    | Full                                        // the channel was full; payload not closed yet
    | Refusing                                    // payload closed, entry not deleted yet
    | Refused                                     // entry deleted
    | Queued                                      // in udpChan or tunnelChannel
    | Expired                                     // a flow dequeued too late: skipped for good
    | Pairing                                     // a flow waiting for a tunnel
    | Addressing(tunnel: nat)                     // a flow with a tunnel in hand
    | Relaying(tunnel: nat)                       // a flow in udpCopy
    | Vacated(tunnel: nat)                        // a flow closed and deleted; its tunnel is next
    | Taken(flow: nat, hushed: bool)              // a tunnel in hand; ping channel closed?
    | Dropped                                     // a tunnel whose address write failed
    | Bound(flow: nat)                            // a tunnel in udpCopy
    | Gone                                        // closed and deleted by udpCopy

  /** A payload channel and the copy loop that reads it.  copying: the loop is running; received
      logs what was put into the channel, taken what the loop received from it, written what it
      then wrote to the other end, and lost the datagram whose write failed. */
  datatype Traffic = Traffic(
    payload: seq<Packet>,
    copying: bool,
    received: seq<Packet>,
    taken: seq<Packet>,
    written: seq<Packet>,
    lost: seq<Packet>)

  datatype Entry = Entry(
    side: nat,
    key: Key,
    timeCreated: int,
    traffic: Traffic,
    closed: bool,
    pingCloses: nat,
    stage: Stage)

  function NewEntry(side: nat, key: Key, now: int): Entry {
    Entry(side, key, now, Traffic([], false, [], [], [], []), false, 0, Stored)
  }

  function Buffered(q: Traffic, packet: Packet): Traffic {
    q.(payload := q.payload + [packet], received := q.received + [packet])
  }

  function Enqueued(x: Entry, packet: Packet): Entry { x.(traffic := Buffered(x.traffic, packet)) }

  /** The entry with its copy loop running, or ended. */
  function Copying(x: Entry, running: bool): Entry { x.(traffic := x.traffic.(copying := running)) }

  /** One turn of a copy loop: an empty datagram is taken and not written, since the write loop
      runs zero times; a failed write has taken its datagram, and ends the loop. */
  function Copied(q: Traffic, ok: bool): Traffic
    requires q.payload != []
  {
    var p := q.payload[0];
    var q' := q.(payload := q.payload[1..], taken := q.taken + [p]);
    if p == [] then q'
    else if ok then q'.(written := q.written + [p])
    else q'.(lost := q.lost + [p], copying := false)
  }

  /** Program point of the reading goroutine of a side. */
  datatype Point =
    | Idle
    | Creating(key: Key, packet: Packet)
    | Offering(entry: nat, packet: Packet)
    | Closing(entry: nat)
    | Deleting(entry: nat)

  /** loop: the flow for which the side's handleLoop is looking for a tunnel, if any. */
  datatype Side = Side(point: Point, channel: seq<nat>, table: map<Key, nat>, loop: Option<nat>)

  datatype State = State(channelSize: nat, token: Packet, sides: seq<Side>, entries: seq<Entry>, panicked: bool)

  datatype Event =
    | Receive(side: nat, key: Key, packet: Packet)
    | Store(side: nat, now: int)
    | Offer(side: nat)
    | Close(side: nat)
    | Delete(side: nat)
    | Dequeue(side: nat, now: int)
    | TakeTunnel(flow: nat)
    | ClosePing(flow: nat)
    | WriteAddress(flow: nat, ok: bool)
    | Copy(entry: nat, ok: bool)
    | EndCopy(entry: nat)
    | CloseFlow(flow: nat)
    | CloseTunnel(flow: nat)

  function Init(channelSize: nat, token: Packet, listeners: nat): State {
    State(channelSize, token, seq(listeners + 1, _ => Side(Idle, [], map[], None)), [], false)
  }

  function PutEntry(s: State, e: nat, x: Entry): State
    requires e < |s.entries|
  {
    s.(entries := s.entries[e := x])
  }

  function PutSide(s: State, i: nat, d: Side): State
    requires i < |s.sides|
  {
    s.(sides := s.sides[i := d])
  }

  /** The reading goroutine of side i. */
  function ReaderNext(s: State, i: nat, e: Event): State
    requires i < |s.sides|
  {
    var d := s.sides[i];
    match e
    case Receive(_, key, packet) =>
      if !d.point.Idle? then s
      else if key in d.table && d.table[key] < |s.entries| then
        var x := s.entries[d.table[key]];
        if x.closed then s.(panicked := true)
        else if |x.traffic.payload| < PAYLOAD_SIZE then PutEntry(s, d.table[key], Enqueued(x, packet))
        else s
      else if i == 0 && packet != s.token then s // a new tunnel must present the token
      else PutSide(s, i, d.(point := Creating(key, packet)))
    case Store(_, now) =>
      if d.point.Creating? then
        var n := |s.entries|;
        PutSide(s.(entries := s.entries + [NewEntry(i, d.point.key, now)]), i,
                d.(point := Offering(n, d.point.packet), table := d.table[d.point.key := n]))
      else s
    case Offer(_) =>
      if d.point.Offering? && d.point.entry < |s.entries| then
        var n := d.point.entry;
        var x := s.entries[n];
        if |d.channel| < s.channelSize then
          // a local listener sends the first payload at once; see the assumptions in README.md
          PutSide(PutEntry(s, n, (if i > 0 then Enqueued(x, d.point.packet) else x).(stage := Queued)), i,
                  d.(point := Idle, channel := d.channel + [n])).(panicked := s.panicked || (i > 0 && x.closed))
        else PutSide(PutEntry(s, n, x.(stage := Full)), i, d.(point := Closing(n)))
      else s
    case Close(_) =>
      if d.point.Closing? && d.point.entry < |s.entries| then
        var x := s.entries[d.point.entry];
        PutSide(PutEntry(s, d.point.entry, x.(stage := Refusing, closed := true)), i,
                d.(point := Deleting(d.point.entry)))
          .(panicked := s.panicked || x.closed)
      else s
    case Delete(_) =>
      if d.point.Deleting? && d.point.entry < |s.entries| then
        var x := s.entries[d.point.entry];
        PutSide(PutEntry(s, d.point.entry, x.(stage := Refused)), i, d.(point := Idle, table := d.table - {x.key}))
      else s
    case Dequeue(_, now) =>
      if i > 0 && d.loop.None? && d.channel != [] && d.channel[0] < |s.entries| then
        var n := d.channel[0];
        var x := s.entries[n];
        if now - x.timeCreated > 3000 then
          PutSide(PutEntry(s, n, x.(stage := Expired)), i, d.(channel := d.channel[1..]))
        else
          PutSide(PutEntry(s, n, x.(stage := Pairing)), i, d.(channel := d.channel[1..], loop := Some(n)))
      else s
    case _ => s
  }

  /** handleLoop and udpCopy for flow f. */
  function FlowNext(s: State, f: nat, e: Event): State
    requires f < |s.entries|
  {
    var x := s.entries[f];
    match e
    case TakeTunnel(_) =>
      if x.stage.Pairing? && s.sides != [] && s.sides[0].channel != [] && s.sides[0].channel[0] < |s.entries| then
        var t := s.sides[0].channel[0];
        PutSide(PutEntry(PutEntry(s, f, x.(stage := Addressing(t))), t, s.entries[t].(stage := Taken(f, false))), 0,
                s.sides[0].(channel := s.sides[0].channel[1..]))
      else s
    case ClosePing(_) =>
      if x.stage.Addressing? && x.stage.tunnel < |s.entries| && s.entries[x.stage.tunnel].stage == Taken(f, false) then
        var y := s.entries[x.stage.tunnel];
        PutEntry(s, x.stage.tunnel, y.(stage := Taken(f, true), pingCloses := y.pingCloses + 1))
          .(panicked := s.panicked || y.pingCloses > 0)
      else s
    case WriteAddress(_, ok) =>
      if x.stage.Addressing? && x.stage.tunnel < |s.entries| && s.entries[x.stage.tunnel].stage == Taken(f, true)
         && x.side < |s.sides|
      then
        var y := s.entries[x.stage.tunnel];
        if ok then
          PutSide(
            PutEntry(PutEntry(s, f, Copying(x, true).(stage := Relaying(x.stage.tunnel))),
                     x.stage.tunnel, Copying(y, true).(stage := Bound(f))),
            x.side, s.sides[x.side].(loop := None))
        else PutEntry(PutEntry(s, f, x.(stage := Pairing)), x.stage.tunnel, y.(stage := Dropped))
      else s
    case CloseFlow(_) =>
      // critical section of the flow's table
      if x.stage.Relaying? && !x.traffic.copying && x.side < |s.sides|
         && x.stage.tunnel < |s.entries| && !s.entries[x.stage.tunnel].traffic.copying
      then
        PutSide(PutEntry(s, f, x.(stage := Vacated(x.stage.tunnel), closed := true)), x.side,
                s.sides[x.side].(table := s.sides[x.side].table - {x.key})).(panicked := s.panicked || x.closed)
      else s
    case CloseTunnel(_) =>
      // critical section of the tunnel table
      if x.stage.Vacated? && x.stage.tunnel < |s.entries| && s.entries[x.stage.tunnel].side < |s.sides| then
        var y := s.entries[x.stage.tunnel];
        PutSide(PutEntry(PutEntry(s, f, x.(stage := Gone)), x.stage.tunnel, y.(stage := Gone, closed := true)), y.side,
                s.sides[y.side].(table := s.sides[y.side].table - {y.key})).(panicked := s.panicked || y.closed)
      else s
    case _ => s
  }

  function Next(s: State, e: Event): State {
    match e
    case Copy(n, ok) =>
      if n < |s.entries| && s.entries[n].traffic.copying && s.entries[n].traffic.payload != [] then
        PutEntry(s, n, s.entries[n].(traffic := Copied(s.entries[n].traffic, ok)))
      else s
    case EndCopy(n) => if n < |s.entries| then PutEntry(s, n, Copying(s.entries[n], false)) else s
    case Receive(i, _, _) => if i < |s.sides| then ReaderNext(s, i, e) else s
    case Store(i, _) => if i < |s.sides| then ReaderNext(s, i, e) else s
    case Offer(i) => if i < |s.sides| then ReaderNext(s, i, e) else s
    case Close(i) => if i < |s.sides| then ReaderNext(s, i, e) else s
    case Delete(i) => if i < |s.sides| then ReaderNext(s, i, e) else s
    case Dequeue(i, _) => if i < |s.sides| then ReaderNext(s, i, e) else s
    case _ => if e.flow < |s.entries| then FlowNext(s, e.flow, e) else s
  }

  function Exec(s: State, es: seq<Event>): State
    decreases |es|
  {
    if es == [] then s else Exec(Next(s, es[0]), es[1..])
  }

  // ---- The invariant ----

  predicate Listed(g: Stage) { !g.Refused? && !g.Vacated? && !g.Gone? }

  predicate FlowStage(g: Stage) { g.Expired? || g.Pairing? || g.Addressing? || g.Relaying? || g.Vacated? }

  predicate TunnelStage(g: Stage) { g.Taken? || g.Dropped? || g.Bound? }

  /** An entry by itself: when its channel is closed, which side it may be on, its ping channel. */
  predicate EntryOk(x: Entry) {
    && (x.closed <==> x.stage.Refusing? || !Listed(x.stage))
    && (FlowStage(x.stage) ==> x.side > 0)
    && (TunnelStage(x.stage) ==> x.side == 0)
    && (x.stage.Taken? ==> x.pingCloses == if x.stage.hushed then 1 else 0)
    && (x.side == 0 && (x.stage.Stored? || x.stage.Queued?) ==> x.pingCloses == 0)
    && (x.stage.Bound? || x.stage.Dropped? ==> x.pingCloses == 1)
    && x.pingCloses <= 1
    && (x.traffic.copying ==> x.stage.Relaying? || x.stage.Bound?)
    && (x.traffic.lost != [] ==> Served(x.stage))
  }

  /** Relayed by udpCopy, now or formerly. */
  predicate Served(g: Stage) { g.Relaying? || g.Vacated? || g.Bound? || g.Gone? }

  predicate InLoop(g: Stage) { g.Pairing? || g.Addressing? }

  predicate Offers(p: Point, n: nat) { p.Offering? && p.entry == n }

  /** An entry and its side: listed under its key, where its stage says it is. */
  predicate EntryListed(s: State, n: nat)
    requires n < |s.entries|
  {
    var x := s.entries[n];
    && x.side < |s.sides|
    && (Listed(x.stage) ==> x.key in s.sides[x.side].table && s.sides[x.side].table[x.key] == n)
    && (x.stage.Stored? <==> Offers(s.sides[x.side].point, n))
    && (x.stage.Full? <==> s.sides[x.side].point == Closing(n))
    && (x.stage.Refusing? <==> s.sides[x.side].point == Deleting(n))
    && (x.stage.Queued? <==> n in s.sides[x.side].channel)
    && (InLoop(x.stage) <==> s.sides[x.side].loop == Some(n))
  }

  predicate HoldsTunnel(g: Stage, t: nat) { (g.Relaying? || g.Vacated?) && g.tunnel == t }

  /** A flow and the tunnel paired with it name each other. */
  predicate Paired(entries: seq<Entry>, n: nat)
    requires n < |entries|
  {
    var g := entries[n].stage;
    && (g.Addressing? ==>
          g.tunnel < |entries| && entries[g.tunnel].stage.Taken? && entries[g.tunnel].stage.flow == n)
    && (g.Relaying? || g.Vacated? ==> g.tunnel < |entries| && entries[g.tunnel].stage == Bound(n))
    && (g.Vacated? ==> !entries[g.tunnel].traffic.copying)
    && (g.Taken? ==> g.flow < |entries| && entries[g.flow].stage == Addressing(n))
    && (g.Bound? ==> g.flow < |entries| && HoldsTunnel(entries[g.flow].stage, n))
  }

  /** A table's entry for a key is an entry of that side and key that has not been deleted. */
  predicate Lists(s: State, i: nat, key: Key)
    requires i < |s.sides| && key in s.sides[i].table
  {
    var n := s.sides[i].table[key];
    n < |s.entries| && s.entries[n].side == i && s.entries[n].key == key && Listed(s.entries[n].stage)
  }

  predicate SideOk(s: State, i: nat)
    requires i < |s.sides|
  {
    var d := s.sides[i];
    && (forall key :: key in d.table ==> Lists(s, i, key))
    && (forall k :: 0 <= k < |d.channel| ==> d.channel[k] < |s.entries| && s.entries[d.channel[k]].side == i)
    && (forall j, k :: 0 <= j < k < |d.channel| ==> d.channel[j] != d.channel[k])
    && (d.point.Creating? ==> d.point.key !in d.table)
    && (d.point.Offering? || d.point.Closing? || d.point.Deleting? ==>
          d.point.entry < |s.entries| && s.entries[d.point.entry].side == i)
    && (d.loop.Some? ==> d.loop.value < |s.entries| && s.entries[d.loop.value].side == i)
  }

  predicate AllOk(s: State) { forall n :: 0 <= n < |s.entries| ==> EntryOk(s.entries[n]) }

  predicate AllListed(s: State) { forall n :: 0 <= n < |s.entries| ==> EntryListed(s, n) }

  predicate AllPaired(entries: seq<Entry>) { forall n :: 0 <= n < |entries| ==> Paired(entries, n) }

  predicate SidesOk(s: State) { forall i :: 0 <= i < |s.sides| ==> SideOk(s, i) }

  predicate Inv(s: State) {
    !s.panicked && |s.sides| >= 1 && AllOk(s) && AllListed(s) && AllPaired(s.entries) && SidesOk(s)
  }

  /** Stages with the same part in a pair, or with none. */
  predicate Kin(g: Stage, h: Stage) {
    match g
    case Addressing(t) => h == g
    case Relaying(t) => HoldsTunnel(h, t)
    case Vacated(t) => HoldsTunnel(h, t)
    case Taken(f, _) => h.Taken? && h.flow == f
    case Bound(f) => h == g
    case _ => !h.Addressing? && !h.Relaying? && !h.Vacated? && !h.Taken? && !h.Bound?
  }

  predicate About(p: Point, n: nat) { p.Idle? || Offers(p, n) || p == Closing(n) || p == Deleting(n) }

  /** A flow on its way out has a tunnel whose copy loop has ended. */
  predicate TunnelEnded(entries: seq<Entry>, x: Entry) {
    x.stage.Vacated? ==> x.stage.tunnel < |entries| && !entries[x.stage.tunnel].traffic.copying
  }

  /** A change of entry n to x and of its side to d that concerns no other entry. */
  predicate Change(s: State, n: nat, x: Entry, d: Side)
    requires n < |s.entries| && s.entries[n].side < |s.sides|
  {
    var y := s.entries[n];
    var c := s.sides[y.side];
    && x.side == y.side && x.key == y.key && EntryOk(x) && Kin(y.stage, x.stage)
    && (x.traffic.copying ==> y.traffic.copying) && TunnelEnded(s.entries, x)
    && (d.point == c.point || (About(c.point, n) && About(d.point, n)))
    && (d.channel == c.channel || (d.channel == c.channel + [n] && n !in c.channel)
        || (c.channel != [] && c.channel[0] == n && d.channel == c.channel[1..]))
    && (Listed(x.stage) ==> Listed(y.stage) && d.table == c.table)
    && (!Listed(x.stage) ==> d.table == if Listed(y.stage) then c.table - {y.key} else c.table)
    && (d.loop == c.loop || (c.loop.None? && d.loop == Some(n)))
    && (x.stage.Stored? <==> Offers(d.point, n))
    && (x.stage.Full? <==> d.point == Closing(n))
    && (x.stage.Refusing? <==> d.point == Deleting(n))
    && (x.stage.Queued? <==> n in d.channel)
    && (InLoop(x.stage) <==> d.loop == Some(n))
  }

  lemma ChangeListed(s: State, n: nat, x: Entry, d: Side)
    requires AllListed(s) && n < |s.entries| && s.entries[n].side < |s.sides| && Change(s, n, x, d)
    ensures AllListed(PutSide(PutEntry(s, n, x), x.side, d))
  {
    var s' := PutSide(PutEntry(s, n, x), x.side, d);
    assert EntryListed(s, n);
    forall m | 0 <= m < |s'.entries|
      ensures EntryListed(s', m)
    {
      assert EntryListed(s, m);
    }
  }

  lemma ChangePairs(entries: seq<Entry>, n: nat, x: Entry)
    requires AllPaired(entries) && n < |entries| && Kin(entries[n].stage, x.stage)
    requires (x.traffic.copying ==> entries[n].traffic.copying) && TunnelEnded(entries, x)
    ensures AllPaired(entries[n := x])
  {
    var after := entries[n := x];
    assert Paired(entries, n);
    forall m | 0 <= m < |after|
      ensures Paired(after, m)
    {
      assert Paired(entries, m);
    }
  }

  lemma ChangeOwnSide(s: State, n: nat, x: Entry, d: Side)
    requires n < |s.entries| && s.entries[n].side < |s.sides| && Change(s, n, x, d)
    requires EntryListed(s, n) && SideOk(s, x.side)
    ensures SideOk(PutSide(PutEntry(s, n, x), x.side, d), x.side)
  {
    var s' := PutSide(PutEntry(s, n, x), x.side, d);
    forall key | key in d.table
      ensures Lists(s', x.side, key)
    {
      assert Lists(s, x.side, key);
    }
  }

  lemma ChangeOtherSide(s: State, n: nat, x: Entry, d: Side, i: nat)
    requires n < |s.entries| && x.side == s.entries[n].side && x.key == s.entries[n].key
    requires x.side < |s.sides| && i < |s.sides| && i != x.side && SideOk(s, i)
    ensures SideOk(PutSide(PutEntry(s, n, x), x.side, d), i)
  {
    var s' := PutSide(PutEntry(s, n, x), x.side, d);
    forall key | key in s'.sides[i].table
      ensures Lists(s', i, key)
    {
      assert Lists(s, i, key);
    }
  }

  lemma ChangeSides(s: State, n: nat, x: Entry, d: Side)
    requires SidesOk(s) && n < |s.entries| && s.entries[n].side < |s.sides| && Change(s, n, x, d)
    requires EntryListed(s, n)
    ensures SidesOk(PutSide(PutEntry(s, n, x), x.side, d))
  {
    var s' := PutSide(PutEntry(s, n, x), x.side, d);
    forall i | 0 <= i < |s'.sides|
      ensures SideOk(s', i)
    {
      assert SideOk(s, i);
      if i == x.side { ChangeOwnSide(s, n, x, d); } else { ChangeOtherSide(s, n, x, d, i); }
    }
  }

  lemma InvChange(s: State, n: nat, x: Entry, d: Side)
    requires Inv(s) && n < |s.entries| && s.entries[n].side < |s.sides| && Change(s, n, x, d)
    ensures Inv(PutSide(PutEntry(s, n, x), x.side, d))
  {
    assert EntryListed(s, n);
    ChangeListed(s, n, x, d);
    ChangePairs(s.entries, n, x);
    ChangeSides(s, n, x, d);
  }

  /** As InvChange, when the side stays as it is. */
  lemma InvEntry(s: State, n: nat, x: Entry)
    requires Inv(s) && n < |s.entries| && x.side == s.entries[n].side && x.key == s.entries[n].key && EntryOk(x)
    requires Kin(s.entries[n].stage, x.stage) && Listed(x.stage) == Listed(s.entries[n].stage)
    requires x.traffic.copying ==> s.entries[n].traffic.copying
    requires x.stage.Vacated? ==> s.entries[n].stage == x.stage
    requires var y := s.entries[n].stage;
      && x.stage.Stored? == y.Stored? && x.stage.Full? == y.Full?
      && x.stage.Refusing? == y.Refusing? && x.stage.Queued? == y.Queued?
      && InLoop(x.stage) == InLoop(y)
    ensures Inv(PutEntry(s, n, x))
  {
    assert EntryListed(s, n) && Paired(s.entries, n);
    InvChange(s, n, x, s.sides[x.side]);
    assert s.sides[x.side := s.sides[x.side]] == s.sides;
  }

  lemma InvReceive(s: State, i: nat, e: Event)
    requires Inv(s) && i < |s.sides| && e.Receive?
    ensures Inv(ReaderNext(s, i, e))
  {
    var s' := ReaderNext(s, i, e);
    var key := e.key;
    assert SideOk(s, i);
    if key in s.sides[i].table {
      var n := s.sides[i].table[key];
      assert Lists(s, i, key);
      assert EntryListed(s, n) && EntryOk(s.entries[n]);
      if s' != s { InvEntry(s, n, s'.entries[n]); }
    } else if s' != s {
      forall n | 0 <= n < |s'.entries|
        ensures EntryListed(s', n) && Paired(s'.entries, n)
      {
        assert EntryListed(s, n) && Paired(s.entries, n);
      }
      forall j | 0 <= j < |s'.sides|
        ensures SideOk(s', j)
      {
        assert SideOk(s, j);
        forall k | k in s'.sides[j].table
          ensures Lists(s', j, k)
        {
          assert Lists(s, j, k);
        }
      }
    }
  }

  lemma InvStore(s: State, i: nat, e: Event)
    requires Inv(s) && i < |s.sides| && e.Store?
    ensures Inv(ReaderNext(s, i, e))
  {
    var s' := ReaderNext(s, i, e);
    assert SideOk(s, i);
    forall n | 0 <= n < |s'.entries|
      ensures EntryOk(s'.entries[n]) && EntryListed(s', n) && Paired(s'.entries, n)
    {
      if n < |s.entries| { assert EntryOk(s.entries[n]) && EntryListed(s, n) && Paired(s.entries, n); }
    }
    forall j | 0 <= j < |s'.sides|
      ensures SideOk(s', j)
    {
      assert SideOk(s, j);
      forall key | key in s'.sides[j].table
        ensures Lists(s', j, key)
      {
        assert key in s.sides[j].table ==> Lists(s, j, key);
      }
    }
  }

  // Offer, Close, Delete and Dequeue change one entry together with its side.

  lemma InvPointed(s: State, i: nat, e: Event)
    requires Inv(s) && i < |s.sides| && (e.Close? || e.Delete?)
    ensures Inv(ReaderNext(s, i, e))
  {
    var s' := ReaderNext(s, i, e);
    assert SideOk(s, i);
    if s' != s {
      var n := s.sides[i].point.entry;
      assert EntryOk(s.entries[n]) && EntryListed(s, n) && s.entries[n].side == i;
      InvChange(s, n, s'.entries[n], s'.sides[i]);
    }
  }

  lemma InvAccepted(s: State, i: nat)
    requires Inv(s) && i < |s.sides| && s.sides[i].point.Offering? && |s.sides[i].channel| < s.channelSize
    ensures Inv(ReaderNext(s, i, Offer(i)))
  {
    assert SideOk(s, i);
    var d := s.sides[i];
    var n := d.point.entry;
    var s' := ReaderNext(s, i, Offer(i));
    assert EntryOk(s.entries[n]) && EntryListed(s, n);
    InvChange(s, n, s'.entries[n], d.(point := Idle, channel := d.channel + [n]));
  }

  lemma InvRefused(s: State, i: nat)
    requires Inv(s) && i < |s.sides| && s.sides[i].point.Offering? && |s.sides[i].channel| >= s.channelSize
    ensures Inv(ReaderNext(s, i, Offer(i)))
  {
    assert SideOk(s, i);
    var n := s.sides[i].point.entry;
    assert EntryOk(s.entries[n]) && EntryListed(s, n);
    InvChange(s, n, s.entries[n].(stage := Full), s.sides[i].(point := Closing(n)));
  }

  lemma InvDequeue(s: State, i: nat, e: Event)
    requires Inv(s) && i < |s.sides| && e.Dequeue?
    ensures Inv(ReaderNext(s, i, e))
  {
    var s' := ReaderNext(s, i, e);
    assert SideOk(s, i);
    if s' != s {
      var n := s.sides[i].channel[0];
      assert n in s.sides[i].channel;
      assert EntryOk(s.entries[n]) && EntryListed(s, n) && s.entries[n].side == i;
      InvChange(s, n, s'.entries[n], s'.sides[i]);
    }
  }

  /** The goroutines of a flow, where they touch only the flow or only the tunnel in its hands. */
  lemma InvFlow(s: State, f: nat, e: Event)
    requires Inv(s) && f < |s.entries| && (e.ClosePing? || e.CloseFlow?)
    ensures Inv(FlowNext(s, f, e))
  {
    var s' := FlowNext(s, f, e);
    assert EntryOk(s.entries[f]) && EntryListed(s, f) && Paired(s.entries, f);
    if s' != s {
      match e
      case ClosePing(_) =>
        var t := s.entries[f].stage.tunnel;
        assert EntryOk(s.entries[t]);
        InvEntry(s, t, s'.entries[t]);
      case CloseFlow(_) => InvChange(s, f, s'.entries[f], s'.sides[s.entries[f].side]);
    }
  }

  // Receiving a tunnel, writing the address and the second half of the teardown change a flow
  // and a tunnel together.

  /** Pairs after a change of a flow and a tunnel that name each other, or no entry at all. */
  lemma TwoPairs(entries: seq<Entry>, f: nat, x: Entry, t: nat, y: Entry)
    requires AllPaired(entries) && f < |entries| && t < |entries| && f != t
    requires Partner(entries[f].stage) == -1 || Partner(entries[f].stage) == t
    requires Partner(entries[t].stage) == -1 || Partner(entries[t].stage) == f
    requires Paired(entries[f := x][t := y], f) && Paired(entries[f := x][t := y], t)
    ensures AllPaired(entries[f := x][t := y])
  {
    var after := entries[f := x][t := y];
    assert Paired(entries, f) && Paired(entries, t);
    forall m | 0 <= m < |after|
      ensures Paired(after, m)
    {
      assert Paired(entries, m);
    }
  }

  /** The entry that a stage names, if any. */
  function Partner(g: Stage): int {
    match g
    case Addressing(t) => t
    case Relaying(t) => t
    case Vacated(t) => t
    case Taken(f, _) => f
    case Bound(f) => f
    case _ => -1
  }

  lemma TakeTunnelEntries(s: State, f: nat, e: Event)
    requires AllOk(s) && AllListed(s) && |s.sides| > 0 && SideOk(s, 0) && f < |s.entries| && e.TakeTunnel?
    ensures var s' := FlowNext(s, f, e); AllOk(s') && AllListed(s')
  {
    var s' := FlowNext(s, f, e);
    assert EntryOk(s.entries[f]) && EntryListed(s, f);
    if s' != s {
      var t := s.sides[0].channel[0];
      assert t in s.sides[0].channel;
      assert EntryOk(s.entries[t]) && EntryListed(s, t);
      forall m | 0 <= m < |s'.entries|
        ensures EntryOk(s'.entries[m]) && EntryListed(s', m)
      {
        assert EntryOk(s.entries[m]) && EntryListed(s, m);
      }
    }
  }

  lemma TakeTunnelPairs(s: State, f: nat, e: Event)
    requires Inv(s) && f < |s.entries| && e.TakeTunnel?
    ensures AllPaired(FlowNext(s, f, e).entries)
  {
    var s' := FlowNext(s, f, e);
    assert EntryOk(s.entries[f]) && SideOk(s, 0);
    if s' != s {
      var t := s.sides[0].channel[0];
      assert t in s.sides[0].channel;
      assert EntryOk(s.entries[t]) && EntryListed(s, t);
      TwoPairs(s.entries, f, s'.entries[f], t, s'.entries[t]);
    }
  }

  lemma TakeTunnelSides(s: State, f: nat, e: Event)
    requires AllOk(s) && AllListed(s) && SidesOk(s) && |s.sides| > 0 && f < |s.entries| && e.TakeTunnel?
    ensures SidesOk(FlowNext(s, f, e))
  {
    var s' := FlowNext(s, f, e);
    assert EntryOk(s.entries[f]) && EntryListed(s, f);
    assert SideOk(s, 0);
    if s' != s {
      var t := s.sides[0].channel[0];
      assert t in s.sides[0].channel;
      assert EntryListed(s, t);
      SidesKept(s, s');
    }
  }

  /** Sides that at most shorten their channel or end their loop's search stay well-formed when no
      entry moves or leaves its table. */
  lemma SidesKept(s: State, s': State)
    requires SidesOk(s) && |s'.entries| == |s.entries| && |s'.sides| == |s.sides|
    requires forall n :: 0 <= n < |s.entries| ==>
      s'.entries[n].side == s.entries[n].side && s'.entries[n].key == s.entries[n].key
    requires forall n :: 0 <= n < |s.entries| && Listed(s.entries[n].stage) ==> Listed(s'.entries[n].stage)
    requires forall i :: 0 <= i < |s.sides| ==>
      var d, d' := s.sides[i], s'.sides[i];
      && d'.table == d.table && d'.point == d.point && (d'.loop == d.loop || d'.loop.None?)
      && (d'.channel == d.channel || (d.channel != [] && d'.channel == d.channel[1..]))
    ensures SidesOk(s')
  {
    forall i | 0 <= i < |s'.sides|
      ensures SideOk(s', i)
    {
      assert SideOk(s, i);
      forall key | key in s'.sides[i].table
        ensures Lists(s', i, key)
      {
        assert Lists(s, i, key);
      }
    }
  }

  lemma WriteAddressOk(s: State, f: nat, e: Event)
    requires AllOk(s) && f < |s.entries| && e.WriteAddress?
    ensures AllOk(FlowNext(s, f, e))
  {
    var s' := FlowNext(s, f, e);
    assert EntryOk(s.entries[f]);
    forall m | 0 <= m < |s'.entries|
      ensures EntryOk(s'.entries[m])
    {
      assert EntryOk(s.entries[m]);
    }
  }

  /** Entries stay listed when the address is written and the loop's search ends. */
  lemma WrittenListed(s: State, f: nat)
    requires AllListed(s) && f < |s.entries| && Paired(s.entries, f)
    ensures AllListed(FlowNext(s, f, WriteAddress(f, true)))
  {
    var s' := FlowNext(s, f, WriteAddress(f, true));
    assert EntryListed(s, f);
    if s' != s {
      assert EntryListed(s, s.entries[f].stage.tunnel);
      forall m | 0 <= m < |s'.entries|
        ensures EntryListed(s', m)
      {
        assert EntryListed(s, m);
      }
    }
  }

  lemma FailedListed(s: State, f: nat)
    requires AllListed(s) && f < |s.entries| && Paired(s.entries, f)
    ensures AllListed(FlowNext(s, f, WriteAddress(f, false)))
  {
    var s' := FlowNext(s, f, WriteAddress(f, false));
    assert EntryListed(s, f);
    if s' != s {
      assert EntryListed(s, s.entries[f].stage.tunnel);
      forall m | 0 <= m < |s'.entries|
        ensures EntryListed(s', m)
      {
        assert EntryListed(s, m);
      }
    }
  }

  lemma WriteAddressPairs(s: State, f: nat, e: Event)
    requires AllOk(s) && AllPaired(s.entries) && f < |s.entries| && e.WriteAddress?
    ensures AllPaired(FlowNext(s, f, e).entries)
  {
    var s' := FlowNext(s, f, e);
    assert EntryOk(s.entries[f]) && Paired(s.entries, f);
    if s' != s {
      var t := s.entries[f].stage.tunnel;
      assert EntryOk(s.entries[t]);
      TwoPairs(s.entries, f, s'.entries[f], t, s'.entries[t]);
    }
  }

  lemma WriteAddressSides(s: State, f: nat, e: Event)
    requires AllOk(s) && SidesOk(s) && f < |s.entries| && e.WriteAddress?
    ensures SidesOk(FlowNext(s, f, e))
  {
    var s' := FlowNext(s, f, e);
    if s' != s { SidesKept(s, s'); }
  }

  lemma CloseTunnelEntries(s: State, f: nat, e: Event)
    requires AllOk(s) && AllListed(s) && f < |s.entries| && Paired(s.entries, f) && e.CloseTunnel?
    ensures var s' := FlowNext(s, f, e); AllOk(s') && AllListed(s')
  {
    var s' := FlowNext(s, f, e);
    assert EntryOk(s.entries[f]) && EntryListed(s, f);
    if s' != s {
      var t := s.entries[f].stage.tunnel;
      assert EntryOk(s.entries[t]) && EntryListed(s, t);
      forall m | 0 <= m < |s'.entries|
        ensures EntryOk(s'.entries[m]) && EntryListed(s', m)
      {
        assert EntryOk(s.entries[m]) && EntryListed(s, m);
      }
    }
  }

  lemma CloseTunnelPairs(s: State, f: nat, e: Event)
    requires AllOk(s) && AllPaired(s.entries) && f < |s.entries| && e.CloseTunnel?
    ensures AllPaired(FlowNext(s, f, e).entries)
  {
    var s' := FlowNext(s, f, e);
    assert EntryOk(s.entries[f]) && Paired(s.entries, f);
    if s' != s {
      var t := s.entries[f].stage.tunnel;
      assert EntryOk(s.entries[t]);
      TwoPairs(s.entries, f, s'.entries[f], t, s'.entries[t]);
    }
  }

  lemma CloseTunnelSides(s: State, f: nat, e: Event)
    requires AllOk(s) && AllListed(s) && SidesOk(s) && f < |s.entries| && Paired(s.entries, f) && e.CloseTunnel?
    ensures SidesOk(FlowNext(s, f, e))
  {
    var s' := FlowNext(s, f, e);
    assert EntryOk(s.entries[f]);
    if s' != s {
      var t := s.entries[f].stage.tunnel;
      assert EntryOk(s.entries[t]) && EntryListed(s, t);
      forall i | 0 <= i < |s'.sides|
        ensures SideOk(s', i)
      {
        assert SideOk(s, i);
        forall key | key in s'.sides[i].table
          ensures Lists(s', i, key)
        {
          assert Lists(s, i, key);
        }
      }
    }
  }

  lemma InvPair(s: State, f: nat, e: Event)
    requires Inv(s) && f < |s.entries| && (e.TakeTunnel? || e.WriteAddress? || e.CloseTunnel?) && e.flow == f
    ensures Inv(FlowNext(s, f, e))
  {
    assert EntryOk(s.entries[f]) && Paired(s.entries, f) && SideOk(s, 0);
    match e
    case TakeTunnel(_) =>
      TakeTunnelEntries(s, f, e);
      TakeTunnelPairs(s, f, e);
      TakeTunnelSides(s, f, e);
    case WriteAddress(_, ok) =>
      WriteAddressOk(s, f, e);
      if ok { WrittenListed(s, f); } else { FailedListed(s, f); }
      WriteAddressPairs(s, f, e);
      WriteAddressSides(s, f, e);
    case CloseTunnel(_) =>
      CloseTunnelEntries(s, f, e);
      CloseTunnelPairs(s, f, e);
      CloseTunnelSides(s, f, e);
      if s.entries[f].stage.Vacated? { assert EntryOk(s.entries[s.entries[f].stage.tunnel]); }
  }

  lemma InvCopy(s: State, e: Event)
    requires Inv(s) && (e.Copy? || e.EndCopy?)
    ensures Inv(Next(s, e))
  {
    if Next(s, e) != s {
      assert EntryOk(s.entries[e.entry]);
      InvEntry(s, e.entry, Next(s, e).entries[e.entry]);
    }
  }

  lemma InvNext(s: State, e: Event)
    requires Inv(s)
    ensures Inv(Next(s, e))
  {
    match e
    case Copy(_, _) => InvCopy(s, e);
    case EndCopy(_) => InvCopy(s, e);
    case Receive(i, _, _) => if i < |s.sides| { InvReceive(s, i, e); }
    case Store(i, _) => if i < |s.sides| { InvStore(s, i, e); }
    case Offer(i) =>
      if i < |s.sides| && s.sides[i].point.Offering? {
        if |s.sides[i].channel| < s.channelSize { InvAccepted(s, i); } else { InvRefused(s, i); }
      }
    case Close(i) => if i < |s.sides| { InvPointed(s, i, e); }
    case Delete(i) => if i < |s.sides| { InvPointed(s, i, e); }
    case Dequeue(i, _) => if i < |s.sides| { InvDequeue(s, i, e); }
    case TakeTunnel(f) => if f < |s.entries| { InvPair(s, f, e); }
    case WriteAddress(f, _) => if f < |s.entries| { InvPair(s, f, e); }
    case CloseTunnel(f) => if f < |s.entries| { InvPair(s, f, e); }
    case _ => if e.flow < |s.entries| { InvFlow(s, e.flow, e); }
  }

  lemma {:induction false} InvExec(s: State, es: seq<Event>)
    requires Inv(s)
    ensures Inv(Exec(s, es))
    decreases |es|
  {
    if es == [] {
    } else {
      InvNext(s, es[0]);
      InvExec(Next(s, es[0]), es[1..]);
    }
  }

  // ---- The transport object ----

  /** The tables and channels of UdpTransport and of its listeners; Fire performs one critical
      section, channel operation or write in place. */
  class UdpTransport {
    const channelSize: nat
    const token: Packet
    var sides: seq<Side>
    var entries: seq<Entry>
    ghost var panicked: bool

    ghost function View(): State
      reads this
    {
      State(channelSize, token, sides, entries, panicked)
    }

    constructor (channelSize: nat, token: Packet, listeners: nat)
      ensures View() == Init(channelSize, token, listeners)
    {
      this.channelSize, this.token := channelSize, token;
      sides, entries, panicked := seq(listeners + 1, _ => Side(Idle, [], map[], None)), [], false;
    }

    method Fire(e: Event)
      requires Inv(View())
      modifies this
      ensures View() == Next(old(View()), e) && Inv(View())
    {
      InvNext(View(), e);
      match e
      case Receive(i, key, packet) => if i < |sides| { Receive(i, key, packet); }
      case Store(i, now) =>
        if i < |sides| && sides[i].point.Creating? {
          var p := sides[i].point;
          var table := sides[i].table[p.key := |entries|];
          sides := sides[i := sides[i].(point := Offering(|entries|, p.packet), table := table)];
          entries := entries + [NewEntry(i, p.key, now)];
        }
      case Dequeue(i, now) => if 0 < i < |sides| { Dequeue(i, now); }
      case Copy(n, ok) => if n < |entries| && entries[n].traffic.copying { UdpLocalCopy(n, ok); }
      case EndCopy(n) => if n < |entries| { entries := entries[n := Copying(entries[n], false)]; }
      case TakeTunnel(f) => if f < |entries| { TakeTunnel(f); }
      case ClosePing(f) => if f < |entries| { SendAddress(f, e); }
      case WriteAddress(f, _) => if f < |entries| { SendAddress(f, e); }
      case CloseFlow(f) => if f < |entries| { UdpCopy(f, e); }
      case CloseTunnel(f) => if f < |entries| { UdpCopy(f, e); }
      case _ => if e.side < |sides| { Offer(e.side, e); }
    }

    method Receive(i: nat, key: Key, packet: Packet)
      requires Inv(View()) && i < |sides|
      modifies this`sides, this`entries
      ensures View() == ReaderNext(old(View()), i, Event.Receive(i, key, packet))
    {
      assert SideOk(View(), i);
      var d := sides[i];
      if d.point.Idle? {
        if key in d.table {
          assert Lists(View(), i, key);
          var x := entries[d.table[key]];
          assert EntryOk(x) && EntryListed(View(), d.table[key]);
          if |x.traffic.payload| < PAYLOAD_SIZE { entries := entries[d.table[key] := Enqueued(x, packet)]; }
        } else if i > 0 || packet == token {
          sides := sides[i := d.(point := Creating(key, packet))];
        }
      }
    }

    /** The offer to the channel, and the close and the delete when it is full. */
    method Offer(i: nat, e: Event)
      requires Inv(View()) && i < |sides| && (e.Offer? || e.Close? || e.Delete?)
      modifies this`sides, this`entries
      ensures View() == ReaderNext(old(View()), i, e)
    {
      var d := sides[i];
      assert SideOk(View(), i);
      if !d.point.Idle? && !d.point.Creating? {
        var n := d.point.entry;
        var x := entries[n];
        assert EntryOk(x) && EntryListed(View(), n);
        if e.Offer? && d.point.Offering? {
          if |d.channel| < channelSize {
            if i > 0 { x := Enqueued(x, d.point.packet); }
            x, d := x.(stage := Queued), d.(point := Idle, channel := d.channel + [n]);
          } else {
            x, d := x.(stage := Full), d.(point := Closing(n));
          }
        } else if e.Close? && d.point.Closing? {
          x, d := x.(stage := Refusing, closed := true), d.(point := Deleting(n));
        } else if e.Delete? && d.point.Deleting? {
          x, d := x.(stage := Refused), d.(point := Idle, table := d.table - {x.key});
        }
        entries, sides := entries[n := x], sides[i := d];
      }
    }

    method Dequeue(i: nat, now: int)
      requires Inv(View()) && 0 < i < |sides|
      modifies this`sides, this`entries
      ensures View() == ReaderNext(old(View()), i, Event.Dequeue(i, now))
    {
      assert SideOk(View(), i);
      var d := sides[i];
      if d.loop.None? && d.channel != [] {
        var n := d.channel[0];
        d := d.(channel := d.channel[1..]);
        if now - entries[n].timeCreated > 3000 {
          entries := entries[n := entries[n].(stage := Expired)];
        } else {
          entries, d := entries[n := entries[n].(stage := Pairing)], d.(loop := Some(n));
        }
        sides := sides[i := d];
      }
    }

    method TakeTunnel(f: nat)
      requires Inv(View()) && f < |entries|
      modifies this`sides, this`entries
      ensures View() == FlowNext(old(View()), f, Event.TakeTunnel(f))
    {
      assert SideOk(View(), 0);
      if entries[f].stage.Pairing? && sides[0].channel != [] {
        var t := sides[0].channel[0];
        assert t in sides[0].channel && EntryListed(View(), t);
        sides := sides[0 := sides[0].(channel := sides[0].channel[1..])];
        entries := entries[f := entries[f].(stage := Addressing(t))];
        entries := entries[t := entries[t].(stage := Taken(f, false))];
      }
    }

    method SendAddress(f: nat, e: Event)
      requires Inv(View()) && f < |entries| && (e.ClosePing? || e.WriteAddress?)
      modifies this`sides, this`entries
      ensures View() == FlowNext(old(View()), f, e)
    {
      assert Paired(entries, f) && EntryListed(View(), f);
      if entries[f].stage.Addressing? {
        var t, i := entries[f].stage.tunnel, entries[f].side;
        var y := entries[t];
        assert EntryOk(y);
        if e.ClosePing? && !y.stage.hushed {
          entries := entries[t := y.(stage := Taken(f, true), pingCloses := y.pingCloses + 1)];
        } else if e.WriteAddress? && y.stage.hushed {
          if e.ok {
            entries := entries[f := Copying(entries[f], true).(stage := Relaying(t))];
            entries := entries[t := Copying(y, true).(stage := Bound(f))];
            sides := sides[i := sides[i].(loop := None)];
          } else {
            entries := entries[f := entries[f].(stage := Pairing)];
            entries := entries[t := y.(stage := Dropped)];
          }
        }
      }
    }

    /** One turn of udpLocalCopy, or of udpTunnelCopy when n is a tunnel. */
    method UdpLocalCopy(n: nat, ok: bool)
      requires n < |entries| && entries[n].traffic.copying
      modifies this`entries
      ensures View() == Next(old(View()), Copy(n, ok))
    {
      var q := entries[n].traffic;
      if q.payload != [] {
        var data := q.payload[0];
        q := q.(payload := q.payload[1..], taken := q.taken + [data]);
        if data != [] {
          if ok {
            q := q.(written := q.written + [data]);
          } else {
            q := q.(lost := q.lost + [data], copying := false);
          }
        }
        entries := entries[n := entries[n].(traffic := q)];
      }
    }

    /** The two critical sections of the teardown, once both copy loops have ended. */
    method UdpCopy(f: nat, e: Event)
      requires Inv(View()) && f < |entries| && (e.CloseFlow? || e.CloseTunnel?)
      modifies this`sides, this`entries
      ensures View() == FlowNext(old(View()), f, e)
    {
      assert EntryOk(entries[f]) && EntryListed(View(), f) && Paired(entries, f);
      var x := entries[f];
      if e.CloseFlow? && x.stage.Relaying? && !x.traffic.copying && !entries[x.stage.tunnel].traffic.copying {
        sides := sides[x.side := sides[x.side].(table := sides[x.side].table - {x.key})];
        entries := entries[f := x.(stage := Vacated(x.stage.tunnel), closed := true)];
      } else if e.CloseTunnel? && x.stage.Vacated? {
        var t := x.stage.tunnel;
        var y := entries[t];
        assert EntryOk(y) && EntryListed(View(), t);
        sides := sides[y.side := sides[y.side].(table := sides[y.side].table - {y.key})];
        entries := entries[f := x.(stage := Gone)];
        entries := entries[t := y.(stage := Gone, closed := true)];
      }
    }
  }
}
