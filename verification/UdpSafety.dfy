/** What holds of the tables of the UDP transport in every run: no panic, one flow to a tunnel, and
    nobody's entry removed by another. */
module UdpSafety {
  import opened UdpTables

  /** No payload or ping channel is sent on after its close or closed twice.  An entry found in a
      table belongs to the side and key, and its payload channel is open, except the one entry
      that the side's own reading goroutine has closed and is about to delete. */
  lemma NoPanic(channelSize: nat, token: Packet, listeners: nat, es: seq<Event>, i: nat, key: Key)
    requires i <= listeners
    ensures var s := Exec(Init(channelSize, token, listeners), es);
      && !s.panicked && i < |s.sides|
      && (key in s.sides[i].table ==>
            var n := s.sides[i].table[key];
            Lists(s, i, key) && (s.entries[n].closed <==> s.sides[i].point == Deleting(n)))
  {
    var s := Exec(Init(channelSize, token, listeners), es);
    InvExec(Init(channelSize, token, listeners), es);
    SidesFixed(Init(channelSize, token, listeners), es);
    assert SideOk(s, i);
    if key in s.sides[i].table {
      assert Lists(s, i, key);
      assert EntryOk(s.entries[s.sides[i].table[key]]) && EntryListed(s, s.sides[i].table[key]);
    }
  }

  lemma SidesFixedNext(s: State, e: Event)
    ensures |Next(s, e).sides| == |s.sides|
  {
  }

  lemma {:induction false} SidesFixed(s: State, es: seq<Event>)
    ensures |Exec(s, es).sides| == |s.sides|
    decreases |es|
  {
    if es == [] {
    } else {
      SidesFixedNext(s, es[0]);
      SidesFixed(Next(s, es[0]), es[1..]);
    }
  }

  /** The tunnel a flow has in hand or relays with, if any. */
  function TunnelOf(g: Stage): int {
    match g
    case Addressing(t) => t
    case Relaying(t) => t
    case Vacated(t) => t
    case _ => -1
  }

  /** A tunnel serves at most one flow, and the ping channel of every tunnel in use is closed
      exactly once. */
  lemma PairedOnce(channelSize: nat, token: Packet, listeners: nat, es: seq<Event>, f: nat, g: nat)
    requires var s := Exec(Init(channelSize, token, listeners), es);
      f < |s.entries| && g < |s.entries| && TunnelOf(s.entries[f].stage) == TunnelOf(s.entries[g].stage) >= 0
    ensures var s := Exec(Init(channelSize, token, listeners), es); var t := TunnelOf(s.entries[f].stage);
      && f == g && t < |s.entries| && s.entries[t].side == 0 && s.entries[f].side > 0
      && (!s.entries[f].stage.Addressing? ==> s.entries[t].pingCloses == 1)
  {
    var s := Exec(Init(channelSize, token, listeners), es);
    InvExec(Init(channelSize, token, listeners), es);
    assert Paired(s.entries, f) && Paired(s.entries, g) && EntryOk(s.entries[f]);
    assert EntryOk(s.entries[TunnelOf(s.entries[f].stage)]);
  }

  lemma DeletedByReader(s: State, j: nat, e: Event, i: nat, key: Key)
    requires Inv(s) && j < |s.sides| && i < |s.sides|
    requires key in s.sides[i].table && key !in ReaderNext(s, j, e).sides[i].table
    ensures e.Delete? && i == j && s.sides[i].point == Deleting(s.sides[i].table[key])
  {
    assert SideOk(s, j);
    if s.sides[j].point.Deleting? { assert EntryListed(s, s.sides[j].point.entry); }
  }

  lemma DeletedByFlow(s: State, f: nat, e: Event, i: nat, key: Key)
    requires Inv(s) && f < |s.entries| && i < |s.sides| && |FlowNext(s, f, e).sides| == |s.sides|
    requires key in s.sides[i].table && key !in FlowNext(s, f, e).sides[i].table
    ensures var n := s.sides[i].table[key];
      && n < |s.entries| && (e.CloseFlow? || e.CloseTunnel?)
      && (e.CloseFlow? ==> f == n && s.entries[n].stage.Relaying?)
      && (e.CloseTunnel? ==> s.entries[f].stage == Vacated(n))
  {
    assert EntryListed(s, f) && Paired(s.entries, f);
    if s.entries[f].stage.Vacated? { assert EntryListed(s, s.entries[f].stage.tunnel); }
  }

  lemma NotDeleted(s: State, e: Event, i: nat, key: Key)
    requires Inv(s) && i < |s.sides| && i < |Next(s, e).sides| && key in s.sides[i].table
    requires !e.Delete? && !e.CloseFlow? && !e.CloseTunnel?
    ensures key in Next(s, e).sides[i].table
  {
    match e
    case Copy(_, _) =>
    case EndCopy(_) =>
    case Receive(_, _, _) =>
    case Store(_, _) =>
    case Offer(_) =>
    case Close(_) =>
    case Dequeue(_, _) =>
    case _ =>
  }

  /** The two halves of the teardown delete exactly the flow's own entry and its tunnel's own
      entry; no other event than these and a listener's refusal deletes anything. */
  lemma TeardownRemovesOwn(
    channelSize: nat, token: Packet, listeners: nat, es: seq<Event>, e: Event, i: nat, key: Key)
    requires var s := Exec(Init(channelSize, token, listeners), es);
      i < |s.sides| && i < |Next(s, e).sides| && key in s.sides[i].table && key !in Next(s, e).sides[i].table
    ensures var s := Exec(Init(channelSize, token, listeners), es); var n := s.sides[i].table[key];
      && n < |s.entries| && s.entries[n].key == key && s.entries[n].side == i
      && (e.Delete? || e.CloseFlow? || e.CloseTunnel?)
      && (e.Delete? ==> s.sides[i].point == Deleting(n))
      && (e.CloseFlow? ==> e.flow == n && s.entries[n].stage.Relaying?)
      && (e.CloseTunnel? ==> e.flow < |s.entries| && s.entries[e.flow].stage == Vacated(n))
  {
    var s := Exec(Init(channelSize, token, listeners), es);
    InvExec(Init(channelSize, token, listeners), es);
    SidesFixedNext(s, e);
    assert SideOk(s, i);
    assert Lists(s, i, key);
    match e
    case Delete(j) => DeletedByReader(s, j, e, i, key);
    case CloseFlow(f) => DeletedByFlow(s, f, e, i, key);
    case CloseTunnel(f) => DeletedByFlow(s, f, e, i, key);
    case _ => NotDeleted(s, e, i, key);
  }

  /** A datagram reaches the entry of its sender, and no other, whenever there is room. */
  lemma DatagramReachesOwn(channelSize: nat, token: Packet, listeners: nat, es: seq<Event>, n: nat, packet: Packet)
    requires var s := Exec(Init(channelSize, token, listeners), es);
      && n < |s.entries| && Listed(s.entries[n].stage)
      && s.entries[n].side < |s.sides| && s.sides[s.entries[n].side].point.Idle?
    ensures var s := Exec(Init(channelSize, token, listeners), es); var x := s.entries[n];
      Next(s, Receive(x.side, x.key, packet)) ==
      if |x.traffic.payload| < 100_000 then
        var q := x.traffic.(payload := x.traffic.payload + [packet], received := x.traffic.received + [packet]);
        s.(entries := s.entries[n := x.(traffic := q)])
      else s
  {
    var s := Exec(Init(channelSize, token, listeners), es);
    InvExec(Init(channelSize, token, listeners), es);
    assert EntryOk(s.entries[n]) && EntryListed(s, n);
  }
}
