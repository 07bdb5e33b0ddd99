/** What the copy loops of the UDP transport do with the datagrams they receive. */
module UdpTraffic {
  import opened UdpTables

  /** The datagrams that a copy loop writes. */
  function NonEmpty(ps: seq<Packet>): seq<Packet>
    decreases |ps|
  {
    if ps == [] then []
    else
      var last := ps[|ps| - 1];
      NonEmpty(ps[..|ps| - 1]) + (if last == [] then [] else [last])
  }

  predicate TrafficOk(q: Traffic) {
    && q.received == q.taken + q.payload
    && NonEmpty(q.taken) == q.written + q.lost
    && |q.lost| <= 1
    && (q.lost != [] ==> !q.copying)
  }

  predicate AllTraffic(entries: seq<Entry>) { forall n :: 0 <= n < |entries| ==> TrafficOk(entries[n].traffic) }

  lemma CopiedOk(q: Traffic, ok: bool)
    requires TrafficOk(q) && q.copying && q.payload != []
    ensures TrafficOk(Copied(q, ok))
  {
    var p := q.payload[0];
    assert (q.taken + [p])[..|q.taken|] == q.taken;
    assert q.lost == [] && q.written + [] == q.written;
  }

  lemma TrafficReader(s: State, i: nat, e: Event)
    requires AllTraffic(s.entries) && i < |s.sides|
    ensures AllTraffic(ReaderNext(s, i, e).entries)
  {
  }

  lemma TrafficFlow(s: State, f: nat, e: Event)
    requires AllOk(s) && AllTraffic(s.entries) && f < |s.entries|
    ensures AllTraffic(FlowNext(s, f, e).entries)
  {
    assert EntryOk(s.entries[f]);
    var t := Partner(s.entries[f].stage);
    if 0 <= t < |s.entries| { assert EntryOk(s.entries[t]); }
  }

  lemma TrafficNext(s: State, e: Event)
    requires Inv(s) && AllTraffic(s.entries)
    ensures AllTraffic(Next(s, e).entries)
  {
    if e.Copy? {
      if Next(s, e) != s { CopiedOk(s.entries[e.entry].traffic, e.ok); }
    } else if e.EndCopy? {
    } else if e.Receive? || e.Store? || e.Offer? || e.Close? || e.Delete? || e.Dequeue? {
      if e.side < |s.sides| { TrafficReader(s, e.side, e); }
    } else if e.flow < |s.entries| {
      TrafficFlow(s, e.flow, e);
    }
  }

  lemma {:induction false} TrafficExec(s: State, es: seq<Event>)
    requires Inv(s) && AllTraffic(s.entries)
    ensures AllTraffic(Exec(s, es).entries)
    decreases |es|
  {
    if es == [] {
      assert Exec(s, es) == s;
    } else {
      InvNext(s, es[0]);
      TrafficNext(s, es[0]);
      TrafficExec(Next(s, es[0]), es[1..]);
    }
  }

  lemma {:induction false} NonEmptyAppend(a: seq<Packet>, b: seq<Packet>)
    ensures NonEmpty(a + b) == NonEmpty(a) + NonEmpty(b)
    decreases |b|
  {
    if b == [] {
      assert a + b == a;
    } else {
      assert (a + b)[..|a + b| - 1] == a + b[..|b| - 1];
      NonEmptyAppend(a, b[..|b| - 1]);
    }
  }

  /** In both directions, at every moment: the nonempty datagrams received are, in this order, those
      written, at most one whose write failed, and those still buffered.  So what is written is the
      oldest part of them; a datagram is lost only with the end of its copy loop; and without a
      failed write all are written once the payload channel is empty. */
  lemma ForwardedInOrder(channelSize: nat, token: Packet, listeners: nat, es: seq<Event>, n: nat)
    requires n < |Exec(Init(channelSize, token, listeners), es).entries|
    ensures var q := Exec(Init(channelSize, token, listeners), es).entries[n].traffic;
      && NonEmpty(q.received) == q.written + q.lost + NonEmpty(q.payload)
      && q.written <= NonEmpty(q.received)
      && |q.lost| <= 1 && (q.lost != [] ==> !q.copying)
      && (q.payload == [] && q.lost == [] ==> q.written == NonEmpty(q.received))
  {
    TrafficExec(Init(channelSize, token, listeners), es);
    var x := Exec(Init(channelSize, token, listeners), es).entries[n];
    assert TrafficOk(x.traffic);
    NonEmptyAppend(x.traffic.taken, x.traffic.payload);
  }

  /** A payload channel is closed, once it has been relayed, only after its copy loop has ended. */
  lemma ClosedAfterCopy(channelSize: nat, token: Packet, listeners: nat, es: seq<Event>, n: nat)
    requires n < |Exec(Init(channelSize, token, listeners), es).entries|
    ensures var x := Exec(Init(channelSize, token, listeners), es).entries[n]; x.closed ==> !x.traffic.copying
  {
    InvExec(Init(channelSize, token, listeners), es);
    assert EntryOk(Exec(Init(channelSize, token, listeners), es).entries[n]);
  }
}
