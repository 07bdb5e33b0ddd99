/** How entries come into the tables of the UDP transport, in which order they are received from the
    channels, and how they leave. */
module UdpHistory {
  import opened Options
  import opened UdpTables
  import opened UdpTraffic
  import opened UdpService
  import Runs

  // ---- Tunnels present the token ----

  /** The tunnel acceptor has an entry for the key, or had one, or is about to make one. */
  predicate Admitted(s: State, key: Key) {
    && |s.sides| > 0
    && ((s.sides[0].point.Creating? && s.sides[0].point.key == key)
        || exists n :: 0 <= n < |s.entries| && s.entries[n].side == 0 && s.entries[n].key == key)
  }

  /** A sender without an entry presents the token to the acceptor. */
  predicate Presents(s: State, e: Event, key: Key, token: Packet) {
    && e == Receive(0, key, token) && |s.sides| > 0 && s.sides[0].point.Idle? && key !in s.sides[0].table
  }

  lemma AdmittedReader(s: State, i: nat, e: Event, key: Key)
    requires Inv(s) && i < |s.sides|
    requires (e.Receive? || e.Store? || e.Offer? || e.Close? || e.Delete? || e.Dequeue?) && e.side == i
    ensures Admitted(ReaderNext(s, i, e), key) <==> Admitted(s, key) || Presents(s, e, key, s.token)
  {
    var s' := ReaderNext(s, i, e);
    assert SideOk(s, i);
    if e.Receive? && e.key in s.sides[i].table { assert Lists(s, i, e.key); }
    assert forall n :: 0 <= n < |s.entries| ==>
      s'.entries[n].side == s.entries[n].side && s'.entries[n].key == s.entries[n].key;
    if e.Store? && s.sides[i].point.Creating? {
      assert s'.entries[|s.entries|] == NewEntry(i, s.sides[i].point.key, e.now);
    }
  }

  /** Two states with the same senders, as far as the acceptor knows. */
  lemma AdmittedSame(s: State, s': State, key: Key)
    requires |s'.sides| == |s.sides| && (|s.sides| > 0 ==> s'.sides[0].point == s.sides[0].point)
    requires |s'.entries| == |s.entries|
    requires forall n :: 0 <= n < |s.entries| ==>
      s'.entries[n].side == s.entries[n].side && s'.entries[n].key == s.entries[n].key
    ensures Admitted(s', key) <==> Admitted(s, key)
  {
  }

  lemma FlowKeeps(s: State, f: nat, e: Event)
    requires f < |s.entries|
    ensures var s' := FlowNext(s, f, e);
      && |s'.sides| == |s.sides| && (|s.sides| > 0 ==> s'.sides[0].point == s.sides[0].point)
      && |s'.entries| == |s.entries|
      && forall n :: 0 <= n < |s.entries| ==>
        s'.entries[n].side == s.entries[n].side && s'.entries[n].key == s.entries[n].key
  {
    match e
    case TakeTunnel(_) =>
    case ClosePing(_) =>
    case WriteAddress(_, _) =>
    case CloseFlow(_) =>
    case CloseTunnel(_) =>
    case _ =>
  }

  lemma AdmittedNext(s: State, e: Event, key: Key)
    requires Inv(s)
    ensures Admitted(Next(s, e), key) <==> Admitted(s, key) || Presents(s, e, key, s.token)
  {
    if e.Copy? || e.EndCopy? {
      var s' := Next(s, e);
      assert forall n :: 0 <= n < |s.entries| ==>
        s'.entries[n].side == s.entries[n].side && s'.entries[n].key == s.entries[n].key;
    } else if e.Receive? || e.Store? || e.Offer? || e.Close? || e.Delete? || e.Dequeue? {
      if e.side < |s.sides| { AdmittedReader(s, e.side, e, key); }
    } else if e.flow < |s.entries| {
      FlowKeeps(s, e.flow, e);
      AdmittedSame(s, Next(s, e), key);
    }
  }

  /** In every run the acceptor has made, or is making, an entry for a sender exactly when the sender
      presented the token while it had none. */
  lemma TokenAdmits(channelSize: nat, token: Packet, listeners: nat, es: seq<Event>, key: Key)
    ensures var s0 := Init(channelSize, token, listeners);
      Admitted(Exec(s0, es), key) <==> Runs.Befell(Next, s0, es, (t, e) => Presents(t, e, key, token))
  {
    var s0 := Init(channelSize, token, listeners);
    SameRun(s0, es);
    InitOk(channelSize, token, listeners);
    forall t: State, e: Event | Inv(t) && t.token == token
      ensures Inv(Next(t, e)) && Next(t, e).token == token
      ensures Admitted(Next(t, e), key) <==> Admitted(t, key) || Presents(t, e, key, token)
    {
      InvNext(t, e);
      TokenStays(t, e);
      AdmittedNext(t, e, key);
    }
    Runs.History(Next, s0, es, t => Inv(t) && t.token == token, t => Admitted(t, key),
                 (t, e) => Presents(t, e, key, token));
  }

  lemma TokenStays(s: State, e: Event)
    ensures Next(s, e).token == s.token
  {
  }

  lemma {:induction false} TokenKept(s: State, es: seq<Event>)
    ensures Exec(s, es).token == s.token
    decreases |es|
  {
    if es == [] {
    } else {
      TokenStays(s, es[0]);
      TokenKept(Next(s, es[0]), es[1..]);
    }
  }

  /** In no reachable state does a datagram other than the token, from a sender without an entry,
      change anything at the acceptor. */
  lemma StrangerIgnored(channelSize: nat, token: Packet, listeners: nat, es: seq<Event>, key: Key, packet: Packet)
    requires packet != token
    requires var s := Exec(Init(channelSize, token, listeners), es); |s.sides| > 0 && key !in s.sides[0].table
    ensures var s := Exec(Init(channelSize, token, listeners), es); Next(s, Receive(0, key, packet)) == s
  {
    TokenKept(Init(channelSize, token, listeners), es);
  }

  // ---- A sender without an entry ----

  /** Its entry: queued, for a local client with the datagram, or refused. */
  function Founded(side: nat, key: Key, now: int, packet: Packet, room: bool): Entry {
    if !room then Entry(side, key, now, Traffic([], false, [], [], [], []), false, 0, Full)
    else if side == 0 then Entry(side, key, now, Traffic([], false, [], [], [], []), false, 0, Queued)
    else Entry(side, key, now, Traffic([packet], false, [packet], [], [], []), false, 0, Queued)
  }

  /** From every reachable state, a sender without an entry gets one, created at the time that is
      read, if it is a local client or presents the token, and no other entry changes. */
  lemma SenderFoundsEntry(
    channelSize: nat, token: Packet, listeners: nat, es: seq<Event>, i: nat, key: Key, packet: Packet, now: int)
    requires var s := Exec(Init(channelSize, token, listeners), es);
      i < |s.sides| && s.sides[i].point.Idle? && key !in s.sides[i].table && (i == 0 ==> packet == token)
    ensures var s := Exec(Init(channelSize, token, listeners), es);
      var n := |s.entries|; var d := s.sides[i]; var room := |d.channel| < channelSize;
      var point := if room then Point.Idle else Closing(n);
      var channel := if room then d.channel + [n] else d.channel;
      Exec(s, [Receive(i, key, packet)] + ([Store(i, now)] + ([Offer(i)] + []))) ==
      s.(entries := s.entries + [Founded(i, key, now, packet, room)],
         sides := s.sides[i := Side(point, channel, d.table[key := n], d.loop)])
  {
    var s := Exec(Init(channelSize, token, listeners), es);
    InitOk(channelSize, token, listeners);
    ExecStays(Init(channelSize, token, listeners), es);
    TokenKept(Init(channelSize, token, listeners), es);
    var n, d := |s.entries|, s.sides[i];
    var s1 := Next(s, Receive(i, key, packet));
    var s2 := Next(s1, Store(i, now));
    var s3 := Next(s2, Offer(i));
    assert s1 == s.(sides := s.sides[i := d.(point := Creating(key, packet))]);
    assert s2.entries == s.entries + [NewEntry(i, key, now)];
    assert s2.sides == s.sides[i := d.(point := Offering(n, packet), table := d.table[key := n])];
    assert [] + [packet] == [packet];
    assert s3.entries[n] == Founded(i, key, now, packet, |d.channel| < channelSize);
    assert s3.entries[..n] == s.entries && s3.entries == s3.entries[..n] + [s3.entries[n]];
    ExecCons(s, Receive(i, key, packet), [Store(i, now)] + ([Offer(i)] + []));
    ExecCons(s1, Store(i, now), [Offer(i)] + []);
    ExecCons(s2, Offer(i), []);
  }

  lemma ExecCons(s: State, e: Event, es: seq<Event>)
    ensures Exec(s, [e] + es) == Exec(Next(s, e), es)
  {
    assert ([e] + es)[1..] == es;
  }

  // ---- The channels ----

  function ChannelOf(s: State, i: nat): seq<nat> { if i < |s.sides| then s.sides[i].channel else [] }

  /** What an event sends into the channel of a side, and what it receives from it. */
  function Puts(s: State, e: Event, i: nat): seq<nat> {
    if e == Offer(i) && i < |s.sides| && s.sides[i].point.Offering? && s.sides[i].point.entry < |s.entries|
       && |s.sides[i].channel| < s.channelSize
    then [s.sides[i].point.entry] else []
  }

  function Gets(s: State, e: Event, i: nat): seq<nat> {
    if i >= |s.sides| || s.sides[i].channel == [] || s.sides[i].channel[0] >= |s.entries| then []
    else if i > 0 then
      if e.Dequeue? && e.side == i && s.sides[i].loop.None? then [s.sides[i].channel[0]] else []
    else if e.TakeTunnel? && e.flow < |s.entries| && s.entries[e.flow].stage.Pairing? then [s.sides[0].channel[0]]
    else []
  }

  lemma ChannelOther(s: State, j: nat, e: Event, i: nat)
    requires j < |s.sides| && i != j
    requires (e.Receive? || e.Store? || e.Offer? || e.Close? || e.Delete? || e.Dequeue?) && e.side == j
    ensures ChannelOf(ReaderNext(s, j, e), i) == ChannelOf(s, i)
  {
  }

  lemma ChannelReader(s: State, e: Event, i: nat)
    requires i < |s.sides|
    requires (e.Receive? || e.Store? || e.Offer? || e.Close? || e.Delete? || e.Dequeue?) && e.side == i
    ensures ChannelOf(s, i) + Puts(s, e, i) == Gets(s, e, i) + ChannelOf(ReaderNext(s, i, e), i)
  {
    match e
    case Offer(_) =>
    case Dequeue(_, _) =>
    case _ =>
  }

  lemma ChannelTake(s: State, f: nat, i: nat)
    requires f < |s.entries|
    ensures ChannelOf(s, i) == Gets(s, TakeTunnel(f), i) + ChannelOf(FlowNext(s, f, TakeTunnel(f)), i)
  {
  }

  lemma ChannelFlow(s: State, e: Event, i: nat)
    requires e.ClosePing? || e.WriteAddress? || e.CloseFlow? || e.CloseTunnel?
    requires e.flow < |s.entries|
    ensures ChannelOf(FlowNext(s, e.flow, e), i) == ChannelOf(s, i)
  {
    match e
    case ClosePing(_) =>
    case WriteAddress(_, _) =>
    case CloseFlow(_) =>
    case CloseTunnel(_) =>
  }

  lemma ChannelNext(s: State, e: Event, i: nat)
    ensures ChannelOf(s, i) + Puts(s, e, i) == Gets(s, e, i) + ChannelOf(Next(s, e), i)
  {
    if e.Copy? || e.EndCopy? {
    } else if e.Receive? || e.Store? || e.Offer? || e.Close? || e.Delete? || e.Dequeue? {
      if e.side < |s.sides| {
        if e.side == i { ChannelReader(s, e, i); } else { ChannelOther(s, e.side, e, i); }
      }
    } else if e.flow < |s.entries| {
      if e.TakeTunnel? { ChannelTake(s, e.flow, i); } else { ChannelFlow(s, e, i); }
    }
  }

  /** In every run the flows of a listener and the tunnels are received from their channel in the
      order in which they were sent into it. */
  lemma TakenInOrder(channelSize: nat, token: Packet, listeners: nat, es: seq<Event>, i: nat)
    ensures var s0 := Init(channelSize, token, listeners);
      Runs.Trace(Next, s0, es, (t, e) => Puts(t, e, i))
      == Runs.Trace(Next, s0, es, (t, e) => Gets(t, e, i)) + ChannelOf(Exec(s0, es), i)
  {
    var s0 := Init(channelSize, token, listeners);
    SameRun(s0, es);
    forall t: State, e: Event
      ensures ChannelOf(t, i) + Puts(t, e, i) == Gets(t, e, i) + ChannelOf(Next(t, e), i)
    {
      ChannelNext(t, e, i);
    }
    Runs.Fifo(Next, s0, es, t => true, t => ChannelOf(t, i), (t, e) => Puts(t, e, i), (t, e) => Gets(t, e, i));
    var puts := Runs.Trace(Next, s0, es, (t, e) => Puts(t, e, i));
    assert ChannelOf(s0, i) == [] && [] + puts == puts;
  }

  // ---- What a relayed entry can still do ----

  lemma WritesOne(s: State, n: nat)
    requires n < |s.entries| && s.entries[n].traffic.copying && s.entries[n].traffic.payload != []
    ensures var s' := Next(s, Copy(n, true)); var q, q' := s.entries[n].traffic, s'.entries[n].traffic;
      && |s'.entries| == |s.entries| && q'.copying && q'.payload == q.payload[1..]
      && q'.written == q.written + NonEmpty([q.payload[0]])
  {
    var p := s.entries[n].traffic.payload[0];
    assert [p][..0] == [] && NonEmpty([]) == [];
  }

  lemma NonEmptyStep(written: seq<Packet>, payload: seq<Packet>)
    requires payload != []
    ensures (written + NonEmpty([payload[0]])) + NonEmpty(payload[1..]) == written + NonEmpty(payload)
  {
    var one, more := [payload[0]], payload[1..];
    assert payload == one + more;
    NonEmptyAppend(one, more);
  }

  /** While its copy loop runs, everything that is buffered can be written. */
  lemma {:induction false} WritesAll(s: State, n: nat) returns (later: seq<Event>)
    requires n < |s.entries| && s.entries[n].traffic.copying
    ensures var s' := Exec(s, later); var q := s.entries[n].traffic;
      && n < |s'.entries| && s'.entries[n].traffic.copying && s'.entries[n].traffic.payload == []
      && s'.entries[n].traffic.written == q.written + NonEmpty(q.payload)
    decreases |s.entries[n].traffic.payload|
  {
    var q := s.entries[n].traffic;
    if q.payload == [] {
      later := [];
    } else {
      WritesOne(s, n);
      var rest := WritesAll(Next(s, Copy(n, true)), n);
      later := [Copy(n, true)] + rest;
      ExecCons(s, Copy(n, true), rest);
      NonEmptyStep(q.written, q.payload);
    }
  }

  predicate Forgotten(s: State, n: nat) {
    && n < |s.entries| && s.entries[n].closed && s.entries[n].stage.Gone? && s.entries[n].side < |s.sides|
    && s.entries[n].key !in s.sides[s.entries[n].side].table
  }

  /** The two critical sections, once both copy loops have ended. */
  lemma Closes(s: State, f: nat, t: nat)
    requires f < |s.entries| && t < |s.entries| && f != t && s.entries[f].side != s.entries[t].side
    requires s.entries[f].stage == Relaying(t) && s.entries[f].side < |s.sides| && s.entries[t].side < |s.sides|
    requires !s.entries[f].traffic.copying && !s.entries[t].traffic.copying
    ensures var s' := Exec(s, [CloseFlow(f)] + [CloseTunnel(f)]); Forgotten(s', f) && Forgotten(s', t)
  {
    var s1 := Next(s, CloseFlow(f));
    var s2 := Next(s1, CloseTunnel(f));
    ExecCons(s, CloseFlow(f), [CloseTunnel(f)]);
    assert [CloseTunnel(f)] == [CloseTunnel(f)] + [];
    ExecCons(s1, CloseTunnel(f), []);
    assert s1.entries[f].stage == Vacated(t) && s1.entries[t] == s.entries[t];
  }

  /** A relayed flow and its tunnel can end: both channels are closed and both entries gone from
      their tables. */
  lemma TearsDown(s: State, f: nat) returns (later: seq<Event>)
    requires Inv(s) && f < |s.entries| && s.entries[f].stage.Relaying?
    ensures var t := s.entries[f].stage.tunnel; var s' := Exec(s, later); Forgotten(s', f) && Forgotten(s', t)
  {
    var t := s.entries[f].stage.tunnel;
    assert Paired(s.entries, f) && EntryOk(s.entries[f]) && EntryListed(s, f);
    assert EntryOk(s.entries[t]) && EntryListed(s, t);
    var s1 := Next(s, EndCopy(f));
    var s2 := Next(s1, EndCopy(t));
    var close := [CloseFlow(f)] + [CloseTunnel(f)];
    later := [EndCopy(f)] + ([EndCopy(t)] + close);
    ExecCons(s, EndCopy(f), [EndCopy(t)] + close);
    ExecCons(s1, EndCopy(t), close);
    Closes(s2, f, t);
  }
}
