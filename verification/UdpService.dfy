/** Which flows and tunnels of the UDP transport are ever served, that is relayed by udpCopy, and
    which are not: the refused, the expired, and the tunnels whose address write failed. */
module UdpService {
  import opened Options
  import opened UdpTables
  import Runs

  // ---- What becomes of an entry ----

  predicate IsRefused(g: Stage) { g.Full? || g.Refusing? || g.Refused? }

  predicate Lost(g: Stage) { g.Expired? || g.Dropped? || IsRefused(g) }

  /** A flow for which handleLoop looks, or has looked, for a tunnel. */
  predicate Chosen(x: Entry) { x.side > 0 && (InLoop(x.stage) || Served(x.stage)) }

  /** What can be decided about an entry: a flow is skipped as too old or looked after in time, a
      tunnel is given up, either is refused for want of room; or they are linked with one another,
      the entry's copy loop ends, and the entry is torn down. */
  datatype Fate = TooOld | InTime | GivenUp | NoRoom | Linked | CopyDone | TornDown

  /** The entry shows that it was decided. */
  predicate Shows(x: Entry, fate: Fate) {
    match fate
    case TooOld => x.stage.Expired?
    case InTime => Chosen(x)
    case GivenUp => x.stage.Dropped?
    case NoRoom => IsRefused(x.stage)
    case Linked => Served(x.stage)
    case CopyDone => Served(x.stage) && !x.traffic.copying
    case TornDown => x.stage.Vacated? || x.stage.Gone?
  }

  predicate WritesTo(s: State, e: Event, n: nat) {
    && e.WriteAddress? && e.flow < |s.entries| && s.entries[e.flow].stage == Addressing(n)
    && n < |s.entries| && s.entries[n].stage == Taken(e.flow, true)
  }

  /** handleLoop receives flow n from its channel. */
  predicate Dequeues(s: State, e: Event, n: nat) {
    && e.Dequeue? && 0 < e.side < |s.sides| && s.sides[e.side].loop.None?
    && s.sides[e.side].channel != [] && s.sides[e.side].channel[0] == n < |s.entries|
  }

  /** The event decides it, by concerning this very entry: receiving the flow and finding it older
      than three seconds, or not; writing the address to the tunnel, with or without success;
      offering the entry to a full channel; the end of its copy loop, also by a failed write; its
      critical section of the teardown. */
  predicate Decides(s: State, e: Event, n: nat, fate: Fate) {
    match fate
    case TooOld => Dequeues(s, e, n) && e.now > s.entries[n].timeCreated + 3000
    case InTime => Dequeues(s, e, n) && e.now <= s.entries[n].timeCreated + 3000
    case GivenUp => WritesTo(s, e, n) && !e.ok
    case NoRoom =>
      && e.Offer? && e.side < |s.sides| && Offers(s.sides[e.side].point, n)
      && |s.sides[e.side].channel| >= s.channelSize
    case Linked =>
      && e.WriteAddress? && e.ok && e.flow < |s.entries| && s.entries[e.flow].stage.Addressing?
      && WritesTo(s, e, s.entries[e.flow].stage.tunnel) && (n == e.flow || n == s.entries[e.flow].stage.tunnel)
    case CopyDone =>
      && n < |s.entries| && s.entries[n].traffic.copying
      && (e == EndCopy(n)
          || (e == Copy(n, false) && s.entries[n].traffic.payload != [] && s.entries[n].traffic.payload[0] != []))
    case TornDown =>
      && n < |s.entries|
      && if e == CloseFlow(n) then
           var g := s.entries[n].stage;
           && g.Relaying? && g.tunnel < |s.entries|
           && !s.entries[n].traffic.copying && !s.entries[g.tunnel].traffic.copying
         else e.CloseTunnel? && e.flow < |s.entries| && s.entries[e.flow].stage == Vacated(n)
  }

  /** A step keeps an entry's birth and side, and an entry shows what the step, or an earlier one,
      decided. */
  predicate Decided(s: State, e: Event, n: nat, s': State, fate: Fate)
    requires n < |s'.entries|
  {
    var x := s'.entries[n];
    if n < |s.entries| then
      && x.timeCreated == s.entries[n].timeCreated && x.side == s.entries[n].side
      && (Shows(x, fate) <==> Shows(s.entries[n], fate) || Decides(s, e, n, fate))
    else !Shows(x, fate)
  }

  lemma DecidedReceive(s: State, i: nat, e: Event, n: nat, fate: Fate)
    requires i < |s.sides| && n < |ReaderNext(s, i, e).entries| && (e.Receive? || e.Store?)
    ensures Decided(s, e, n, ReaderNext(s, i, e), fate)
  {
  }

  lemma DecidedRefusal(s: State, i: nat, e: Event, n: nat, fate: Fate)
    requires i < |s.sides| && n < |ReaderNext(s, i, e).entries| && (e.Close? || e.Delete?)
    requires var p := s.sides[i].point; p.Closing? || p.Deleting? ==> p.entry < |s.entries| && EntryListed(s, p.entry)
    requires var p := s.sides[i].point; p.Closing? || p.Deleting? ==> s.entries[p.entry].side == i
    ensures Decided(s, e, n, ReaderNext(s, i, e), fate)
  {
  }

  lemma DecidedOffer(s: State, i: nat, e: Event, n: nat, fate: Fate)
    requires Inv(s) && i < |s.sides| && n < |ReaderNext(s, i, e).entries| && e.Offer? && e.side == i
    ensures Decided(s, e, n, ReaderNext(s, i, e), fate)
  {
    assert SideOk(s, i);
    if s.sides[i].point.Offering? { assert EntryListed(s, s.sides[i].point.entry); }
  }

  lemma DecidedDequeue(s: State, i: nat, e: Event, n: nat, fate: Fate)
    requires Inv(s) && i < |s.sides| && n < |ReaderNext(s, i, e).entries| && e.Dequeue? && e.side == i
    ensures Decided(s, e, n, ReaderNext(s, i, e), fate)
  {
    var d := s.sides[i];
    assert SideOk(s, i);
    if d.channel != [] {
      assert d.channel[0] in d.channel;
      assert EntryListed(s, d.channel[0]);
    }
  }

  lemma DecidedTake(s: State, f: nat, e: Event, n: nat, fate: Fate)
    requires |s.sides| > 0 && f < |s.entries| && n < |FlowNext(s, f, e).entries| && e.TakeTunnel?
    requires s.sides[0].channel != [] ==>
      var t := s.sides[0].channel[0]; t < |s.entries| && s.entries[t].stage.Queued? && s.entries[t].side == 0
    ensures Decided(s, e, n, FlowNext(s, f, e), fate)
  {
  }

  lemma DecidedWrite(s: State, f: nat, e: Event, n: nat, fate: Fate)
    requires f < |s.entries| && n < |FlowNext(s, f, e).entries| && e.WriteAddress? && e.flow == f
    requires EntryOk(s.entries[f]) && s.entries[f].side < |s.sides|
    requires var t := Partner(s.entries[f].stage); 0 <= t < |s.entries| ==> EntryOk(s.entries[t])
    ensures Decided(s, e, n, FlowNext(s, f, e), fate)
  {
  }

  lemma DecidedPing(s: State, f: nat, e: Event, n: nat, fate: Fate)
    requires Inv(s) && f < |s.entries| && n < |FlowNext(s, f, e).entries| && e.ClosePing?
    ensures Decided(s, e, n, FlowNext(s, f, e), fate)
  {
  }

  lemma DecidedClose(s: State, f: nat, n: nat, fate: Fate)
    requires f < |s.entries| && n < |s.entries| && EntryOk(s.entries[f]) && s.entries[f].side < |s.sides|
    ensures Decided(s, CloseFlow(f), n, FlowNext(s, f, CloseFlow(f)), fate)
  {
  }

  lemma DecidedLast(s: State, f: nat, n: nat, fate: Fate)
    requires f < |s.entries| && n < |s.entries| && EntryOk(s.entries[f])
    requires var g := s.entries[f].stage;
      g.Vacated? ==>
        && g.tunnel < |s.entries| && s.entries[g.tunnel].stage == Bound(f) && !s.entries[g.tunnel].traffic.copying
        && EntryOk(s.entries[g.tunnel]) && s.entries[g.tunnel].side < |s.sides|
    ensures Decided(s, CloseTunnel(f), n, FlowNext(s, f, CloseTunnel(f)), fate)
  {
  }

  lemma DecidedCopy(s: State, e: Event, n: nat, fate: Fate)
    requires Inv(s) && n < |Next(s, e).entries| && (e.Copy? || e.EndCopy?)
    ensures Decided(s, e, n, Next(s, e), fate)
  {
    assert EntryOk(s.entries[n]);
  }

  lemma DecidedPointed(s: State, i: nat, e: Event, n: nat, fate: Fate)
    requires Inv(s) && i < |s.sides| && n < |ReaderNext(s, i, e).entries| && (e.Close? || e.Delete?)
    ensures Decided(s, e, n, ReaderNext(s, i, e), fate)
  {
    var p := s.sides[i].point;
    assert SideOk(s, i);
    if p.Closing? || p.Deleting? { assert EntryListed(s, p.entry); }
    DecidedRefusal(s, i, e, n, fate);
  }

  lemma DecidedByFlow(s: State, e: Event, n: nat, fate: Fate)
    requires Inv(s) && n < |Next(s, e).entries|
    requires e.TakeTunnel? || e.ClosePing? || e.WriteAddress? || e.CloseFlow? || e.CloseTunnel?
    requires e.flow < |s.entries|
    ensures Decided(s, e, n, FlowNext(s, e.flow, e), fate)
  {
    var f := e.flow;
    assert EntryOk(s.entries[f]) && EntryListed(s, f) && Paired(s.entries, f) && SideOk(s, 0);
    var p := Partner(s.entries[f].stage);
    if 0 <= p < |s.entries| { assert EntryOk(s.entries[p]) && EntryListed(s, p); }
    FlowStays(s, f, e);
    match e
    case TakeTunnel(_) =>
      if s.sides[0].channel != [] {
        var t := s.sides[0].channel[0];
        assert t in s.sides[0].channel;
        assert EntryListed(s, t);
      }
      DecidedTake(s, f, e, n, fate);
    case ClosePing(_) => DecidedPing(s, f, e, n, fate);
    case WriteAddress(_, _) => DecidedWrite(s, f, e, n, fate);
    case CloseFlow(_) => DecidedClose(s, f, n, fate);
    case CloseTunnel(_) => DecidedLast(s, f, n, fate);
  }

  lemma DecidedNext(s: State, e: Event, n: nat, fate: Fate)
    requires Inv(s) && n < |Next(s, e).entries|
    ensures Decided(s, e, n, Next(s, e), fate)
  {
    match e
    case Copy(_, _) => DecidedCopy(s, e, n, fate);
    case EndCopy(_) => DecidedCopy(s, e, n, fate);
    case Receive(i, _, _) => if i < |s.sides| { DecidedReceive(s, i, e, n, fate); }
    case Store(i, _) => if i < |s.sides| { DecidedReceive(s, i, e, n, fate); }
    case Offer(i) => if i < |s.sides| { DecidedOffer(s, i, e, n, fate); }
    case Close(i) => if i < |s.sides| { DecidedPointed(s, i, e, n, fate); }
    case Delete(i) => if i < |s.sides| { DecidedPointed(s, i, e, n, fate); }
    case Dequeue(i, _) => if i < |s.sides| { DecidedDequeue(s, i, e, n, fate); }
    case _ => if e.flow < |s.entries| { DecidedByFlow(s, e, n, fate); }
  }

  // ---- Over whole runs ----

  lemma ReaderStays(s: State, i: nat, e: Event)
    requires i < |s.sides|
    ensures var s' := ReaderNext(s, i, e);
      |s.entries| <= |s'.entries| && |s'.sides| == |s.sides| && s'.channelSize == s.channelSize
  {
  }

  lemma FlowStays(s: State, f: nat, e: Event)
    requires f < |s.entries|
    ensures var s' := FlowNext(s, f, e);
      |s.entries| == |s'.entries| && |s'.sides| == |s.sides| && s'.channelSize == s.channelSize
  {
  }

  lemma EntriesStay(s: State, e: Event)
    ensures var s' := Next(s, e);
      |s.entries| <= |s'.entries| && |s'.sides| == |s.sides| && s'.channelSize == s.channelSize
  {
    if e.Copy? || e.EndCopy? {
    } else if e.Receive? || e.Store? || e.Offer? || e.Close? || e.Delete? || e.Dequeue? {
      if e.side < |s.sides| { ReaderStays(s, e.side, e); }
    } else if e.flow < |s.entries| {
      FlowStays(s, e.flow, e);
    }
  }

  lemma {:induction false} ExecStays(s: State, es: seq<Event>)
    requires Inv(s)
    ensures var s' := Exec(s, es);
      Inv(s') && |s.entries| <= |s'.entries| && |s'.sides| == |s.sides| && s'.channelSize == s.channelSize
    decreases |es|
  {
    if es == [] {
      assert Exec(s, es) == s;
    } else {
      InvNext(s, es[0]);
      EntriesStay(s, es[0]);
      ExecStays(Next(s, es[0]), es[1..]);
    }
  }

  lemma {:induction false} ExecAppend(s: State, es: seq<Event>, more: seq<Event>)
    ensures Exec(s, es + more) == Exec(Exec(s, es), more)
    decreases |es|
  {
    if es == [] {
      assert es + more == more;
    } else {
      assert (es + more)[0] == es[0] && (es + more)[1..] == es[1..] + more;
      ExecAppend(Next(s, es[0]), es[1..], more);
    }
  }

  lemma {:induction false} SameRun(s: State, es: seq<Event>)
    ensures Runs.Exec(Next, s, es) == Exec(s, es)
    decreases |es|
  {
    if es == [] {
    } else {
      SameRun(Next(s, es[0]), es[1..]);
    }
  }

  predicate ShowsAt(s: State, n: nat, fate: Fate) { n < |s.entries| && Shows(s.entries[n], fate) }

  lemma FateNext(s: State, e: Event, n: nat, fate: Fate)
    requires Inv(s)
    ensures ShowsAt(Next(s, e), n, fate) <==> ShowsAt(s, n, fate) || Decides(s, e, n, fate)
  {
    EntriesStay(s, e);
    if n < |Next(s, e).entries| {
      DecidedNext(s, e, n, fate);
      UnknownUndecided(s, e, n, fate);
    } else {
      UnknownUndecided(s, e, n, fate);
    }
  }

  lemma UnknownUndecided(s: State, e: Event, n: nat, fate: Fate)
    requires Inv(s)
    ensures Decides(s, e, n, fate) ==> n < |s.entries|
  {
    if e.Offer? && e.side < |s.sides| { assert SideOk(s, e.side); }
  }

  /** In every run each of these has been decided about an entry exactly when an event of the run
      that concerned this very entry did so. */
  lemma FateWhen(channelSize: nat, token: Packet, listeners: nat, es: seq<Event>, n: nat, fate: Fate)
    ensures var s0 := Init(channelSize, token, listeners);
      ShowsAt(Exec(s0, es), n, fate) <==> Runs.Befell(Next, s0, es, (t, e) => Decides(t, e, n, fate))
  {
    var s0 := Init(channelSize, token, listeners);
    SameRun(s0, es);
    InitOk(channelSize, token, listeners);
    forall t: State, e: Event | Inv(t)
      ensures Inv(Next(t, e)) && (ShowsAt(Next(t, e), n, fate) <==> ShowsAt(t, n, fate) || Decides(t, e, n, fate))
    {
      InvNext(t, e);
      FateNext(t, e, n, fate);
    }
    Runs.History(Next, s0, es, t => Inv(t), t => ShowsAt(t, n, fate), (t, e) => Decides(t, e, n, fate));
  }

  lemma InitOk(channelSize: nat, token: Packet, listeners: nat)
    ensures Inv(Init(channelSize, token, listeners))
  {
  }

  /** In every run: a flow is skipped exactly when its handleLoop, receiving it, found it more than
      three seconds old, and is looked after exactly when it found it at most that old. */
  lemma AgeRespected(channelSize: nat, token: Packet, listeners: nat, es: seq<Event>, n: nat)
    requires n < |Exec(Init(channelSize, token, listeners), es).entries|
    ensures var s0 := Init(channelSize, token, listeners); var x := Exec(s0, es).entries[n];
      && (x.stage.Expired? <==> Runs.Befell(Next, s0, es, (t, e) => Decides(t, e, n, TooOld)))
      && (Chosen(x) <==> Runs.Befell(Next, s0, es, (t, e) => Decides(t, e, n, InTime)))
  {
    FateWhen(channelSize, token, listeners, es, n, TooOld);
    FateWhen(channelSize, token, listeners, es, n, InTime);
  }

  /** A tunnel is given up exactly when an address write to it failed, and an entry is refused
      exactly when it was offered to a full channel. */
  lemma LostWhen(channelSize: nat, token: Packet, listeners: nat, es: seq<Event>, n: nat)
    requires n < |Exec(Init(channelSize, token, listeners), es).entries|
    ensures var s0 := Init(channelSize, token, listeners); var x := Exec(s0, es).entries[n];
      && (x.stage.Dropped? <==> Runs.Befell(Next, s0, es, (t, e) => Decides(t, e, n, GivenUp)))
      && (IsRefused(x.stage) <==> Runs.Befell(Next, s0, es, (t, e) => Decides(t, e, n, NoRoom)))
  {
    FateWhen(channelSize, token, listeners, es, n, GivenUp);
    FateWhen(channelSize, token, listeners, es, n, NoRoom);
  }

  // ---- Lost for good ----

  lemma {:induction false} LostForever(s: State, es: seq<Event>, n: nat)
    requires Inv(s) && n < |s.entries| && Lost(s.entries[n].stage)
    ensures n < |Exec(s, es).entries| && Lost(Exec(s, es).entries[n].stage)
    ensures s.entries[n].stage.Expired? || s.entries[n].stage.Dropped? ==>
      Exec(s, es).entries[n].stage == s.entries[n].stage
    decreases |es|
  {
    if es == [] {
      assert Exec(s, es) == s;
    } else {
      InvNext(s, es[0]);
      EntriesStay(s, es[0]);
      DecidedNext(s, es[0], n, TooOld);
      DecidedNext(s, es[0], n, GivenUp);
      DecidedNext(s, es[0], n, NoRoom);
      LostForever(Next(s, es[0]), es[1..], n);
    }
  }

  /** An expired flow and a tunnel whose address write failed stay in their tables for good, with
      an open channel that nobody reads: their senders are shadowed. */
  lemma StrandedForever(channelSize: nat, token: Packet, listeners: nat, es: seq<Event>, later: seq<Event>, n: nat)
    requires var s := Exec(Init(channelSize, token, listeners), es);
      n < |s.entries| && (s.entries[n].stage.Expired? || s.entries[n].stage.Dropped?)
    ensures var s := Exec(Init(channelSize, token, listeners), es); var s' := Exec(s, later);
      && n < |s'.entries| && s'.entries[n].stage == s.entries[n].stage && !s'.entries[n].closed
      && var x := s'.entries[n];
        x.side < |s'.sides| && x.key in s'.sides[x.side].table && s'.sides[x.side].table[x.key] == n
  {
    InitOk(channelSize, token, listeners);
    ExecStays(Init(channelSize, token, listeners), es);
    var s := Exec(Init(channelSize, token, listeners), es);
    ExecStays(s, later);
    LostForever(s, later, n);
    assert EntryListed(Exec(s, later), n) && EntryOk(Exec(s, later).entries[n]);
  }

  // ---- Continuations in time ----

  /** The clock reading of an event, if it makes one that matters: when a flow is created, and when
      handleLoop receives it. */
  function Reading(e: Event): Option<int> {
    if (e.Store? && e.side > 0) || e.Dequeue? then Some(e.now) else None
  }

  /** Readings start at t and do not go back. */
  predicate Timely(es: seq<Event>, t: int)
    decreases |es|
  {
    es == [] ||
    match Reading(es[0])
    case None => Timely(es[1..], t)
    case Some(now) => now >= t && Timely(es[1..], now)
  }

  /** A flow that is not chosen yet and has waited for over three seconds at time t. */
  predicate Overdue(x: Entry, t: int) { x.side > 0 && !Chosen(x) && t > x.timeCreated + 3000 }

  /** Such a flow is never chosen, whatever happens from then on. */
  lemma {:induction false} OverdueForever(s: State, es: seq<Event>, n: nat, t: int)
    requires Inv(s) && n < |s.entries| && Overdue(s.entries[n], t) && Timely(es, t)
    ensures n < |Exec(s, es).entries| && Overdue(Exec(s, es).entries[n], t)
    decreases |es|
  {
    if es == [] {
      assert Exec(s, es) == s;
    } else {
      InvNext(s, es[0]);
      EntriesStay(s, es[0]);
      DecidedNext(s, es[0], n, InTime);
      TimelyLater(es, t);
      OverdueForever(Next(s, es[0]), es[1..], n, t);
    }
  }

  lemma {:induction false} TimelyEarlier(es: seq<Event>, t: int, t': int)
    requires Timely(es, t) && t' <= t
    ensures Timely(es, t')
    decreases |es|
  {
    if es == [] {
    } else if Reading(es[0]).None? {
      TimelyEarlier(es[1..], t, t');
    }
  }

  lemma TimelyLater(es: seq<Event>, t: int)
    requires es != [] && Timely(es, t)
    ensures Timely(es[1..], t)
  {
    if Reading(es[0]).Some? { TimelyEarlier(es[1..], Reading(es[0]).value, t); }
  }
}
