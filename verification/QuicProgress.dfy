/** What the sessions of the quic transport bring about over whole runs, and which of them complete. */
module QuicProgress {
  import opened Conns
  import opened Options
  import opened QuicHandoff
  import Runs

  lemma {:induction false} SameRun(s: State, es: seq<Event>)
    ensures Runs.Exec(Next, s, es) == Exec(s, es)
    decreases |es|
  {
    if es == [] {
    } else {
      SameRun(Next(s, es[0]), es[1..]);
    }
  }

  // ---- What becomes of a session ----

  /** A session fails to open a stream or to send an address; quits on a cancellation; passes the
      baton; receives the last report; closes done and its connection. */
  datatype Fate = Failed | Stopped | Passed | Complete | Ended

  predicate Shows(t: Session, fate: Fate) {
    match fate
    case Failed => t.phase.Returning? || t.phase.Forfeiting? || t.phase.Broken?
    case Stopped => t.phase.Quitted?
    case Passed => t.passes > 0
    case Complete => t.phase.Closing? || t.phase.Finished?
    case Ended => t.phase.Finished?
  }

  predicate OpDoes(t: Session, muxCon: nat, cancelled: bool, op: Op, fate: Fate) {
    match fate
    case Failed => (t.phase.Opening? && op == OpenStream(false)) || (t.phase.Sending? && op == SendAddress(false))
    case Stopped => t.phase.Pulling? && cancelled && op.Quit?
    case Passed => false
    case Complete => t.phase.Draining? && op.Collect? && t.reports > 0 && t.collected + 1 == muxCon
    case Ended => t.phase.Closing? && op.CloseDone?
  }

  /** The session and its handleTunConn goroutine meet at the channel next. */
  predicate Meets(s: State, i: nat) {
    && i < |s.sessions| && (s.sessions[i].phase.Forfeiting? || s.sessions[i].phase.Passing?)
    && s.sessions[i].server < |s.servers| && s.servers[s.sessions[i].server].Blocked?
  }

  predicate ShowsAt(s: State, i: nat, fate: Fate) { i < |s.sessions| && Shows(s.sessions[i], fate) }

  predicate Does(s: State, e: Event, i: nat, fate: Fate) {
    if e.At? then e.session == i < |s.sessions| && OpDoes(s.sessions[i], s.muxCon, s.cancelled, e.op, fate)
    else e == Pass(i) && fate.Passed? && Meets(s, i)
  }

  lemma FateOp(t: Session, queue: seq<Conn>, channelSize: nat, muxCon: nat, cancelled: bool, op: Op, fate: Fate)
    requires SessionOk(t, muxCon)
    ensures Shows(SessionOp(t, queue, channelSize, muxCon, cancelled, op).session, fate)
       <==> Shows(t, fate) || OpDoes(t, muxCon, cancelled, op, fate)
  {
    match op
    case Pull =>
    case Quit =>
    case OpenStream(_) =>
    case SendAddress(_) =>
    case PushBack =>
    case RelayEnd(_) =>
    case Report =>
    case Collect =>
    case CloseDone =>
  }

  lemma FateNext(s: State, e: Event, i: nat, fate: Fate)
    requires Inv(s)
    ensures ShowsAt(Next(s, e), i, fate) <==> ShowsAt(s, i, fate) || Does(s, e, i, fate)
  {
    match e
    case At(j, op) =>
      if j < |s.sessions| {
        assert SessionPlaced(s, j);
        FateOp(s.sessions[j], s.localChan, s.channelSize, s.muxCon, s.cancelled, op, fate);
      }
    case _ =>
  }

  /** In every run each of these has happened to a session exactly when one of its events met it. */
  lemma FateWhen(channelSize: nat, muxCon: nat, servers: nat, es: seq<Event>, i: nat, fate: Fate)
    requires muxCon >= 1
    ensures var s0 := Init(channelSize, muxCon, servers);
      ShowsAt(Exec(s0, es), i, fate) <==> Runs.Befell(Next, s0, es, (t, e) => Does(t, e, i, fate))
  {
    var s0 := Init(channelSize, muxCon, servers);
    SameRun(s0, es);
    forall t: State, e: Event | Inv(t)
      ensures Inv(Next(t, e)) && (ShowsAt(Next(t, e), i, fate) <==> ShowsAt(t, i, fate) || Does(t, e, i, fate))
    {
      InvNext(t, e);
      FateNext(t, e, i, fate);
    }
    Runs.History(Next, s0, es, t => Inv(t), t => ShowsAt(t, i, fate), (t, e) => Does(t, e, i, fate));
  }

  /** The relay of the connection, on whichever stream, comes to its end. */
  predicate Ends(s: State, e: Event, c: Conn) {
    && e.At? && e.op.RelayEnd? && e.session < |s.sessions|
    && e.op.k < |s.sessions[e.session].live| && s.sessions[e.session].live[e.op.k] == c
  }

  lemma EndedOp(t: Session, queue: seq<Conn>, channelSize: nat, muxCon: nat, cancelled: bool, op: Op, c: Conn)
    ensures SessionOp(t, queue, channelSize, muxCon, cancelled, op).finished == Some(c)
      <==> op.RelayEnd? && op.k < |t.live| && t.live[op.k] == c
  {
    match op
    case RelayEnd(_) =>
    case _ =>
  }

  /** In every run a connection is finished exactly when its relay has ended, in whatever order relays
      end that share a session. */
  lemma FinishedWhen(channelSize: nat, muxCon: nat, servers: nat, es: seq<Event>, c: Conn)
    ensures var s0 := Init(channelSize, muxCon, servers);
      c in Exec(s0, es).finished <==> Runs.Befell(Next, s0, es, (t, e) => Ends(t, e, c))
  {
    var s0 := Init(channelSize, muxCon, servers);
    SameRun(s0, es);
    forall t: State, e: Event
      ensures c in Next(t, e).finished <==> c in t.finished || Ends(t, e, c)
    {
      if e.At? && e.session < |t.sessions| {
        EndedOp(t.sessions[e.session], t.localChan, t.channelSize, t.muxCon, t.cancelled, e.op, c);
      }
    }
    Runs.History(Next, s0, es, (t: State) => true, (t: State) => c in t.finished, (t, e) => Ends(t, e, c));
  }

  /** Sessions can see the cancellation from the event on that makes it. */
  lemma {:induction false} CancelledWhen(s: State, es: seq<Event>)
    ensures Exec(s, es).cancelled <==> s.cancelled || Cancel in es
    decreases |es|
  {
    if es == [] {
    } else {
      CancelledWhen(Next(s, es[0]), es[1..]);
      assert es == [es[0]] + es[1..];
    }
  }

  /** A pending report of a session that waits for its relays is received. */
  lemma ReportReceived(channelSize: nat, muxCon: nat, servers: nat, es: seq<Event>, i: nat)
    requires muxCon >= 1 && i < |Exec(Init(channelSize, muxCon, servers), es).sessions|
    requires var t := Exec(Init(channelSize, muxCon, servers), es).sessions[i]; t.phase.Draining? && t.reports > 0
    ensures var s := Exec(Init(channelSize, muxCon, servers), es); var t := s.sessions[i];
      var last := t.collected + 1 == muxCon;
      Next(s, At(i, Collect)) ==
      s.(sessions := s.sessions[i := t.(reports := t.reports - 1, collected := t.collected + 1,
                                        phase := if last then Closing else Draining)])
  {
    InvExec(Init(channelSize, muxCon, servers), es);
    var s := Exec(Init(channelSize, muxCon, servers), es);
    assert s.finished + [] == s.finished;
  }

  // ---- localChan ----

  function Puts(s: State, e: Event): seq<Conn> {
    if |s.localChan| >= s.channelSize then []
    else if e.Accept? then if e.conn !in s.accepted then [e.conn] else []
    else if e.At? && e.op.PushBack? && e.session < |s.sessions| && s.sessions[e.session].phase.Returning? then
      AsSeq(s.sessions[e.session].incoming)
    else []
  }

  function Gets(s: State, e: Event): seq<Conn> {
    if e.At? && e.op.Pull? && e.session < |s.sessions| && s.sessions[e.session].phase.Pulling? && s.localChan != []
    then [s.localChan[0]] else []
  }

  lemma QueueOp(t: Session, queue: seq<Conn>, channelSize: nat, muxCon: nat, cancelled: bool, op: Op)
    ensures var after := SessionOp(t, queue, channelSize, muxCon, cancelled, op).localChan;
      if op.Pull? && t.phase.Pulling? && queue != [] then queue == [queue[0]] + after
      else if op.PushBack? && t.phase.Returning? && |queue| < channelSize then after == queue + AsSeq(t.incoming)
      else after == queue
  {
    match op
    case Pull =>
    case Quit =>
    case OpenStream(_) =>
    case SendAddress(_) =>
    case PushBack =>
    case RelayEnd(_) =>
    case Report =>
    case Collect =>
    case CloseDone =>
  }

  lemma QueueNext(s: State, e: Event)
    ensures s.localChan + Puts(s, e) == Gets(s, e) + Next(s, e).localChan
  {
    if e.At? && e.session < |s.sessions| {
      QueueOp(s.sessions[e.session], s.localChan, s.channelSize, s.muxCon, s.cancelled, e.op);
    }
  }

  /** In every run the sessions pull connections in the order in which acceptors and sessions sent
      them into localChan. */
  lemma PulledInOrder(channelSize: nat, muxCon: nat, servers: nat, es: seq<Event>)
    ensures var s0 := Init(channelSize, muxCon, servers);
      Runs.Trace(Next, s0, es, Puts) == Runs.Trace(Next, s0, es, Gets) + Exec(s0, es).localChan
  {
    var s0 := Init(channelSize, muxCon, servers);
    SameRun(s0, es);
    forall t: State, e: Event
      ensures t.localChan + Puts(t, e) == Gets(t, e) + Next(t, e).localChan
    {
      QueueNext(t, e);
    }
    Runs.Fifo(Next, s0, es, t => true, (t: State) => t.localChan, Puts, Gets);
    assert [] + Runs.Trace(Next, s0, es, Puts) == Runs.Trace(Next, s0, es, Puts);
  }

  // ---- Which sessions complete ----

  predicate CompletesAfter(s: State, later: seq<Event>, i: nat) {
    var s' := Exec(s, later);
    i < |s'.sessions| && s'.sessions[i].doneClosed && s'.sessions[i].connClosed
  }

  predicate OffTrack(t: Session) { Shows(t, Failed) || Shows(t, Stopped) }

  function PhaseRank(p: Phase): nat {
    match p
    case Pulling => 7
    case Opening => 6
    case Sending => 5
    case Passing => 4
    case Draining => 3
    case Closing => 2
    case _ => 0
  }

  /** Steps of the relays until they have all reported. */
  function Outstanding(t: Session): nat { 3 * |t.live| + 2 * t.reporting + t.reports }

  /** What a session that is not off track is waiting for. */
  function Awaits(t: Session, i: nat): Event {
    match t.phase
    case Pulling => At(i, Pull)
    case Opening => At(i, OpenStream(true))
    case Sending => At(i, SendAddress(true))
    case Passing => Pass(i)
    case Draining => At(i, if t.reports > 0 then Collect else if t.reporting > 0 then Report else RelayEnd(0))
    case _ => At(i, CloseDone)
  }

  predicate Nearer(t: Session, t': Session) {
    || t'.started > t.started
    || (t'.started == t.started
        && (PhaseRank(t'.phase) < PhaseRank(t.phase)
            || (t'.phase == t.phase && Outstanding(t') < Outstanding(t))))
  }

  lemma AwaitedNearer(s: State, i: nat)
    requires Inv(s) && i < |s.sessions| && !OffTrack(s.sessions[i]) && !s.sessions[i].phase.Finished?
    requires s.sessions[i].phase.Pulling? ==> s.localChan != []
    ensures var s' := Next(s, Awaits(s.sessions[i], i));
      && i < |s'.sessions| && !OffTrack(s'.sessions[i]) && Nearer(s.sessions[i], s'.sessions[i])
      && s'.channelSize == s.channelSize && s'.muxCon == s.muxCon
  {
    assert SessionPlaced(s, i);
  }

  lemma ExecCons(s: State, e: Event, es: seq<Event>)
    ensures Exec(s, [e] + es) == Exec(Next(s, e), es)
  {
    assert ([e] + es)[1..] == es;
  }

  lemma {:induction false} CompletesLater(s: State, i: nat) returns (later: seq<Event>)
    requires Inv(s) && s.channelSize >= 1 && i < |s.sessions| && !OffTrack(s.sessions[i])
    ensures CompletesAfter(s, later, i)
    decreases s.muxCon - s.sessions[i].started, PhaseRank(s.sessions[i].phase), Outstanding(s.sessions[i])
  {
    assert SessionPlaced(s, i);
    if s.sessions[i].phase.Finished? {
      later := [];
    } else {
      var before := [];
      if s.sessions[i].phase.Pulling? && s.localChan == [] {
        var id := IdBound(s.accepted);
        before := [Accept(Conn(id, "", 0))];
        InvNext(s, Accept(Conn(id, "", 0)));
      }
      var s1 := if before == [] then s else Next(s, before[0]);
      assert Exec(s, before) == s1 by { if before != [] { assert before[1..] == []; } }
      assert s1.sessions == s.sessions;
      var e := Awaits(s1.sessions[i], i);
      AwaitedNearer(s1, i);
      InvNext(s1, e);
      assert SessionPlaced(Next(s1, e), i);
      var rest := CompletesLater(Next(s1, e), i);
      later := before + ([e] + rest);
      ExecAppend(s, before, [e] + rest);
      ExecCons(s1, e, rest);
    }
  }

  lemma {:induction false} OffTrackForever(s: State, es: seq<Event>, i: nat)
    requires Inv(s) && i < |s.sessions| && OffTrack(s.sessions[i])
    ensures i < |Exec(s, es).sessions| && OffTrack(Exec(s, es).sessions[i]) && Inv(Exec(s, es))
    decreases |es|
  {
    if es == [] {
    } else {
      InvNext(s, es[0]);
      FateNext(s, es[0], i, Failed);
      FateNext(s, es[0], i, Stopped);
      OffTrackForever(Next(s, es[0]), es[1..], i);
    }
  }

  /** From every reachable state, before a cancellation if streams are still to be started: some
      continuation completes a session, closing done and the connection after all its relays have
      reported, if and only if the session has neither failed nor quitted; in particular every
      session does that has started all its streams. */
  lemma CompletesUnlessFailed(channelSize: nat, muxCon: nat, servers: nat, es: seq<Event>, i: nat)
    requires channelSize >= 1 && muxCon >= 1 && i < |Exec(Init(channelSize, muxCon, servers), es).sessions|
    requires var s := Exec(Init(channelSize, muxCon, servers), es); s.sessions[i].started == muxCon || !s.cancelled
    ensures var s := Exec(Init(channelSize, muxCon, servers), es);
      && ((exists later :: CompletesAfter(s, later, i)) <==> !OffTrack(s.sessions[i]))
      && (s.sessions[i].started == muxCon ==> !OffTrack(s.sessions[i]))
  {
    var s := Exec(Init(channelSize, muxCon, servers), es);
    InvExec(Init(channelSize, muxCon, servers), es);
    ExecStays(Init(channelSize, muxCon, servers), es);
    assert SessionPlaced(s, i);
    if OffTrack(s.sessions[i]) {
      forall later
        ensures !CompletesAfter(s, later, i)
      {
        OffTrackForever(s, later, i);
        assert SessionPlaced(Exec(s, later), i);
      }
    } else {
      var later := CompletesLater(s, i);
      assert CompletesAfter(s, later, i);
    }
  }
}
