/** The QUIC transport on the server (quic.go): every handleTunConn goroutine runs one session
    at a time and waits on an unbuffered channel for the session to hand the baton back; a
    session opens at most MuxCon streams, then waits for all its relays on the channel done and
    closes it.  Sending on a closed channel and closing it twice panic. */
module QuicHandoff {
  import opened Conns
  import opened Options
  import opened Tables

  /** Program point of a handleTunConn goroutine: at its select, or at <-next. */
  datatype Server = Waiting | Blocked(session: nat)

  /** Program point of handleSession. */
  datatype Phase =
    | Pulling    // at the select
    | Opening    // at OpenStream
    | Sending    // at SendBinaryString
    | Returning  // QUIC connection closed; at localChan <- incomingConn
    | Forfeiting // at next <-, about to return
    | Passing    // MuxCon streams started; at next <-
    | Draining   // receiving from done
    | Closing    // all relays reported; at close(done)
    | Quitted    // returned on cancellation
    | Broken     // returned after an error
    | Finished   // returned; done and the QUIC connection closed

  /** started: the variable counter; live: connections being relayed; reporting: relays at
      done <-; reports: items in done; collected: items received from done; passes: sends on next. */
  datatype Session = Session(
    server: nat,
    phase: Phase,
    incoming: Option<Conn>,
    started: nat,
    live: seq<Conn>,
    reporting: nat,
    reports: nat,
    collected: nat,
    passes: nat,
    doneClosed: bool,
    connClosed: bool)

  function NewSession(server: nat): Session { Session(server, Pulling, None, 0, [], 0, 0, 0, 0, false, false) }

  datatype State = State(
    channelSize: nat,
    muxCon: nat,
    localChan: seq<Conn>,
    servers: seq<Server>,
    sessions: seq<Session>,
    cancelled: bool,
    accepted: set<Conn>,
    finished: seq<Conn>,
    panicked: bool)

  datatype Event =
    | Accept(conn: Conn)
    | Serve(server: nat)
    | Cancel
    | Pass(session: nat)
    | At(session: nat, op: Op)

  datatype Op =
    | Pull
    | Quit
    | OpenStream(ok: bool)
    | SendAddress(ok: bool)
    | PushBack
    | RelayEnd(k: nat)
    | Report
    | Collect
    | CloseDone

  function Init(channelSize: nat, muxCon: nat, servers: nat): State {
    State(channelSize, muxCon, [], seq(servers, _ => Waiting), [], false, {}, [], false)
  }

  datatype Outcome = Outcome(session: Session, localChan: seq<Conn>, finished: Option<Conn>, panics: bool)

  function Stay(t: Session, queue: seq<Conn>): Outcome { Outcome(t, queue, None, false) }

  /** The loop of handleSession up to its sends on next. */
  function LoopOp(t: Session, queue: seq<Conn>, channelSize: nat, muxCon: nat, cancelled: bool, op: Op): Outcome {
    match op
    case Pull =>
      if t.phase.Pulling? && queue != [] then Stay(t.(phase := Opening, incoming := Some(queue[0])), queue[1..])
      else Stay(t, queue)
    case Quit => if t.phase.Pulling? && cancelled then Stay(t.(phase := Quitted), queue) else Stay(t, queue)
    case OpenStream(ok) =>
      if !t.phase.Opening? then Stay(t, queue)
      else Stay(if ok then t.(phase := Sending) else t.(phase := Returning, connClosed := true), queue)
    case SendAddress(ok) =>
      if !t.phase.Sending? || t.incoming.None? then Stay(t, queue)
      else if !ok then Stay(t.(phase := Returning, connClosed := true), queue)
      else Stay(t.(phase := if t.started + 1 == muxCon then Passing else Pulling, incoming := None,
                   started := t.started + 1, live := t.live + [t.incoming.value]), queue)
    case PushBack =>
      if t.phase.Returning? && t.incoming.Some? && |queue| < channelSize then
        Stay(t.(phase := Forfeiting, incoming := None), queue + [t.incoming.value])
      else Stay(t, queue)
    case _ => Stay(t, queue)
  }

  /** The relays, and the barrier behind the last hand-over. */
  function BarrierOp(t: Session, queue: seq<Conn>, muxCon: nat, op: Op): Outcome {
    match op
    case RelayEnd(k) =>
      if k < |t.live| then
        Outcome(t.(live := t.live[..k] + t.live[k + 1..], reporting := t.reporting + 1), queue, Some(t.live[k]), false)
      else Stay(t, queue)
    case Report =>
      if t.reporting == 0 then Stay(t, queue)
      else if t.doneClosed then Outcome(t, queue, None, true)
      else if t.reports < muxCon then Stay(t.(reporting := t.reporting - 1, reports := t.reports + 1), queue)
      else Stay(t, queue)
    case Collect =>
      if t.phase.Draining? && t.reports > 0 then
        Stay(t.(reports := t.reports - 1, collected := t.collected + 1,
                phase := if t.collected + 1 == muxCon then Closing else Draining), queue)
      else Stay(t, queue)
    case CloseDone =>
      if t.phase.Closing? then
        Outcome(t.(phase := Finished, doneClosed := true, connClosed := true), queue, None, t.doneClosed)
      else Stay(t, queue)
    case _ => Stay(t, queue)
  }

  function SessionOp(t: Session, queue: seq<Conn>, channelSize: nat, muxCon: nat, cancelled: bool, op: Op): Outcome {
    if op.RelayEnd? || op.Report? || op.Collect? || op.CloseDone? then BarrierOp(t, queue, muxCon, op)
    else LoopOp(t, queue, channelSize, muxCon, cancelled, op)
  }

  function Next(s: State, e: Event): State {
    match e
    case Accept(c) =>
      if c !in s.accepted && |s.localChan| < s.channelSize then
        s.(localChan := s.localChan + [c], accepted := s.accepted + {c})
      else s
    case Serve(v) =>
      if v < |s.servers| && s.servers[v].Waiting? then
        s.(sessions := s.sessions + [NewSession(v)], servers := s.servers[v := Blocked(|s.sessions|)])
      else s
    case Cancel => s.(cancelled := true)
    case Pass(i) =>
      // the unbuffered channel: sender and receiver meet
      if i < |s.sessions| && (s.sessions[i].phase.Forfeiting? || s.sessions[i].phase.Passing?)
         && s.sessions[i].server < |s.servers| && s.servers[s.sessions[i].server].Blocked?
      then
        var t := s.sessions[i];
        var t' := t.(phase := if t.phase.Passing? then Draining else Broken, passes := t.passes + 1);
        s.(sessions := s.sessions[i := t'],
           servers := s.servers[t.server := Waiting])
      else s
    case At(i, op) =>
      if i < |s.sessions| then
        var r := SessionOp(s.sessions[i], s.localChan, s.channelSize, s.muxCon, s.cancelled, op);
        s.(sessions := s.sessions[i := r.session], localChan := r.localChan, finished := s.finished + AsSeq(r.finished),
           panicked := s.panicked || r.panics)
      else s
  }

  function Exec(s: State, es: seq<Event>): State
    decreases |es|
  {
    if es == [] then s else Exec(Next(s, es[0]), es[1..])
  }

  // ---- The invariant ----

  /** The session has the baton: it has neither passed it nor quitted. */
  predicate HasBaton(p: Phase) { p.Pulling? || p.Opening? || p.Sending? || p.Returning? || p.Forfeiting? || p.Passing? }

  predicate SessionOk(t: Session, muxCon: nat) {
    && t.started == |t.live| + t.reporting + t.reports + t.collected
    && t.started <= muxCon
    && (t.incoming.Some? <==> t.phase.Opening? || t.phase.Sending? || t.phase.Returning?)
    && (t.started == muxCon <==> t.phase.Passing? || t.phase.Draining? || t.phase.Closing? || t.phase.Finished?)
    && (t.phase.Draining? ==> t.collected < muxCon)
    && (t.collected > 0 ==> t.phase.Draining? || t.phase.Closing? || t.phase.Finished?)
    && (t.phase.Closing? || t.phase.Finished? ==> t.collected == muxCon)
    && (t.doneClosed <==> t.phase.Finished?)
    && (t.connClosed <==> t.phase.Returning? || t.phase.Forfeiting? || t.phase.Broken? || t.phase.Finished?)
    && t.passes == (if HasBaton(t.phase) || t.phase.Quitted? then 0 else 1)
  }

  predicate SessionPlaced(s: State, i: nat)
    requires i < |s.sessions|
  {
    var t := s.sessions[i];
    && SessionOk(t, s.muxCon)
    && (HasBaton(t.phase) ==> t.server < |s.servers| && s.servers[t.server] == Blocked(i))
  }

  predicate ServerPlaced(s: State, v: nat)
    requires v < |s.servers|
  {
    s.servers[v].Blocked? ==>
      var i := s.servers[v].session;
      i < |s.sessions| && s.sessions[i].server == v && (HasBaton(s.sessions[i].phase) || s.sessions[i].phase.Quitted?)
  }

  predicate Inv(s: State) {
    && !s.panicked
    && s.muxCon >= 1
    && |s.localChan| <= s.channelSize
    && (forall i :: 0 <= i < |s.sessions| ==> SessionPlaced(s, i))
    && (forall v :: 0 <= v < |s.servers| ==> ServerPlaced(s, v))
  }

  lemma LoopOk(t: Session, queue: seq<Conn>, channelSize: nat, muxCon: nat, cancelled: bool, op: Op)
    requires SessionOk(t, muxCon) && |queue| <= channelSize
    ensures var r := LoopOp(t, queue, channelSize, muxCon, cancelled, op);
      && SessionOk(r.session, muxCon) && !r.panics && r.session.server == t.server && |r.localChan| <= channelSize
      && (HasBaton(t.phase) ==> HasBaton(r.session.phase) || r.session.phase.Quitted?)
      && (!HasBaton(t.phase) ==> r.session.phase == t.phase)
  {
  }

  lemma BarrierOk(t: Session, queue: seq<Conn>, muxCon: nat, op: Op)
    requires SessionOk(t, muxCon)
    ensures var r := BarrierOp(t, queue, muxCon, op);
      && SessionOk(r.session, muxCon) && !r.panics && r.session.server == t.server && r.localChan == queue
      && (HasBaton(t.phase) || t.phase.Quitted? ==> r.session.phase == t.phase)
      && (!HasBaton(t.phase) ==> !HasBaton(r.session.phase))
  {
    match op
    case RelayEnd(k) =>
      if k < |t.live| { assert |t.live[..k] + t.live[k + 1..]| == |t.live| - 1; }
    case Report =>
    case Collect =>
    case CloseDone =>
    case _ =>
  }

  lemma InvAt(s: State, i: nat, op: Op)
    requires Inv(s) && i < |s.sessions|
    ensures Inv(Next(s, At(i, op)))
  {
    var s' := Next(s, At(i, op));
    assert SessionPlaced(s, i);
    LoopOk(s.sessions[i], s.localChan, s.channelSize, s.muxCon, s.cancelled, op);
    BarrierOk(s.sessions[i], s.localChan, s.muxCon, op);
    forall j | 0 <= j < |s'.sessions|
      ensures SessionPlaced(s', j)
    {
      assert SessionPlaced(s, j);
    }
    forall v | 0 <= v < |s'.servers|
      ensures ServerPlaced(s', v)
    {
      assert ServerPlaced(s, v);
    }
  }

  lemma InvPass(s: State, i: nat)
    requires Inv(s)
    ensures Inv(Next(s, Pass(i)))
  {
    var s' := Next(s, Pass(i));
    if s' != s { assert SessionPlaced(s, i); }
    forall j | 0 <= j < |s'.sessions|
      ensures SessionPlaced(s', j)
    {
      assert SessionPlaced(s, j);
    }
    forall v | 0 <= v < |s'.servers|
      ensures ServerPlaced(s', v)
    {
      assert ServerPlaced(s, v);
    }
  }

  lemma InvOther(s: State, e: Event)
    requires Inv(s) && (e.Accept? || e.Serve? || e.Cancel?)
    ensures Inv(Next(s, e))
  {
    var s' := Next(s, e);
    forall j | 0 <= j < |s'.sessions|
      ensures SessionPlaced(s', j)
    {
      if j < |s.sessions| { assert SessionPlaced(s, j); }
    }
    forall v | 0 <= v < |s'.servers|
      ensures ServerPlaced(s', v)
    {
      assert ServerPlaced(s, v);
    }
  }

  lemma InvNext(s: State, e: Event)
    requires Inv(s)
    ensures Inv(Next(s, e))
  {
    match e
    case At(i, op) => if i < |s.sessions| { InvAt(s, i, op); }
    case Pass(i) => InvPass(s, i);
    case _ => InvOther(s, e);
  }

  lemma {:induction false} InvExec(s: State, es: seq<Event>)
    requires Inv(s)
    ensures Inv(Exec(s, es)) && Exec(s, es).muxCon == s.muxCon
    decreases |es|
  {
    if es == [] {
    } else {
      InvNext(s, es[0]);
      InvExec(Next(s, es[0]), es[1..]);
    }
  }

  // ---- Where a local connection is ----

  ghost function Copies(t: Session, c: Conn): nat { In(t.incoming, c) + Sum(t.live, Is(c)) }

  ghost function CopiesOf(c: Conn): Session -> nat { t => Copies(t, c) }

  ghost predicate Conserved(s: State, c: Conn) {
    Sum(s.localChan, Is(c)) + Sum(s.sessions, CopiesOf(c)) + Sum(s.finished, Is(c)) == if c in s.accepted then 1 else 0
  }

  ghost predicate Placed(t: Session, queue: seq<Conn>, r: Outcome, c: Conn) {
    Sum(r.localChan, Is(c)) + Copies(r.session, c) + In(r.finished, c) == Sum(queue, Is(c)) + Copies(t, c)
  }

  lemma LoopMoves(t: Session, queue: seq<Conn>, channelSize: nat, muxCon: nat, cancelled: bool, op: Op, c: Conn)
    requires SessionOk(t, muxCon)
    ensures Placed(t, queue, LoopOp(t, queue, channelSize, muxCon, cancelled, op), c)
  {
    if op.Pull? && queue != [] { assert Sum(queue, Is(c)) == Is(c)(queue[0]) + Sum(queue[1..], Is(c)); }
    if t.incoming.Some? {
      SumAppend(t.live, t.incoming.value, Is(c));
      SumAppend(queue, t.incoming.value, Is(c));
    }
  }

  lemma BarrierMoves(t: Session, queue: seq<Conn>, muxCon: nat, op: Op, c: Conn)
    ensures Placed(t, queue, BarrierOp(t, queue, muxCon, op), c)
  {
    if op.RelayEnd? && op.k < |t.live| { SumRemove(t.live, op.k, Is(c)); }
  }

  lemma ConservedAt(s: State, i: nat, op: Op, c: Conn)
    requires Inv(s) && Conserved(s, c) && i < |s.sessions|
    ensures Conserved(Next(s, At(i, op)), c)
  {
    var r := SessionOp(s.sessions[i], s.localChan, s.channelSize, s.muxCon, s.cancelled, op);
    assert SessionPlaced(s, i);
    LoopMoves(s.sessions[i], s.localChan, s.channelSize, s.muxCon, s.cancelled, op, c);
    BarrierMoves(s.sessions[i], s.localChan, s.muxCon, op, c);
    SumUpdate(s.sessions, i, r.session, CopiesOf(c));
    AppendOption(s.finished, r.finished, c);
  }

  lemma ConservedNext(s: State, e: Event, c: Conn)
    requires Inv(s) && Conserved(s, c)
    ensures Conserved(Next(s, e), c)
  {
    var s' := Next(s, e);
    match e
    case Accept(d) => SumAppend(s.localChan, d, Is(c));
    case Serve(v) => SumAppend(s.sessions, NewSession(v), CopiesOf(c));
    case Cancel =>
    case Pass(i) =>
      if s' != s { SumUpdate(s.sessions, i, s'.sessions[i], CopiesOf(c)); }
    case At(i, op) => if i < |s.sessions| { ConservedAt(s, i, op, c); }
  }

  lemma {:induction false} ConservedExec(s: State, es: seq<Event>, c: Conn)
    requires Inv(s) && Conserved(s, c)
    ensures Conserved(Exec(s, es), c)
    decreases |es|
  {
    if es == [] {
    } else {
      InvNext(s, es[0]);
      ConservedNext(s, es[0], c);
      ConservedExec(Next(s, es[0]), es[1..], c);
    }
  }

  // ---- Main results, over every interleaving ----

  /** At most one session of a handleTunConn goroutine pulls connections at any time. */
  lemma OnePuller(channelSize: nat, muxCon: nat, servers: nat, es: seq<Event>, i: nat, j: nat)
    requires muxCon >= 1
    requires var s := Exec(Init(channelSize, muxCon, servers), es);
      i < |s.sessions| && j < |s.sessions| && s.sessions[i].server == s.sessions[j].server
      && HasBaton(s.sessions[i].phase) && HasBaton(s.sessions[j].phase)
    ensures i == j
  {
    var s := Exec(Init(channelSize, muxCon, servers), es);
    InvExec(Init(channelSize, muxCon, servers), es);
    assert SessionPlaced(s, i) && SessionPlaced(s, j);
  }

  /** A session passes the baton at most once and pulls nothing afterwards; it never starts more
      than muxCon streams; a relay's report on done finds room and an open channel; it is at the close
      of done exactly between receiving the last of muxCon reports and closing it. */
  lemma Barrier(channelSize: nat, muxCon: nat, servers: nat, es: seq<Event>, i: nat)
    requires muxCon >= 1 && i < |Exec(Init(channelSize, muxCon, servers), es).sessions|
    ensures var s := Exec(Init(channelSize, muxCon, servers), es); var t := s.sessions[i];
      && !s.panicked
      && t.passes <= 1 && (t.passes == 1 ==> !HasBaton(t.phase) && t.incoming.None?)
      && t.started == |t.live| + t.reporting + t.reports + t.collected <= muxCon
      && (t.reporting > 0 ==> t.reports < muxCon && !t.doneClosed)
      && (t.doneClosed ==> t.collected == muxCon && t.live == [] && t.reporting == 0)
      && (t.connClosed && !t.doneClosed ==> t.phase.Returning? || t.phase.Forfeiting? || t.phase.Broken?)
      && (t.phase.Closing? <==> t.collected == muxCon && !t.doneClosed)
      && (t.phase.Finished? <==> t.doneClosed)
  {
    InvExec(Init(channelSize, muxCon, servers), es);
    assert SessionPlaced(Exec(Init(channelSize, muxCon, servers), es), i);
  }

  lemma PassedNext(s: State, e: Event, i: nat)
    requires Inv(s) && i < |s.sessions| && !HasBaton(s.sessions[i].phase)
    ensures i < |Next(s, e).sessions| && !HasBaton(Next(s, e).sessions[i].phase)
    ensures Next(s, e).sessions[i].started == s.sessions[i].started
  {
    assert SessionPlaced(s, i);
    if e.At? {
      LoopOk(s.sessions[i], s.localChan, s.channelSize, s.muxCon, s.cancelled, e.op);
      BarrierOk(s.sessions[i], s.localChan, s.muxCon, e.op);
    }
  }

  /** After its pass a session never has the baton again, whatever happens later, and starts no
      further stream. */
  lemma {:induction false} NoPullAfterPass(s: State, es: seq<Event>, i: nat)
    requires Inv(s) && i < |s.sessions| && !HasBaton(s.sessions[i].phase)
    ensures i < |Exec(s, es).sessions| && !HasBaton(Exec(s, es).sessions[i].phase)
    ensures Exec(s, es).sessions[i].started == s.sessions[i].started
    decreases |es|
  {
    if es == [] {
    } else {
      InvNext(s, es[0]);
      PassedNext(s, es[0], i);
      NoPullAfterPass(Next(s, es[0]), es[1..], i);
    }
  }

  /** Every accepted connection is queued, in one session's hands, relayed on one stream, or
      finished, and in only one of these places. */
  lemma ExactlyOnePlace(channelSize: nat, muxCon: nat, servers: nat, es: seq<Event>, c: Conn)
    requires muxCon >= 1
    ensures var s := Exec(Init(channelSize, muxCon, servers), es);
      && Sum(s.localChan, Is(c)) + Sum(s.sessions, CopiesOf(c)) + Sum(s.finished, Is(c))
         == (if c in s.accepted then 1 else 0)
      && (forall i, j :: 0 <= i < j < |s.sessions| ==> Copies(s.sessions[i], c) == 0 || Copies(s.sessions[j], c) == 0)
  {
    var s := Exec(Init(channelSize, muxCon, servers), es);
    ConservedExec(Init(channelSize, muxCon, servers), es, c);
    forall i, j | 0 <= i < j < |s.sessions|
      ensures Copies(s.sessions[i], c) == 0 || Copies(s.sessions[j], c) == 0
    {
      SumPair(s.sessions, i, j, CopiesOf(c));
    }
  }

  // ---- When nobody pulls connections any more ----

  /** The goroutine waits for a baton that will not come: its session has quitted, or is at its
      send back into localChan while that is full. */
  predicate Waits(s: State, v: nat) {
    && v < |s.servers| && s.servers[v].Blocked? && s.servers[v].session < |s.sessions|
    && var p := s.sessions[s.servers[v].session].phase;
      p.Quitted? || (p.Returning? && |s.localChan| == s.channelSize)
  }

  predicate Stuck(s: State) { forall v :: 0 <= v < |s.servers| ==> Waits(s, v) }

  /** Some session is at its select and finds a connection. */
  predicate Pulls(s: State) { s.localChan != [] && exists i :: 0 <= i < |s.sessions| && s.sessions[i].phase.Pulling? }

  predicate PullsAfter(s: State, later: seq<Event>) { Pulls(Exec(s, later)) }

  lemma StuckOp(t: Session, queue: seq<Conn>, channelSize: nat, muxCon: nat, cancelled: bool, op: Op)
    requires HasBaton(t.phase) ==> t.phase.Returning? && |queue| == channelSize
    ensures var r := SessionOp(t, queue, channelSize, muxCon, cancelled, op);
      r.localChan == queue && (t.phase.Returning? || t.phase.Quitted? ==> r.session.phase == t.phase)
  {
  }

  /** In a stuck state the only sessions with a baton are at a send back into the full localChan. */
  lemma StuckSession(s: State, i: nat)
    requires Inv(s) && Stuck(s) && i < |s.sessions|
    ensures HasBaton(s.sessions[i].phase) ==> s.sessions[i].phase.Returning? && |s.localChan| == s.channelSize
  {
    assert SessionPlaced(s, i);
    if HasBaton(s.sessions[i].phase) { assert Waits(s, s.sessions[i].server); }
  }

  lemma StuckNext(s: State, e: Event)
    requires Inv(s) && Stuck(s)
    ensures Stuck(Next(s, e)) && (|s.localChan| == s.channelSize ==> Next(s, e).localChan == s.localChan)
  {
    var s' := Next(s, e);
    match e {
      case At(i, op) =>
        if i < |s.sessions| {
          StuckSession(s, i);
          StuckOp(s.sessions[i], s.localChan, s.channelSize, s.muxCon, s.cancelled, op);
        }
      case Pass(i) => if i < |s.sessions| { StuckSession(s, i); }
      case Serve(v) => if v < |s.servers| { assert Waits(s, v); }
      case _ =>
    }
    forall v | 0 <= v < |s'.servers|
      ensures Waits(s', v)
    {
      assert Waits(s, v);
    }
  }

  /** Such a hand-off is stuck for good: nobody pulls in any continuation, and a full localChan
      keeps its connections. */
  lemma {:induction false} StuckForever(s: State, es: seq<Event>)
    requires Inv(s) && Stuck(s)
    ensures Stuck(Exec(s, es)) && !PullsAfter(s, es)
    ensures |s.localChan| == s.channelSize ==> Exec(s, es).localChan == s.localChan
    decreases |es|
  {
    if es == [] {
      forall i | 0 <= i < |s.sessions|
        ensures !s.sessions[i].phase.Pulling?
      {
        StuckSession(s, i);
      }
    } else {
      InvNext(s, es[0]);
      StuckNext(s, es[0]);
      StuckForever(Next(s, es[0]), es[1..]);
    }
  }

  lemma ExecCons(s: State, e: Event, es: seq<Event>)
    ensures Exec(s, [e] + es) == Exec(Next(s, e), es)
  {
    assert ([e] + es)[1..] == es;
  }

  /** How far a goroutine and its session are from pulling. */
  function Rank(s: State, v: nat): nat {
    if v >= |s.servers| then 0
    else if s.servers[v].Waiting? then 3
    else if s.servers[v].session >= |s.sessions| then 0
    else
      match s.sessions[s.servers[v].session].phase
      case Opening => 8
      case Sending => 7
      case Returning => 6
      case Forfeiting => 5
      case Passing => 4
      case _ => 0
  }

  function Awaited(s: State, v: nat): Event
    requires v < |s.servers|
  {
    if s.servers[v].Waiting? then Serve(v)
    else
      var i := s.servers[v].session;
      if i >= |s.sessions| then Cancel
      else
        match s.sessions[i].phase
        case Opening => At(i, OpenStream(true))
        case Sending => At(i, SendAddress(true))
        case Returning => At(i, PushBack)
        case _ => Pass(i)
  }

  lemma AwaitedHelps(s: State, v: nat)
    requires Inv(s) && v < |s.servers| && !Waits(s, v) && Rank(s, v) > 0
    ensures var s' := Next(s, Awaited(s, v));
      v < |s'.servers| && !Waits(s', v) && Rank(s', v) < Rank(s, v) && s'.channelSize == s.channelSize
  {
    assert ServerPlaced(s, v);
    if s.servers[v].Blocked? { assert SessionPlaced(s, s.servers[v].session); }
  }

  /** The identities of a set of connections are bounded, so there is always another one. */
  lemma IdBound(cs: set<Conn>) returns (bound: nat)
    ensures forall c :: c in cs ==> c.id < bound
    decreases |cs|
  {
    if d :| d in cs {
      var below := IdBound(cs - {d});
      bound := below + d.id + 1;
    } else {
      bound := 0;
    }
  }

  lemma {:induction false} PullLater(s: State, v: nat) returns (later: seq<Event>)
    requires Inv(s) && s.channelSize > 0 && v < |s.servers| && !Waits(s, v)
    ensures PullsAfter(s, later)
    decreases Rank(s, v)
  {
    assert ServerPlaced(s, v);
    if Rank(s, v) == 0 {
      assert s.sessions[s.servers[v].session].phase.Pulling?;
      if s.localChan != [] {
        later := [];
      } else {
        var id := IdBound(s.accepted);
        var c := Conn(id, "", 0);
        later := [Accept(c)] + [];
        ExecCons(s, Accept(c), []);
        assert Next(s, Accept(c)).localChan == [c];
      }
    } else {
      AwaitedHelps(s, v);
      InvNext(s, Awaited(s, v));
      var rest := PullLater(Next(s, Awaited(s, v)), v);
      later := [Awaited(s, v)] + rest;
      ExecCons(s, Awaited(s, v), rest);
    }
  }

  lemma {:induction false} ExecStays(s: State, es: seq<Event>)
    ensures Exec(s, es).channelSize == s.channelSize && |Exec(s, es).servers| == |s.servers|
    decreases |es|
  {
    if es == [] {
      assert Exec(s, es) == s;
    } else {
      ExecStays(Next(s, es[0]), es[1..]);
    }
  }

  /** From every reachable state before a cancellation: some continuation pulls a connection if and
      only if not every handleTunConn goroutine waits in vain. */
  lemma PullsUnlessStuck(channelSize: nat, muxCon: nat, servers: nat, es: seq<Event>)
    requires channelSize >= 1 && muxCon >= 1 && !Exec(Init(channelSize, muxCon, servers), es).cancelled
    ensures var s := Exec(Init(channelSize, muxCon, servers), es);
      (exists later :: PullsAfter(s, later)) <==> !Stuck(s)
  {
    var s := Exec(Init(channelSize, muxCon, servers), es);
    InvExec(Init(channelSize, muxCon, servers), es);
    ExecStays(Init(channelSize, muxCon, servers), es);
    if Stuck(s) {
      forall later
        ensures !PullsAfter(s, later)
      {
        StuckForever(s, later);
      }
    } else {
      var v :| 0 <= v < |s.servers| && !Waits(s, v);
      var later := PullLater(s, v);
      assert PullsAfter(s, later);
    }
  }

  /** Acceptors refill the queue with connections of larger identity. */
  lemma {:induction false} Refill(s: State, id: nat) returns (es: seq<Event>)
    requires forall c :: c in s.accepted ==> c.id < id
    requires |s.localChan| <= s.channelSize
    ensures var s' := Exec(s, es);
      |s'.localChan| == s.channelSize && s' == s.(localChan := s'.localChan, accepted := s'.accepted)
    decreases s.channelSize - |s.localChan|
  {
    if |s.localChan| == s.channelSize {
      es := [];
    } else {
      var c := Conn(id, "", 0);
      var rest := Refill(Next(s, Accept(c)), id + 1);
      es := [Accept(c)] + rest;
      ExecCons(s, Accept(c), rest);
    }
  }

  lemma {:induction false} ExecAppend(s: State, es: seq<Event>, more: seq<Event>)
    ensures Exec(s, es + more) == Exec(Exec(s, es), more)
    decreases |es|
  {
    if es == [] {
      assert es + more == more;
    } else {
      assert (es + more)[0] == es[0] && (es + more)[1..] == es[1..] + more;
      ExecAppend(Next(s, es[0]), es[1..], more);
    }
  }

  /** With the one goroutine that the server starts it comes to that whatever the sizes: a session
      takes a connection, acceptors fill localChan, and its stream cannot be opened. */
  lemma StuckReachable(channelSize: nat, muxCon: nat) returns (es: seq<Event>)
    requires channelSize >= 1 && muxCon >= 1
    ensures var s := Exec(Init(channelSize, muxCon, 1), es); Stuck(s) && |s.localChan| == channelSize
  {
    var c := Conn(0, "", 0);
    var s0 := Init(channelSize, muxCon, 1);
    var s1 := Next(s0, Accept(c));
    var s2 := Next(s1, Serve(0));
    var s3 := Next(s2, At(0, Pull));
    var fill := Refill(s3, 1);
    var s4 := Exec(s3, fill);
    var fail := [At(0, OpenStream(false))] + [];
    assert s1.localChan == [c] && s3.sessions == [NewSession(0).(phase := Opening, incoming := Some(c))];
    es := [Accept(c)] + ([Serve(0)] + ([At(0, Pull)] + (fill + fail)));
    ExecCons(s0, Accept(c), [Serve(0)] + ([At(0, Pull)] + (fill + fail)));
    ExecCons(s1, Serve(0), [At(0, Pull)] + (fill + fail));
    ExecCons(s2, At(0, Pull), fill + fail);
    ExecAppend(s3, fill, fail);
    ExecCons(s4, At(0, OpenStream(false)), []);
  }

  // ---- The transport object ----

  /** The channels of QuicTransport with the program points and variables of its goroutines;
      Fire performs one operation in place. */
  class QuicTransport {
    const channelSize: nat
    const muxCon: nat
    var localChan: seq<Conn>
    var servers: seq<Server>
    var sessions: seq<Session>
    var cancelled: bool
    ghost var accepted: set<Conn>
    ghost var finished: seq<Conn>
    ghost var panicked: bool

    ghost function View(): State
      reads this
    {
      State(channelSize, muxCon, localChan, servers, sessions, cancelled, accepted, finished, panicked)
    }

    constructor (channelSize: nat, muxCon: nat, serverCount: nat)
      ensures View() == Init(channelSize, muxCon, serverCount)
    {
      this.channelSize, this.muxCon := channelSize, muxCon;
      localChan, servers, sessions, cancelled := [], seq(serverCount, _ => Waiting), [], false;
      accepted, finished, panicked := {}, [], false;
    }

    method Fire(e: Event)
      requires Inv(View())
      requires e.Accept? ==> e.conn !in accepted // a new connection
      modifies this
      ensures View() == Next(old(View()), e) && Inv(View())
    {
      InvNext(View(), e);
      match e
      case Accept(c) =>
        if |localChan| < channelSize {
          localChan, accepted := localChan + [c], accepted + {c};
        }
      case Serve(v) =>
        if v < |servers| && servers[v].Waiting? {
          servers, sessions := servers[v := Blocked(|sessions|)], sessions + [NewSession(v)];
        }
      case Cancel => cancelled := true;
      case Pass(i) => if i < |sessions| { PassBaton(i); }
      case At(i, op) =>
        if i < |sessions| {
          if op.RelayEnd? || op.Report? || op.Collect? || op.CloseDone? {
            Relays(i, op);
          } else {
            HandleSession(i, op);
          }
        }
    }

    method PassBaton(i: nat)
      requires Inv(View()) && i < |sessions|
      modifies this`servers, this`sessions
      ensures View() == Next(old(View()), Pass(i))
    {
      assert SessionPlaced(View(), i);
      var t := sessions[i];
      if t.phase.Forfeiting? {
        sessions := sessions[i := t.(phase := Broken, passes := t.passes + 1)];
        servers := servers[t.server := Waiting];
      } else if t.phase.Passing? {
        sessions := sessions[i := t.(phase := Draining, passes := t.passes + 1)];
        servers := servers[t.server := Waiting];
      }
    }

    method HandleSession(i: nat, op: Op)
      requires i < |sessions| && !op.RelayEnd? && !op.Report? && !op.Collect? && !op.CloseDone?
      modifies this`localChan, this`sessions
      ensures View() == Next(old(View()), At(i, op))
    {
      var t := sessions[i];
      if op.Pull? && t.phase.Pulling? && localChan != [] {
        t := t.(phase := Opening, incoming := Some(localChan[0]));
        localChan := localChan[1..];
      } else if op.Quit? && t.phase.Pulling? && cancelled {
        t := t.(phase := Quitted);
      } else if op.OpenStream? && t.phase.Opening? {
        t := if op.ok then t.(phase := Sending) else t.(phase := Returning, connClosed := true);
      } else if op.SendAddress? && t.phase.Sending? && t.incoming.Some? {
        if op.ok {
          t := t.(incoming := None, live := t.live + [t.incoming.value], started := t.started + 1);
          t := t.(phase := if t.started == muxCon then Passing else Pulling);
        } else {
          t := t.(phase := Returning, connClosed := true);
        }
      } else if op.PushBack? && t.phase.Returning? && t.incoming.Some? && |localChan| < channelSize {
        localChan := localChan + [t.incoming.value];
        t := t.(phase := Forfeiting, incoming := None);
      }
      sessions := sessions[i := t];
    }

    method Relays(i: nat, op: Op)
      requires Inv(View()) && i < |sessions| && (op.RelayEnd? || op.Report? || op.Collect? || op.CloseDone?)
      modifies this`sessions, this`finished
      ensures View() == Next(old(View()), At(i, op))
    {
      assert SessionPlaced(View(), i);
      var t := sessions[i];
      if op.RelayEnd? && op.k < |t.live| {
        finished := finished + [t.live[op.k]];
        t := t.(live := t.live[..op.k] + t.live[op.k + 1..], reporting := t.reporting + 1);
      } else if op.Report? && t.reporting > 0 && t.reports < muxCon {
        t := t.(reporting := t.reporting - 1, reports := t.reports + 1);
      } else if op.Collect? && t.phase.Draining? && t.reports > 0 {
        t := t.(reports := t.reports - 1, collected := t.collected + 1);
        if t.collected == muxCon { t := t.(phase := Closing); }
      } else if op.CloseDone? && t.phase.Closing? {
        t := t.(phase := Finished, doneClosed := true, connClosed := true);
      }
      sessions := sessions[i := t];
    }
  }
}
