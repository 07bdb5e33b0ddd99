/** The mux session scheduler of tcpmux.go and wsmux.go: acceptors, session loops and relays
    sharing localChannel, streamCounter and sessionCounter, each session with a semaphore
    channel of capacity MuxCon.  One event is one atomic operation of one goroutine; an event
    that the goroutine cannot take now (a full or empty channel, another program point)
    leaves the state as it is, so a sequence of events is any interleaving. */
module MuxScheduler {
  import opened Conns
  import opened Options
  import opened Tables

  const STALE_AFTER := 3000 // milliseconds

  /** Program point of one handleSession loop. */
  datatype Phase =
    | Starting     // received from tunnelChannel, not counted yet
    | Acquiring    // at counter <- struct{}{}
    | Selecting    // slot held, waiting for a connection or cancellation
    | Judging      // connection received, age not checked
    | Expiring     // too old and closed; streamCounter not lowered yet
    | Releasing    // streamCounter lowered; at <-counter
    | Opening      // at OpenStream
    | Sending      // at SendBinaryString
    | Returning    // address not sent; at localChannel <- incomingConn
    | Failing      // stream not opened; sessionCounter not lowered yet
    | Surrendering // at localChannel <- *incomingConn, then the loop returns
    | Failed       // returned after an open error; counter is closed
    | Stopped      // returned on cancellation; counter is closed

  /** incoming: the connection in the loop's hands; seen: the clock reading of its age check;
      live: connections being relayed; draining: relays that lowered streamCounter and are at
      <-counter; failedSends: address sends that failed; tokens: items in the channel counter. */
  datatype Session = Session(
    phase: Phase,
    incoming: Option<Conn>,
    seen: int,
    live: seq<Conn>,
    draining: nat,
    failedSends: nat,
    tokens: nat)

  datatype State = State(
    channelSize: nat,
    muxCon: nat,
    localChannel: seq<Conn>,
    streamCounter: int,
    sessionCounter: int,
    acceptors: seq<bool>, // true between the enqueue and the increment of streamCounter
    sessions: seq<Session>,
    cancelled: bool,
    accepted: set<Conn>,
    expired: seq<Conn>,
    finished: seq<Conn>)

  datatype Event =
    | Enqueue(acceptor: nat, conn: Conn)
    | CountStream(acceptor: nat)
    | StartSession
    | Cancel
    | At(session: nat, op: Op)

  datatype Op =
    | CountSession
    | Acquire
    | Take
    | Judge(now: int)
    | CountExpired
    | Release
    | OpenStream(ok: bool)
    | SendAddress(ok: bool)
    | PushBack
    | CountFailure
    | GiveUp
    | Quit
    | RelayEnd(k: nat) // the k-th live relay
    | RelayRelease

  function Init(channelSize: nat, muxCon: nat, acceptors: nat): State {
    State(channelSize, muxCon, [], 0, 0, seq(acceptors, _ => false), [], false, {}, [], [])
  }

  const NEW_SESSION := Session(Starting, None, 0, [], 0, 0, 0)

  function Next(s: State, e: Event): State {
    match e
    case Enqueue(a, c) =>
      // the select with a default: a full channel discards the connection
      if a < |s.acceptors| && !s.acceptors[a] && c !in s.accepted && |s.localChannel| < s.channelSize then
        s.(localChannel := s.localChannel + [c], acceptors := s.acceptors[a := true], accepted := s.accepted + {c})
      else s
    case CountStream(a) =>
      if a < |s.acceptors| && s.acceptors[a] then
        s.(streamCounter := s.streamCounter + 1, acceptors := s.acceptors[a := false])
      else s
    case StartSession => s.(sessions := s.sessions + [NEW_SESSION])
    case Cancel => s.(cancelled := true)
    case At(i, op) => if i < |s.sessions| then SessionNext(s, i, op) else s
  }

  /** What an operation of a session's goroutines leaves behind: the session, localChannel, the
      amounts added to the two counters, and the connections that left the scheduler. */
  datatype Outcome = Outcome(
    session: Session,
    localChannel: seq<Conn>,
    streams: int,
    loops: int,
    expired: Option<Conn>,
    finished: Option<Conn>)

  function Stay(t: Session, queue: seq<Conn>): Outcome { Outcome(t, queue, 0, 0, None, None) }

  /** The head of the loop: counting the session, taking a slot, and the select. */
  function LoopOp(t: Session, queue: seq<Conn>, muxCon: nat, cancelled: bool, op: Op): Outcome {
    match op
    case CountSession =>
      if t.phase.Starting? then Stay(t, queue).(session := t.(phase := Acquiring), loops := 1) else Stay(t, queue)
    case Acquire =>
      if t.phase.Acquiring? && t.tokens < muxCon then Stay(t.(phase := Selecting, tokens := t.tokens + 1), queue)
      else Stay(t, queue)
    case Take =>
      if t.phase.Selecting? && |queue| > 0 then Stay(t.(phase := Judging, incoming := Some(queue[0])), queue[1..])
      else Stay(t, queue)
    case Quit =>
      if t.phase.Selecting? && cancelled then Stay(t.(phase := Stopped), queue) else Stay(t, queue)
    case _ => Stay(t, queue)
  }

  /** The age check and what follows for a stale connection. */
  function AgeOp(t: Session, queue: seq<Conn>, op: Op): Outcome {
    match op
    case Judge(now) =>
      if t.phase.Judging? && t.incoming.Some? then
        var stale := now - t.incoming.value.timeCreated > STALE_AFTER;
        Stay(t.(phase := if stale then Expiring else Opening, seen := now), queue)
      else Stay(t, queue)
    case CountExpired =>
      if t.phase.Expiring? && t.incoming.Some? then
        Stay(t, queue).(session := t.(phase := Releasing, incoming := None), streams := -1, expired := t.incoming)
      else Stay(t, queue)
    case Release =>
      if t.phase.Releasing? && t.tokens > 0 then Stay(t.(phase := Acquiring, tokens := t.tokens - 1), queue)
      else Stay(t, queue)
    case _ => Stay(t, queue)
  }

  /** Opening the stream and sending the address over it. */
  function StreamOp(t: Session, queue: seq<Conn>, op: Op): Outcome {
    match op
    case OpenStream(ok) =>
      if t.phase.Opening? then Stay(t.(phase := if ok then Sending else Failing), queue) else Stay(t, queue)
    case SendAddress(ok) =>
      if !t.phase.Sending? || t.incoming.None? then Stay(t, queue)
      else if ok then Stay(t.(phase := Acquiring, incoming := None, live := t.live + [t.incoming.value]), queue)
      else Stay(t.(phase := Returning, failedSends := t.failedSends + 1), queue)
    case CountFailure =>
      if t.phase.Failing? then Stay(t, queue).(session := t.(phase := Surrendering), loops := -1) else Stay(t, queue)
    case _ => Stay(t, queue)
  }

  /** The blocking sends back into localChannel, after a failed send and after a failed open. */
  function RequeueOp(t: Session, queue: seq<Conn>, channelSize: nat, op: Op): Outcome {
    if op.PushBack? && t.phase.Returning? && t.incoming.Some? && |queue| < channelSize then
      Stay(t.(phase := Acquiring, incoming := None), queue + [t.incoming.value])
    else if op.GiveUp? && t.phase.Surrendering? && t.incoming.Some? && |queue| < channelSize then
      Stay(t.(phase := Failed, incoming := None), queue + [t.incoming.value])
    else Stay(t, queue)
  }

  /** The end of a relay goroutine: the counter, then the slot.  A receive from a channel that
      is closed and empty returns at once. */
  function RelayOp(t: Session, queue: seq<Conn>, op: Op): Outcome {
    match op
    case RelayEnd(k) =>
      if k < |t.live| then
        Stay(t, queue).(session := t.(live := t.live[..k] + t.live[k + 1..], draining := t.draining + 1), streams := -1,
                        finished := Some(t.live[k]))
      else Stay(t, queue)
    case RelayRelease =>
      if t.draining > 0 && t.tokens > 0 then Stay(t.(draining := t.draining - 1, tokens := t.tokens - 1), queue)
      else if t.draining > 0 && Closed(t.phase) then Stay(t.(draining := t.draining - 1), queue)
      else Stay(t, queue)
    case _ => Stay(t, queue)
  }

  function SessionOp(t: Session, queue: seq<Conn>, channelSize: nat, muxCon: nat, cancelled: bool, op: Op): Outcome {
    if op.CountSession? || op.Acquire? || op.Take? || op.Quit? then LoopOp(t, queue, muxCon, cancelled, op)
    else if op.Judge? || op.CountExpired? || op.Release? then AgeOp(t, queue, op)
    else if op.OpenStream? || op.SendAddress? || op.CountFailure? then StreamOp(t, queue, op)
    else if op.PushBack? || op.GiveUp? then RequeueOp(t, queue, channelSize, op)
    else RelayOp(t, queue, op)
  }

  function SessionNext(s: State, i: nat, op: Op): State
    requires i < |s.sessions|
  {
    var r := SessionOp(s.sessions[i], s.localChannel, s.channelSize, s.muxCon, s.cancelled, op);
    s.(localChannel := r.localChannel,
       streamCounter := s.streamCounter + r.streams,
       sessionCounter := s.sessionCounter + r.loops,
       sessions := s.sessions[i := r.session],
       expired := s.expired + AsSeq(r.expired),
       finished := s.finished + AsSeq(r.finished))
  }

  function Exec(s: State, es: seq<Event>): State
    decreases |es|
  {
    if es == [] then s else Exec(Next(s, es[0]), es[1..])
  }

  // ---- The inductive invariant ----

  /** How often a connection occurs in a session: in the loop's hands or on a live stream. */
  ghost function Copies(t: Session, c: Conn): nat { In(t.incoming, c) + Sum(t.live, Is(c)) }

  ghost function CopiesOf(c: Conn): Session -> nat { t => Copies(t, c) }

  function Load(t: Session): nat { (if t.incoming.Some? then 1 else 0) + |t.live| }

  predicate Closed(p: Phase) { p.Failed? || p.Stopped? }

  predicate Holding(p: Phase) {
    p.Judging? || p.Expiring? || p.Opening? || p.Sending? || p.Returning? || p.Failing? || p.Surrendering?
  }

  /** The loop itself accounts for one token: from counter <- until the slot passes to a relay,
      is released, or is left behind by a failed send; a closed session leaves its token behind. */
  predicate HoldsSlot(p: Phase) { !p.Starting? && !p.Acquiring? && !p.Returning? }

  function Counted(t: Session): nat { if t.phase.Starting? || t.phase.Surrendering? || t.phase.Failed? then 0 else 1 }

  /** Loops that have been counted and have not taken an exit. */
  function Running(t: Session): nat { if t.phase.Stopped? then 0 else Counted(t) }

  function Uncounted(pending: bool): nat { if pending then 1 else 0 }

  predicate SessionOk(t: Session, muxCon: nat, cancelled: bool) {
    && (t.incoming.Some? <==> Holding(t.phase))
    && t.tokens == |t.live| + t.draining + t.failedSends + (if HoldsSlot(t.phase) then 1 else 0)
    && t.tokens <= muxCon
    && (t.phase.Starting? ==> t.tokens == 0)
    && (t.phase.Stopped? ==> cancelled)
    && (t.phase.Expiring? ==> t.seen - t.incoming.value.timeCreated > STALE_AFTER)
    && (t.phase.Opening? || t.phase.Sending? ==> t.seen - t.incoming.value.timeCreated <= STALE_AFTER)
  }

  /** How often a connection occurs anywhere in the scheduler. */
  ghost function Places(s: State, c: Conn): nat {
    Sum(s.localChannel, Is(c)) + Sum(s.sessions, CopiesOf(c)) + Sum(s.expired, Is(c)) + Sum(s.finished, Is(c))
  }

  /** Connections accepted and not yet finished or expired. */
  ghost function InFlight(s: State): nat { |s.localChannel| + Sum(s.sessions, Load) }

  ghost function Pending(s: State): nat { Sum(s.acceptors, Uncounted) }

  ghost predicate Inv(s: State) { Shaped(s) && Counting(s) }

  predicate Shaped(s: State) {
    && |s.localChannel| <= s.channelSize
    && forall i :: 0 <= i < |s.sessions| ==> SessionOk(s.sessions[i], s.muxCon, s.cancelled)
  }

  ghost predicate Counting(s: State) {
    && s.streamCounter == InFlight(s) - Pending(s)
    && s.sessionCounter == Sum(s.sessions, Counted)
  }

  /** A connection accepted once is in one place; any other is nowhere. */
  ghost predicate Conserved(s: State, c: Conn) {
    Places(s, c) == if c in s.accepted then 1 else 0
  }

  lemma InvInit(channelSize: nat, muxCon: nat, acceptors: nat, c: Conn)
    ensures Inv(Init(channelSize, muxCon, acceptors)) && Conserved(Init(channelSize, muxCon, acceptors), c)
  {
    SumZero(seq(acceptors, _ => false), Uncounted);
  }

  /** An operation keeps its session well-formed and changes the counters by what it changes in
      the bookkeeping. */
  predicate Kept(t: Session, queue: seq<Conn>, r: Outcome, channelSize: nat, muxCon: nat, cancelled: bool) {
    && SessionOk(r.session, muxCon, cancelled) && |r.localChannel| <= channelSize
    && |r.localChannel| + Load(r.session) == |queue| + Load(t) + r.streams
    && Counted(r.session) == Counted(t) + r.loops
  }

  /** An operation moves connections without losing or copying any. */
  ghost predicate Placed(t: Session, queue: seq<Conn>, r: Outcome, c: Conn) {
    Sum(r.localChannel, Is(c)) + Copies(r.session, c) + In(r.expired, c) + In(r.finished, c)
    == Sum(queue, Is(c)) + Copies(t, c)
  }

  lemma LoopKept(t: Session, queue: seq<Conn>, channelSize: nat, muxCon: nat, cancelled: bool, op: Op)
    requires SessionOk(t, muxCon, cancelled) && |queue| <= channelSize
    ensures Kept(t, queue, LoopOp(t, queue, muxCon, cancelled, op), channelSize, muxCon, cancelled)
  {
  }

  lemma LoopPlaced(t: Session, queue: seq<Conn>, channelSize: nat, muxCon: nat, cancelled: bool, op: Op, c: Conn)
    requires SessionOk(t, muxCon, cancelled)
    ensures Placed(t, queue, LoopOp(t, queue, muxCon, cancelled, op), c)
  {
    if queue != [] { assert Sum(queue, Is(c)) == Is(c)(queue[0]) + Sum(queue[1..], Is(c)); }
  }

  lemma AgeKept(t: Session, queue: seq<Conn>, channelSize: nat, muxCon: nat, cancelled: bool, op: Op)
    requires SessionOk(t, muxCon, cancelled) && |queue| <= channelSize
    ensures Kept(t, queue, AgeOp(t, queue, op), channelSize, muxCon, cancelled)
  {
  }

  lemma AgePlaced(t: Session, queue: seq<Conn>, channelSize: nat, muxCon: nat, cancelled: bool, op: Op, c: Conn)
    requires SessionOk(t, muxCon, cancelled)
    ensures Placed(t, queue, AgeOp(t, queue, op), c)
  {
  }

  lemma StreamKept(t: Session, queue: seq<Conn>, channelSize: nat, muxCon: nat, cancelled: bool, op: Op)
    requires SessionOk(t, muxCon, cancelled) && |queue| <= channelSize
    ensures Kept(t, queue, StreamOp(t, queue, op), channelSize, muxCon, cancelled)
  {
  }

  lemma StreamPlaced(t: Session, queue: seq<Conn>, channelSize: nat, muxCon: nat, cancelled: bool, op: Op, c: Conn)
    requires SessionOk(t, muxCon, cancelled)
    ensures Placed(t, queue, StreamOp(t, queue, op), c)
  {
    if t.incoming.Some? { SumAppend(t.live, t.incoming.value, Is(c)); }
  }

  lemma RequeueKept(t: Session, queue: seq<Conn>, channelSize: nat, muxCon: nat, cancelled: bool, op: Op)
    requires SessionOk(t, muxCon, cancelled) && |queue| <= channelSize
    ensures Kept(t, queue, RequeueOp(t, queue, channelSize, op), channelSize, muxCon, cancelled)
  {
  }

  lemma RequeuePlaced(t: Session, queue: seq<Conn>, channelSize: nat, muxCon: nat, cancelled: bool, op: Op, c: Conn)
    requires SessionOk(t, muxCon, cancelled)
    ensures Placed(t, queue, RequeueOp(t, queue, channelSize, op), c)
  {
    if t.incoming.Some? { SumAppend(queue, t.incoming.value, Is(c)); }
  }

  lemma RelayKept(t: Session, queue: seq<Conn>, channelSize: nat, muxCon: nat, cancelled: bool, op: Op)
    requires SessionOk(t, muxCon, cancelled) && |queue| <= channelSize
    ensures Kept(t, queue, RelayOp(t, queue, op), channelSize, muxCon, cancelled)
  {
  }

  lemma RelayPlaced(t: Session, queue: seq<Conn>, channelSize: nat, muxCon: nat, cancelled: bool, op: Op, c: Conn)
    requires SessionOk(t, muxCon, cancelled)
    ensures Placed(t, queue, RelayOp(t, queue, op), c)
  {
    if op.RelayEnd? && op.k < |t.live| { SumRemove(t.live, op.k, Is(c)); }
  }

  lemma SessionKept(t: Session, queue: seq<Conn>, channelSize: nat, muxCon: nat, cancelled: bool, op: Op, c: Conn)
    requires SessionOk(t, muxCon, cancelled) && |queue| <= channelSize
    ensures var r := SessionOp(t, queue, channelSize, muxCon, cancelled, op);
      Kept(t, queue, r, channelSize, muxCon, cancelled) && Placed(t, queue, r, c)
  {
    LoopKept(t, queue, channelSize, muxCon, cancelled, op);
    LoopPlaced(t, queue, channelSize, muxCon, cancelled, op, c);
    AgeKept(t, queue, channelSize, muxCon, cancelled, op);
    AgePlaced(t, queue, channelSize, muxCon, cancelled, op, c);
    StreamKept(t, queue, channelSize, muxCon, cancelled, op);
    StreamPlaced(t, queue, channelSize, muxCon, cancelled, op, c);
    RequeueKept(t, queue, channelSize, muxCon, cancelled, op);
    RequeuePlaced(t, queue, channelSize, muxCon, cancelled, op, c);
    RelayKept(t, queue, channelSize, muxCon, cancelled, op);
    RelayPlaced(t, queue, channelSize, muxCon, cancelled, op, c);
  }

  lemma ShapedSession(s: State, i: nat, op: Op)
    requires Shaped(s) && i < |s.sessions|
    ensures Shaped(SessionNext(s, i, op))
  {
    SessionKept(s.sessions[i], s.localChannel, s.channelSize, s.muxCon, s.cancelled, op, Conn(0, "", 0));
  }

  lemma CountingSession(s: State, i: nat, op: Op)
    requires Inv(s) && i < |s.sessions|
    ensures Counting(SessionNext(s, i, op))
  {
    var s' := SessionNext(s, i, op);
    var r := SessionOp(s.sessions[i], s.localChannel, s.channelSize, s.muxCon, s.cancelled, op);
    SessionKept(s.sessions[i], s.localChannel, s.channelSize, s.muxCon, s.cancelled, op, Conn(0, "", 0));
    assert InFlight(s') - Pending(s') == InFlight(s) - Pending(s) + r.streams by {
      SumUpdate(s.sessions, i, r.session, Load);
    }
    assert Sum(s'.sessions, Counted) == Sum(s.sessions, Counted) + r.loops by {
      SumUpdate(s.sessions, i, r.session, Counted);
    }
  }

  lemma ConservedSession(s: State, i: nat, op: Op, c: Conn)
    requires Inv(s) && Conserved(s, c) && i < |s.sessions|
    ensures Conserved(SessionNext(s, i, op), c)
  {
    var r := SessionOp(s.sessions[i], s.localChannel, s.channelSize, s.muxCon, s.cancelled, op);
    SessionKept(s.sessions[i], s.localChannel, s.channelSize, s.muxCon, s.cancelled, op, c);
    SumUpdate(s.sessions, i, r.session, CopiesOf(c));
    AppendOption(s.expired, r.expired, c);
    AppendOption(s.finished, r.finished, c);
  }

  lemma ShapedNext(s: State, e: Event)
    requires Shaped(s)
    ensures Shaped(Next(s, e))
  {
    if e.At? && e.session < |s.sessions| { ShapedSession(s, e.session, e.op); }
  }

  lemma CountingNext(s: State, e: Event)
    requires Inv(s)
    ensures Counting(Next(s, e))
  {
    match e
    case Enqueue(a, _) =>
      if Next(s, e) != s { SumUpdate(s.acceptors, a, true, Uncounted); }
    case CountStream(a) =>
      if Next(s, e) != s {
        SumUpdate(s.acceptors, a, false, Uncounted);
      }
    case StartSession =>
      SumAppend(s.sessions, NEW_SESSION, Load);
      SumAppend(s.sessions, NEW_SESSION, Counted);
    case Cancel =>
    case At(i, op) => if i < |s.sessions| { CountingSession(s, i, op); }
  }

  lemma ConservedNext(s: State, e: Event, c: Conn)
    requires Inv(s) && Conserved(s, c)
    ensures Conserved(Next(s, e), c)
  {
    match e
    case Enqueue(a, d) => SumAppend(s.localChannel, d, Is(c));
    case CountStream(_) =>
    case StartSession => SumAppend(s.sessions, NEW_SESSION, CopiesOf(c));
    case Cancel =>
    case At(i, op) => if i < |s.sessions| { ConservedSession(s, i, op, c); }
  }

  lemma InvNext(s: State, e: Event, c: Conn)
    requires Inv(s) && Conserved(s, c)
    ensures Inv(Next(s, e)) && Conserved(Next(s, e), c)
  {
    ShapedNext(s, e);
    CountingNext(s, e);
    ConservedNext(s, e, c);
  }

  lemma {:induction false} InvExec(s: State, es: seq<Event>, c: Conn)
    requires Inv(s) && Conserved(s, c)
    ensures Inv(Exec(s, es)) && Conserved(Exec(s, es), c)
    decreases |es|
  {
    if es == [] {
    } else {
      InvNext(s, es[0], c);
      InvExec(Next(s, es[0]), es[1..], c);
    }
  }

  lemma {:induction false} ConfigFixed(s: State, es: seq<Event>)
    ensures Exec(s, es).channelSize == s.channelSize && Exec(s, es).muxCon == s.muxCon
    ensures |Exec(s, es).acceptors| == |s.acceptors|
    decreases |es|
  {
    if es == [] {
    } else {
      ConfigFixed(Next(s, es[0]), es[1..]);
    }
  }

  ghost function Reached(channelSize: nat, muxCon: nat, acceptors: nat, es: seq<Event>): State {
    Exec(Init(channelSize, muxCon, acceptors), es)
  }

  lemma InvReached(channelSize: nat, muxCon: nat, acceptors: nat, es: seq<Event>, c: Conn)
    ensures var s := Reached(channelSize, muxCon, acceptors, es);
      Inv(s) && Conserved(s, c) && s.channelSize == channelSize && s.muxCon == muxCon && |s.acceptors| == acceptors
  {
    InvInit(channelSize, muxCon, acceptors, c);
    InvExec(Init(channelSize, muxCon, acceptors), es, c);
    ConfigFixed(Init(channelSize, muxCon, acceptors), es);
  }

  // ---- Main results, over every interleaving ----

  /** Every accepted connection is in exactly one place: queued, owned once by one session
      (in the loop's hands or relayed on one stream), expired, or finished. */
  lemma ExactlyOnePlace(channelSize: nat, muxCon: nat, acceptors: nat, es: seq<Event>, c: Conn)
    ensures var s := Reached(channelSize, muxCon, acceptors, es);
      && Sum(s.localChannel, Is(c)) + Sum(s.sessions, CopiesOf(c)) + Sum(s.expired, Is(c)) + Sum(s.finished, Is(c))
         == (if c in s.accepted then 1 else 0)
      && (forall i :: 0 <= i < |s.sessions| ==> Copies(s.sessions[i], c) <= 1)
      && (forall i, j :: 0 <= i < j < |s.sessions| ==> Copies(s.sessions[i], c) == 0 || Copies(s.sessions[j], c) == 0)
  {
    var s := Reached(channelSize, muxCon, acceptors, es);
    InvReached(channelSize, muxCon, acceptors, es, c);
    forall i | 0 <= i < |s.sessions|
      ensures Copies(s.sessions[i], c) <= 1
    {
      SumMember(s.sessions, i, CopiesOf(c));
    }
    forall i, j | 0 <= i < j < |s.sessions|
      ensures Copies(s.sessions[i], c) == 0 || Copies(s.sessions[j], c) == 0
    {
      SumPair(s.sessions, i, j, CopiesOf(c));
    }
  }

  /** streamCounter trails the connections in flight by exactly the increments still to come,
      and sessionCounter is the number of running loops as long as nothing was cancelled. */
  lemma CountersExact(channelSize: nat, muxCon: nat, acceptors: nat, es: seq<Event>)
    ensures var s := Reached(channelSize, muxCon, acceptors, es);
      && s.streamCounter == InFlight(s) - Pending(s)
      && 0 <= Pending(s) <= acceptors && s.streamCounter >= -(acceptors as int)
      && (!s.cancelled ==> s.sessionCounter == Sum(s.sessions, Running))
  {
    var s := Reached(channelSize, muxCon, acceptors, es);
    InvReached(channelSize, muxCon, acceptors, es, Conn(0, "", 0));
    SumBound(s.acceptors, Uncounted);
    if !s.cancelled {
      SumSame(s.sessions, Counted, Running);
    }
  }

  /** The semaphore: what each token stands for, the bound on concurrent streams that shrinks
      with every failed send, and no release that could block. */
  lemma SlotBound(channelSize: nat, muxCon: nat, acceptors: nat, es: seq<Event>, i: nat)
    requires i < |Reached(channelSize, muxCon, acceptors, es).sessions|
    ensures var t := Reached(channelSize, muxCon, acceptors, es).sessions[i];
      && t.tokens == |t.live| + t.draining + t.failedSends + (if HoldsSlot(t.phase) then 1 else 0)
      && t.tokens <= muxCon && |t.live| <= muxCon - t.failedSends
      && (t.phase.Releasing? || t.draining > 0 ==> t.tokens > 0)
  {
    InvReached(channelSize, muxCon, acceptors, es, Conn(0, "", 0));
  }

  /** A connection that is being opened or sent was at most three seconds old when checked, and
      only older ones are closed unrelayed. */
  lemma AgeRespected(channelSize: nat, muxCon: nat, acceptors: nat, es: seq<Event>, i: nat)
    requires i < |Reached(channelSize, muxCon, acceptors, es).sessions|
    ensures var t := Reached(channelSize, muxCon, acceptors, es).sessions[i];
      && (t.phase.Opening? || t.phase.Sending? ==> t.incoming.Some? && t.seen <= t.incoming.value.timeCreated + 3000)
      && (t.phase.Expiring? ==> t.incoming.Some? && t.seen > t.incoming.value.timeCreated + 3000)
  {
    InvReached(channelSize, muxCon, acceptors, es, Conn(0, "", 0));
  }

  /** All slots gone to failed sends, none held by the loop or by a relay. */
  predicate Exhausted(t: Session, muxCon: nat) {
    && t.failedSends == t.tokens == muxCon > 0 && t.live == [] && t.draining == 0
    && (t.phase.Acquiring? || t.phase.Returning?)
  }

  lemma ExhaustedStep(t: Session, queue: seq<Conn>, channelSize: nat, muxCon: nat, cancelled: bool, op: Op)
    requires Exhausted(t, muxCon)
    ensures Exhausted(SessionOp(t, queue, channelSize, muxCon, cancelled, op).session, muxCon)
  {
  }

  lemma {:induction false} ExhaustedExec(s: State, es: seq<Event>, i: nat)
    requires i < |s.sessions| && Exhausted(s.sessions[i], s.muxCon)
    ensures i < |Exec(s, es).sessions| && Exhausted(Exec(s, es).sessions[i], s.muxCon)
    decreases |es|
  {
    if es == [] {
    } else {
      match es[0] {
        case At(j, op) => ExhaustedStep(s.sessions[i], s.localChannel, s.channelSize, s.muxCon, s.cancelled, op);
        case _ =>
      }
      ExhaustedExec(Next(s, es[0]), es[1..], i);
    }
  }

  /** A slot lost to a failed send is never given back: after muxCon failed sends the session
      relays nothing, and never will again, whatever any goroutine does afterwards. */
  lemma ExhaustedForever(channelSize: nat, muxCon: nat, acceptors: nat, es: seq<Event>, later: seq<Event>, i: nat)
    requires var s := Reached(channelSize, muxCon, acceptors, es);
      i < |s.sessions| && s.sessions[i].failedSends == muxCon > 0
    ensures var s' := Exec(Reached(channelSize, muxCon, acceptors, es), later);
      i < |s'.sessions| && Exhausted(s'.sessions[i], muxCon)
  {
    var s := Reached(channelSize, muxCon, acceptors, es);
    InvReached(channelSize, muxCon, acceptors, es, Conn(0, "", 0));
    assert |s.sessions[i].live| == 0;
    ExhaustedExec(s, later, i);
  }

  lemma ExecCons(s: State, e: Event, es: seq<Event>)
    ensures Exec(s, [e] + es) == Exec(Next(s, e), es)
  {
    assert ([e] + es)[1..] == es;
  }

  function ThreeOps(s: State, a: Op, b: Op, c: Op): State { Next(Next(Next(s, At(0, a)), At(0, b)), At(0, c)) }

  lemma ExecThree(s: State, a: Op, b: Op, c: Op, es: seq<Event>)
    ensures Exec(s, [At(0, a), At(0, b), At(0, c)] + es) == Exec(ThreeOps(s, a, b, c), es)
  {
    var s1 := Next(s, At(0, a));
    assert [At(0, a), At(0, b), At(0, c)] + es == [At(0, a)] + ([At(0, b)] + ([At(0, c)] + es));
    ExecCons(s, At(0, a), [At(0, b)] + ([At(0, c)] + es));
    ExecCons(s1, At(0, b), [At(0, c)] + es);
    ExecCons(Next(s1, At(0, b)), At(0, c), es);
  }

  /** One session tries one connection; its stream opens but the address cannot be sent. */
  function FailedRound(now: int): seq<Event> {
    [At(0, Acquire), At(0, Take), At(0, Judge(now))]
    + [At(0, OpenStream(true)), At(0, SendAddress(false)), At(0, PushBack)]
  }

  function Rounds(now: int, n: nat): seq<Event> { if n == 0 then [] else FailedRound(now) + Rounds(now, n - 1) }

  /** Alone with a connection, the first session, that many failed sends on. */
  predicate Alone(s: State, c: Conn, failures: nat) {
    && s.localChannel == [c] && s.channelSize > 0 && |s.sessions| == 1
    && s.sessions[0] == Session(Acquiring, None, s.sessions[0].seen, [], 0, failures, failures)
  }

  predicate Trying(s: State, c: Conn, failures: nat) {
    && s.localChannel == [] && s.channelSize > 0 && |s.sessions| == 1
    && s.sessions[0] == Session(Opening, Some(c), s.sessions[0].seen, [], 0, failures, failures + 1)
  }

  lemma RoundTakes(s: State, c: Conn, failures: nat)
    requires Alone(s, c, failures) && failures < s.muxCon
    ensures var s' := ThreeOps(s, Acquire, Take, Judge(c.timeCreated)); Trying(s', c, failures) && s'.muxCon == s.muxCon
  {
  }

  lemma RoundReturns(s: State, c: Conn, failures: nat)
    requires Trying(s, c, failures)
    ensures var s' := ThreeOps(s, OpenStream(true), SendAddress(false), PushBack);
      Alone(s', c, failures + 1) && s'.muxCon == s.muxCon
  {
  }

  lemma RoundFails(s: State, c: Conn, failures: nat, more: seq<Event>) returns (s': State)
    requires Alone(s, c, failures) && failures < s.muxCon
    ensures Alone(s', c, failures + 1) && s'.muxCon == s.muxCon
    ensures Exec(s, FailedRound(c.timeCreated) + more) == Exec(s', more)
  {
    var mid := ThreeOps(s, Acquire, Take, Judge(c.timeCreated));
    s' := ThreeOps(mid, OpenStream(true), SendAddress(false), PushBack);
    RoundTakes(s, c, failures);
    RoundReturns(mid, c, failures);
    var rest := [At(0, OpenStream(true)), At(0, SendAddress(false)), At(0, PushBack)] + more;
    ExecThree(s, Acquire, Take, Judge(c.timeCreated), rest);
    ExecThree(mid, OpenStream(true), SendAddress(false), PushBack, more);
    assert FailedRound(c.timeCreated) + more == [At(0, Acquire), At(0, Take), At(0, Judge(c.timeCreated))] + rest;
  }

  lemma {:induction false} RoundsExhaust(s: State, c: Conn, failures: nat)
    requires Alone(s, c, failures) && failures <= s.muxCon
    ensures Alone(Exec(s, Rounds(c.timeCreated, s.muxCon - failures)), c, s.muxCon)
    decreases s.muxCon - failures
  {
    if failures == s.muxCon {
    } else {
      var s' := RoundFails(s, c, failures, Rounds(c.timeCreated, s.muxCon - failures - 1));
      RoundsExhaust(s', c, failures + 1);
    }
  }

  /** It comes to that for every muxCon: a single connection whose address cannot be sent uses
      up all slots of a session, and is then left in the queue. */
  lemma ExhaustionReachable(channelSize: nat, muxCon: nat, acceptors: nat, c: Conn) returns (es: seq<Event>)
    requires channelSize > 0 && muxCon > 0 && acceptors > 0
    ensures var s := Reached(channelSize, muxCon, acceptors, es);
      |s.sessions| == 1 && Exhausted(s.sessions[0], muxCon) && s.localChannel == [c]
  {
    var rounds := Rounds(c.timeCreated, muxCon);
    es := [Enqueue(0, c)] + ([StartSession] + ([At(0, CountSession)] + rounds));
    var s0 := Init(channelSize, muxCon, acceptors);
    var s1 := Next(s0, Enqueue(0, c));
    var s2 := Next(s1, StartSession);
    var s3 := Next(s2, At(0, CountSession));
    ExecCons(s0, Enqueue(0, c), [StartSession] + ([At(0, CountSession)] + rounds));
    ExecCons(s1, StartSession, [At(0, CountSession)] + rounds);
    ExecCons(s2, At(0, CountSession), rounds);
    RoundsExhaust(s3, c, 0);
    ConfigFixed(s0, es);
  }

  // ---- What can still happen ----

  /** The clock reading of an event, if it makes one: when a connection is accepted and when its
      age is checked. */
  function Reading(e: Event): Option<int> {
    if e.Enqueue? then Some(e.conn.timeCreated)
    else if e.At? && e.op.Judge? then Some(e.op.now)
    else None
  }

  /** Readings start at t and do not go back. */
  predicate Timely(es: seq<Event>, t: int)
    decreases |es|
  {
    es == [] ||
    match Reading(es[0])
    case None => Timely(es[1..], t)
    case Some(now) => now >= t && Timely(es[1..], now)
  }

  /** Every reading is t. */
  predicate AllAt(es: seq<Event>, t: int) { forall e :: e in es ==> Reading(e) == None || Reading(e) == Some(t) }

  lemma {:induction false} AllAtTimely(es: seq<Event>, t: int)
    requires AllAt(es, t)
    ensures Timely(es, t)
    decreases |es|
  {
    if es == [] {
    } else {
      assert es[0] in es && forall e :: e in es[1..] ==> e in es;
      AllAtTimely(es[1..], t);
    }
  }

  predicate Exiting(p: Phase) { p.Failing? || p.Surrendering? || p.Failed? || p.Stopped? }

  lemma {:induction false} ExecAppend(s: State, es: seq<Event>, more: seq<Event>)
    ensures Exec(s, es + more) == Exec(Exec(s, es), more)
    decreases |es|
  {
    if es == [] {
      assert es + more == more;
    } else {
      assert (es + more)[0] == es[0] && (es + more)[1..] == es[1..] + more;
      ExecAppend(Next(s, es[0]), es[1..], more);
    }
  }

  lemma FailuresNext(s: State, e: Event, i: nat)
    requires i < |s.sessions|
    ensures i < |Next(s, e).sessions| && Next(s, e).sessions[i].failedSends >= s.sessions[i].failedSends
  {
  }

  lemma {:induction false} FailuresStay(s: State, es: seq<Event>, i: nat)
    requires i < |s.sessions|
    ensures i < |Exec(s, es).sessions| && Exec(s, es).sessions[i].failedSends >= s.sessions[i].failedSends
    decreases |es|
  {
    if es == [] {
      assert Exec(s, es) == s;
    } else {
      FailuresNext(s, es[0], i);
      FailuresStay(Next(s, es[0]), es[1..], i);
    }
  }

  /** The identities of a set of connections are bounded, so there is always another one. */
  lemma IdBound(cs: set<Conn>) returns (bound: nat)
    ensures forall c :: c in cs ==> c.id < bound
    decreases |cs|
  {
    if d :| d in cs {
      var below := IdBound(cs - {d});
      bound := below + d.id + 1;
    } else {
      bound := 0;
    }
  }

  /** Some acceptor brings a connection if none is queued. */
  lemma Stock(s: State, now: int) returns (es: seq<Event>)
    requires Shaped(s) && s.channelSize > 0 && s.acceptors != []
    ensures AllAt(es, now) && forall e :: e in es ==> !e.StartSession?
    ensures var s' := Exec(s, es);
      && Shaped(s') && s'.localChannel != [] && s'.sessions == s.sessions && s'.acceptors != []
      && s'.channelSize == s.channelSize && s'.muxCon == s.muxCon
      && (if s.localChannel == [] then s'.localChannel[0].timeCreated == now else s' == s)
  {
    if s.localChannel != [] {
      es := [];
    } else {
      var id := IdBound(s.accepted);
      var c := Conn(id, "", now);
      var counted := Next(s, CountStream(0));
      es := [CountStream(0)] + [Enqueue(0, c)];
      ExecCons(s, CountStream(0), [Enqueue(0, c)]);
      assert [Enqueue(0, c)][1..] == [];
      assert Exec(counted, [Enqueue(0, c)]) == Next(counted, Enqueue(0, c));
    }
  }

  /** A further session takes a connection if the queue is full. */
  lemma Room(s: State, now: int) returns (es: seq<Event>)
    requires Shaped(s) && s.muxCon > 0 && s.channelSize > 0
    ensures AllAt(es, now)
    ensures var s' := Exec(s, es);
      && Shaped(s') && |s'.localChannel| < s.channelSize && s.sessions <= s'.sessions && s'.acceptors == s.acceptors
      && s'.channelSize == s.channelSize && s'.muxCon == s.muxCon
  {
    if |s.localChannel| < s.channelSize {
      es := [];
    } else {
      var j := |s.sessions|;
      var s1 := Next(s, StartSession);
      var s2 := Next(s1, At(j, CountSession));
      var s3 := Next(s2, At(j, Acquire));
      var s4 := Next(s3, At(j, Take));
      es := [StartSession] + ([At(j, CountSession)] + ([At(j, Acquire)] + ([At(j, Take)] + [])));
      ExecCons(s, StartSession, [At(j, CountSession)] + ([At(j, Acquire)] + ([At(j, Take)] + [])));
      ExecCons(s1, At(j, CountSession), [At(j, Acquire)] + ([At(j, Take)] + []));
      ExecCons(s2, At(j, Acquire), [At(j, Take)] + []);
      ExecCons(s3, At(j, Take), []);
      ShapedNext(s, StartSession);
      ShapedNext(s1, At(j, CountSession));
      ShapedNext(s2, At(j, Acquire));
      ShapedNext(s3, At(j, Take));
    }
  }

  predicate Young(t: Session, now: int) { t.incoming.Some? && now - t.incoming.value.timeCreated <= 3000 }

  /** How far a loop is from relaying: once it has a connection that is young enough; while it may
      still have to get rid of older ones; and while it has to push one back first. */
  function Leg(t: Session, now: int): nat {
    match t.phase
    case Sending => 1
    case Opening => 2
    case Judging => if Young(t, now) then 3 else 4
    case Returning => 5
    case _ => 4
  }

  /** How many operations it is from taking a connection, releases of ended relays aside. */
  function Rank(p: Phase): nat {
    match p
    case Judging => 9
    case Opening => 8
    case Expiring => 7
    case Sending => 7
    case Releasing => 6
    case Starting => 6
    case Returning => 6
    case Acquiring => 5
    case _ => 4
  }

  /** The next operation of a session on its way. */
  function Awaited(t: Session, muxCon: nat, now: int): Op {
    match t.phase
    case Starting => CountSession
    case Acquiring => if t.tokens < muxCon then Acquire else if t.draining > 0 then RelayRelease else RelayEnd(0)
    case Selecting => Take
    case Judging => Judge(now)
    case Expiring => CountExpired
    case Releasing => Release
    case Opening => OpenStream(true)
    case Sending => SendAddress(true)
    case _ => PushBack
  }

  predicate CanRelay(t: Session, muxCon: nat) { !Exiting(t.phase) && t.failedSends < muxCon }

  lemma AwaitedNearer(t: Session, queue: seq<Conn>, channelSize: nat, muxCon: nat, cancelled: bool, now: int)
    requires SessionOk(t, muxCon, cancelled) && CanRelay(t, muxCon) && t.live == [] && |queue| <= channelSize
    requires (t.phase.Selecting? ==> queue != []) && (t.phase.Returning? ==> |queue| < channelSize)
    ensures var r := SessionOp(t, queue, channelSize, muxCon, cancelled, Awaited(t, muxCon, now)); var t' := r.session;
      && CanRelay(t', muxCon)
      && (t'.live != [] || Leg(t', now) < Leg(t, now)
          || (Leg(t', now) == Leg(t, now) == 4
              && (if t.phase.Selecting? then r.localChannel == queue[1..]
                  else r.localChannel == queue
                       && (Rank(t'.phase) < Rank(t.phase) || (t'.phase == t.phase && t'.draining < t.draining)))))
      && (t.phase.Selecting? && now - queue[0].timeCreated <= 3000 ==> Leg(t', now) == 3)
  {
  }

  /** The continuation, whose clock readings begin at t, has the session relay. */
  predicate RelaysAfter(s: State, later: seq<Event>, i: nat, t: int) {
    var s' := Exec(s, later);
    Timely(later, t) && i < |s'.sessions| && s'.sessions[i].live != []
  }

  /** The session is nearer to relaying, and the rest as good as before. */
  predicate Nearer(s: State, s': State, i: nat, now: int) {
    && Shaped(s') && s'.channelSize == s.channelSize && s'.acceptors != [] && s'.muxCon == s.muxCon
    && i < |s.sessions| && i < |s'.sessions| && CanRelay(s'.sessions[i], s.muxCon)
    && var t, t' := s.sessions[i], s'.sessions[i];
      (t'.live != [] || Leg(t', now) < Leg(t, now)
       || (Leg(t', now) == Leg(t, now)
           && (|s'.localChannel| < |s.localChannel|
               || (|s'.localChannel| == |s.localChannel|
                   && (Rank(t'.phase) < Rank(t.phase) || (t'.phase == t.phase && t'.draining < t.draining))))))
  }

  predicate Stalled(s: State, i: nat) {
    && Shaped(s) && s.channelSize > 0 && s.acceptors != []
    && i < |s.sessions| && CanRelay(s.sessions[i], s.muxCon) && s.sessions[i].live == []
  }

  lemma RelayMove(s: State, i: nat, now: int)
    requires Stalled(s, i)
    requires (s.sessions[i].phase.Selecting? ==> s.localChannel != [])
    requires (s.sessions[i].phase.Returning? ==> |s.localChannel| < s.channelSize)
    ensures var t := s.sessions[i]; var s' := Next(s, At(i, Awaited(t, s.muxCon, now)));
      && Nearer(s, s', i, now)
      && (t.phase.Selecting? && now - s.localChannel[0].timeCreated <= 3000 ==> Leg(s'.sessions[i], now) == 3)
  {
    var t := s.sessions[i];
    AwaitedNearer(t, s.localChannel, s.channelSize, s.muxCon, s.cancelled, now);
    ShapedNext(s, At(i, Awaited(t, s.muxCon, now)));
  }

  /** What makes the session's next operation possible, and that operation. */
  lemma RelayStep(s: State, i: nat, now: int) returns (es: seq<Event>)
    requires Stalled(s, i)
    ensures AllAt(es, now) && Nearer(s, Exec(s, es), i, now)
  {
    var before := [];
    if s.sessions[i].phase.Selecting? {
      before := Stock(s, now);
    } else if s.sessions[i].phase.Returning? {
      before := Room(s, now);
    }
    var s1 := Exec(s, before);
    assert s1.sessions[i] == s.sessions[i];
    RelayMove(s1, i, now);
    var e := At(i, Awaited(s1.sessions[i], s1.muxCon, now));
    es := before + [e];
    ExecAppend(s, before, [e]);
    assert [e][1..] == [] && Exec(s1, [e]) == Next(s1, e);
  }

  lemma {:induction false} RelayLater(s: State, i: nat, now: int) returns (later: seq<Event>)
    requires Shaped(s) && s.channelSize > 0 && s.acceptors != []
    requires i < |s.sessions| && CanRelay(s.sessions[i], s.muxCon)
    ensures AllAt(later, now) && i < |Exec(s, later).sessions| && Exec(s, later).sessions[i].live != []
    decreases s.sessions[i].live == [], Leg(s.sessions[i], now), |s.localChannel|, Rank(s.sessions[i].phase),
              s.sessions[i].draining
  {
    if s.sessions[i].live != [] {
      later := [];
    } else {
      var step := RelayStep(s, i, now);
      var rest := RelayLater(Exec(s, step), i, now);
      later := step + rest;
      ExecAppend(s, step, rest);
    }
  }

  /** From every reachable state before a cancellation, whatever time it is: a session that is not
      on its way out relays again in some continuation with clock readings from then on if and only
      if fewer than muxCon of its sends have failed. */
  lemma RelaysUnlessExhausted(channelSize: nat, muxCon: nat, acceptors: nat, es: seq<Event>, i: nat, now: int)
    requires channelSize > 0 && acceptors > 0
    requires var s := Reached(channelSize, muxCon, acceptors, es);
      !s.cancelled && i < |s.sessions| && !Exiting(s.sessions[i].phase)
    ensures var s := Reached(channelSize, muxCon, acceptors, es);
      (exists later :: RelaysAfter(s, later, i, now)) <==> s.sessions[i].failedSends < muxCon
  {
    var s := Reached(channelSize, muxCon, acceptors, es);
    InvReached(channelSize, muxCon, acceptors, es, Conn(0, "", 0));
    if s.sessions[i].failedSends < muxCon {
      var later := RelayLater(s, i, now);
      AllAtTimely(later, now);
      assert RelaysAfter(s, later, i, now);
    } else {
      forall later
        ensures !RelaysAfter(s, later, i, now)
      {
        FailuresStay(s, later, i);
        ExecAppend(Init(channelSize, muxCon, acceptors), es, later);
        SlotBound(channelSize, muxCon, acceptors, es + later, i);
      }
    }
  }

  // ---- Exhausted sessions and the request for new ones ----

  function Spent(muxCon: nat): Session -> nat { (t: Session) => if t.failedSends >= muxCon then 1 else 0 }

  /** The condition under which an acceptor asks the client for a further session. */
  predicate Requests(s: State) { s.streamCounter >= s.sessionCounter * s.muxCon }

  /** Exhausted sessions still count as sessions: as long as k of them stand, no acceptor asks for
      another one before k times muxCon connections are in flight. */
  lemma RequestsSuppressed(channelSize: nat, muxCon: nat, acceptors: nat, es: seq<Event>)
    requires muxCon > 0 && !Reached(channelSize, muxCon, acceptors, es).cancelled
    ensures var s := Reached(channelSize, muxCon, acceptors, es);
      Requests(s) ==> InFlight(s) >= Sum(s.sessions, Spent(muxCon)) * muxCon
  {
    var s := Reached(channelSize, muxCon, acceptors, es);
    InvReached(channelSize, muxCon, acceptors, es, Conn(0, "", 0));
    CountersExact(channelSize, muxCon, acceptors, es);
    forall j | 0 <= j < |s.sessions|
      ensures Spent(muxCon)(s.sessions[j]) <= Running(s.sessions[j])
    {
      assert SessionOk(s.sessions[j], s.muxCon, s.cancelled);
    }
    SumLess(s.sessions, Spent(muxCon), Running);
    Scaled(Sum(s.sessions, Spent(muxCon)), Sum(s.sessions, Running), muxCon);
  }

  lemma Scaled(a: nat, b: nat, k: nat)
    requires a <= b
    ensures a * k <= b * k
  {
  }

  // ---- When no session takes connections any more ----

  /** The session will not come back to its select. */
  predicate Dead(t: Session, muxCon: nat) { Exiting(t.phase) || t.failedSends >= muxCon }

  /** Nor will any other: each is dead, or is at its send back into localChannel while that is full. */
  predicate Jammed(s: State) {
    forall i :: 0 <= i < |s.sessions| ==>
      Dead(s.sessions[i], s.muxCon) || (s.sessions[i].phase.Returning? && |s.localChannel| == s.channelSize)
  }

  /** Some session is at its select and finds a connection. */
  predicate Takes(s: State) {
    s.localChannel != [] && exists i :: 0 <= i < |s.sessions| && s.sessions[i].phase.Selecting?
  }

  predicate NoneStarts(es: seq<Event>) { forall e :: e in es ==> !e.StartSession? }

  predicate TakesAfter(s: State, later: seq<Event>, t: int) {
    Timely(later, t) && NoneStarts(later) && Takes(Exec(s, later))
  }

  lemma JammedOp(t: Session, queue: seq<Conn>, channelSize: nat, muxCon: nat, cancelled: bool, op: Op)
    requires SessionOk(t, muxCon, cancelled) && |queue| <= channelSize
    requires Dead(t, muxCon) || (t.phase.Returning? && |queue| == channelSize)
    ensures var r := SessionOp(t, queue, channelSize, muxCon, cancelled, op);
      && (Dead(t, muxCon) ==> Dead(r.session, muxCon))
      && (|queue| == channelSize ==> r.localChannel == queue && (t.phase.Returning? ==> r.session.phase.Returning?))
  {
  }

  lemma JammedNext(s: State, e: Event)
    requires Shaped(s) && Jammed(s) && !e.StartSession?
    ensures Jammed(Next(s, e)) && (|s.localChannel| == s.channelSize ==> Next(s, e).localChannel == s.localChannel)
  {
    if e.At? && e.session < |s.sessions| {
      JammedOp(s.sessions[e.session], s.localChannel, s.channelSize, s.muxCon, s.cancelled, e.op);
    }
  }

  /** Without a new session nothing is taken in any continuation, and a full localChannel keeps its
      connections. */
  lemma {:induction false} JammedForever(s: State, es: seq<Event>)
    requires Shaped(s) && Jammed(s) && NoneStarts(es)
    ensures Jammed(Exec(s, es)) && !Takes(Exec(s, es))
    ensures |s.localChannel| == s.channelSize ==> Exec(s, es).localChannel == s.localChannel
    decreases |es|
  {
    if es == [] {
      forall i | 0 <= i < |s.sessions|
        ensures !s.sessions[i].phase.Selecting?
      {
        assert SessionOk(s.sessions[i], s.muxCon, s.cancelled);
      }
    } else {
      assert es[0] in es && forall e :: e in es[1..] ==> e in es;
      JammedNext(s, es[0]);
      ShapedNext(s, es[0]);
      assert Next(s, es[0]).channelSize == s.channelSize;
      JammedForever(Next(s, es[0]), es[1..]);
    }
  }

  lemma AwaitedFrees(t: Session, queue: seq<Conn>, channelSize: nat, muxCon: nat, cancelled: bool, now: int)
    requires SessionOk(t, muxCon, cancelled) && !Dead(t, muxCon) && !t.phase.Selecting? && |queue| <= channelSize
    requires t.phase.Returning? ==> |queue| < channelSize
    ensures var t' := SessionOp(t, queue, channelSize, muxCon, cancelled, Awaited(t, muxCon, now)).session;
      && !Dead(t', muxCon) && !t'.phase.Returning?
      && (Rank(t'.phase) < Rank(t.phase)
          || (t'.phase == t.phase && (|t'.live| < |t.live| || (t'.live == t.live && t'.draining < t.draining))))
  {
  }

  lemma {:induction false} TakeLater(s: State, i: nat, now: int) returns (later: seq<Event>)
    requires Shaped(s) && s.channelSize > 0 && s.acceptors != [] && i < |s.sessions|
    requires !Dead(s.sessions[i], s.muxCon) && (s.sessions[i].phase.Returning? ==> |s.localChannel| < s.channelSize)
    ensures AllAt(later, now) && NoneStarts(later) && Takes(Exec(s, later))
    decreases Rank(s.sessions[i].phase), |s.sessions[i].live|, s.sessions[i].draining
  {
    var t := s.sessions[i];
    if t.phase.Selecting? {
      later := Stock(s, now);
    } else {
      AwaitedFrees(t, s.localChannel, s.channelSize, s.muxCon, s.cancelled, now);
      var e := At(i, Awaited(t, s.muxCon, now));
      ShapedNext(s, e);
      var rest := TakeLater(Next(s, e), i, now);
      later := [e] + rest;
      ExecCons(s, e, rest);
    }
  }

  /** From every reachable state before a cancellation, whatever time it is: some continuation takes
      a connection without a new session if and only if the sessions are not jammed. */
  lemma TakesUnlessJammed(channelSize: nat, muxCon: nat, acceptors: nat, es: seq<Event>, now: int)
    requires channelSize > 0 && acceptors > 0 && !Reached(channelSize, muxCon, acceptors, es).cancelled
    ensures var s := Reached(channelSize, muxCon, acceptors, es);
      (exists later :: TakesAfter(s, later, now)) <==> !Jammed(s)
  {
    var s := Reached(channelSize, muxCon, acceptors, es);
    InvReached(channelSize, muxCon, acceptors, es, Conn(0, "", 0));
    if Jammed(s) {
      forall later
        ensures !TakesAfter(s, later, now)
      {
        if NoneStarts(later) { JammedForever(s, later); }
      }
    } else {
      var i :| 0 <= i < |s.sessions| && !Dead(s.sessions[i], s.muxCon)
        && !(s.sessions[i].phase.Returning? && |s.localChannel| == s.channelSize);
      var later := TakeLater(s, i, now);
      AllAtTimely(later, now);
      assert TakesAfter(s, later, now);
    }
  }

  /** Acceptors fill localChannel with connections of larger identity. */
  lemma {:induction false} Refill(s: State, id: nat) returns (es: seq<Event>)
    requires forall c :: c in s.accepted ==> c.id < id
    requires |s.localChannel| <= s.channelSize && |s.acceptors| == 1 && !s.acceptors[0]
    ensures var s' := Exec(s, es);
      && |s'.localChannel| == s.channelSize == s'.channelSize && s'.sessions == s.sessions
      && s'.muxCon == s.muxCon && s'.cancelled == s.cancelled
    decreases s.channelSize - |s.localChannel|
  {
    if |s.localChannel| == s.channelSize {
      es := [];
    } else {
      var c := Conn(id, "", 0);
      var s1 := Next(s, Enqueue(0, c));
      var s2 := Next(s1, CountStream(0));
      var rest := Refill(s2, id + 1);
      es := [Enqueue(0, c)] + ([CountStream(0)] + rest);
      ExecCons(s, Enqueue(0, c), [CountStream(0)] + rest);
      ExecCons(s1, CountStream(0), rest);
    }
  }

  /** One session that has a connection in hand, and none waiting. */
  lemma TriesOne(channelSize: nat, muxCon: nat, c: Conn) returns (es: seq<Event>)
    requires channelSize > 0 && muxCon > 0
    ensures var s := Reached(channelSize, muxCon, 1, es);
      && Trying(s, c, 0) && s.muxCon == muxCon && s.channelSize == channelSize
      && s.acceptors == [false] && s.accepted == {c} && !s.cancelled
  {
    var s0 := Init(channelSize, muxCon, 1);
    var s1 := Next(s0, Enqueue(0, c));
    var s2 := Next(s1, CountStream(0));
    var s3 := Next(s2, StartSession);
    var s4 := Next(s3, At(0, CountSession));
    var take := [At(0, Acquire), At(0, Take), At(0, Judge(c.timeCreated))] + [];
    es := [Enqueue(0, c)] + ([CountStream(0)] + ([StartSession] + ([At(0, CountSession)] + take)));
    ExecCons(s0, Enqueue(0, c), [CountStream(0)] + ([StartSession] + ([At(0, CountSession)] + take)));
    ExecCons(s1, CountStream(0), [StartSession] + ([At(0, CountSession)] + take));
    ExecCons(s2, StartSession, [At(0, CountSession)] + take);
    ExecCons(s3, At(0, CountSession), take);
    ExecThree(s4, Acquire, Take, Judge(c.timeCreated), []);
    RoundTakes(s4, c, 0);
    assert ThreeOps(s4, Acquire, Take, Judge(c.timeCreated)).acceptors == [false];
  }

  /** It comes to that: one session takes a connection, acceptors fill localChannel, and the address
      cannot be sent. */
  lemma JammedReachable(channelSize: nat, muxCon: nat) returns (es: seq<Event>)
    requires channelSize > 0 && muxCon > 0
    ensures var s := Reached(channelSize, muxCon, 1, es);
      Jammed(s) && |s.localChannel| == channelSize && |s.sessions| == 1 && !s.cancelled
  {
    var c := Conn(0, "", 0);
    var try := TriesOne(channelSize, muxCon, c);
    var s0 := Init(channelSize, muxCon, 1);
    var s1 := Exec(s0, try);
    var fill := Refill(s1, 1);
    var s2 := Exec(s1, fill);
    var s3 := Next(s2, At(0, OpenStream(true)));
    var fail := [At(0, OpenStream(true))] + ([At(0, SendAddress(false))] + []);
    es := try + (fill + fail);
    ExecAppend(s0, try, fill + fail);
    ExecAppend(s1, fill, fail);
    ExecCons(s2, At(0, OpenStream(true)), [At(0, SendAddress(false))] + []);
    ExecCons(s3, At(0, SendAddress(false)), []);
  }

  // ---- The transport object ----

  /** The fields of TcpMuxTransport and WsMuxTransport that the goroutines share, together with
      the goroutines' own program points; Fire performs one operation in place. */
  class MuxTransport {
    const channelSize: nat
    const muxCon: nat
    var localChannel: seq<Conn>
    var streamCounter: int
    var sessionCounter: int
    var acceptors: seq<bool>
    var sessions: seq<Session>
    var cancelled: bool
    ghost var accepted: set<Conn>
    ghost var expired: seq<Conn>
    ghost var finished: seq<Conn>

    ghost function View(): State
      reads this
    {
      State(channelSize, muxCon, localChannel, streamCounter, sessionCounter, acceptors, sessions, cancelled,
            accepted, expired, finished)
    }

    constructor (channelSize: nat, muxCon: nat, acceptorCount: nat)
      ensures View() == Init(channelSize, muxCon, acceptorCount) && Inv(View())
    {
      this.channelSize, this.muxCon := channelSize, muxCon;
      localChannel, streamCounter, sessionCounter := [], 0, 0;
      acceptors, sessions, cancelled := seq(acceptorCount, _ => false), [], false;
      accepted, expired, finished := {}, [], [];
      new;
      InvInit(channelSize, muxCon, acceptorCount, Conn(0, "", 0));
    }

    /** One atomic operation of an acceptor, of handleLoop, or of the goroutines of a session.
        The operating system names every accepted connection afresh. */
    method Fire(e: Event)
      requires e.Enqueue? ==> e.conn !in accepted
      modifies this
      ensures View() == Next(old(View()), e)
    {
      match e
      case Enqueue(a, c) =>
        if a < |acceptors| && !acceptors[a] && |localChannel| < channelSize {
          localChannel := localChannel + [c];
          acceptors := acceptors[a := true];
          accepted := accepted + {c};
        }
      case CountStream(a) =>
        if a < |acceptors| && acceptors[a] {
          streamCounter := streamCounter + 1;
          acceptors := acceptors[a := false];
        }
      case StartSession =>
        sessions := sessions + [NEW_SESSION];
      case Cancel =>
        cancelled := true;
      case At(i, op) =>
        if i < |sessions| { HandleSession(i, op); }
    }

    /** The loop of handleSession, the relays it started, and handleSessionError. */
    method HandleSession(i: nat, op: Op)
      requires i < |sessions|
      modifies this
      ensures View() == SessionNext(old(View()), i, op)
    {
      if op.CountSession? || op.Acquire? || op.Take? || op.Quit? { Loop(i, op); }
      else if op.Judge? || op.CountExpired? || op.Release? { CheckAge(i, op); }
      else if op.OpenStream? || op.SendAddress? || op.CountFailure? { StartStream(i, op); }
      else if op.PushBack? || op.GiveUp? { Requeue(i, op); }
      else { EndRelay(i, op); }
    }

    method Loop(i: nat, op: Op)
      requires i < |sessions| && (op.CountSession? || op.Acquire? || op.Take? || op.Quit?)
      modifies this`localChannel, this`sessionCounter, this`sessions
      ensures View() == SessionNext(old(View()), i, op)
    {
      var t := sessions[i];
      if op.CountSession? && t.phase.Starting? {
        sessionCounter := sessionCounter + 1;
        t := t.(phase := Acquiring);
      } else if op.Acquire? && t.phase.Acquiring? && t.tokens < muxCon {
        t := t.(phase := Selecting, tokens := t.tokens + 1);
      } else if op.Take? && t.phase.Selecting? && localChannel != [] {
        t := t.(phase := Judging, incoming := Some(localChannel[0]));
        localChannel := localChannel[1..];
      } else if op.Quit? && t.phase.Selecting? && cancelled {
        t := t.(phase := Stopped);
      }
      sessions := sessions[i := t];
    }

    method CheckAge(i: nat, op: Op)
      requires i < |sessions| && (op.Judge? || op.CountExpired? || op.Release?)
      modifies this`streamCounter, this`sessions, this`expired
      ensures View() == SessionNext(old(View()), i, op)
    {
      var t := sessions[i];
      if op.Judge? && t.phase.Judging? && t.incoming.Some? {
        if op.now - t.incoming.value.timeCreated > STALE_AFTER {
          t := t.(phase := Expiring, seen := op.now);
        } else {
          t := t.(phase := Opening, seen := op.now);
        }
      } else if op.CountExpired? && t.phase.Expiring? && t.incoming.Some? {
        streamCounter := streamCounter - 1;
        expired := expired + [t.incoming.value];
        t := t.(phase := Releasing, incoming := None);
      } else if op.Release? && t.phase.Releasing? && t.tokens > 0 {
        t := t.(phase := Acquiring, tokens := t.tokens - 1);
      }
      sessions := sessions[i := t];
    }

    method StartStream(i: nat, op: Op)
      requires i < |sessions| && (op.OpenStream? || op.SendAddress? || op.CountFailure?)
      modifies this`sessionCounter, this`sessions
      ensures View() == SessionNext(old(View()), i, op)
    {
      var t := sessions[i];
      if op.OpenStream? && t.phase.Opening? {
        t := if op.ok then t.(phase := Sending) else t.(phase := Failing);
      } else if op.SendAddress? && t.phase.Sending? && t.incoming.Some? {
        if op.ok {
          t := t.(phase := Acquiring, incoming := None, live := t.live + [t.incoming.value]);
        } else {
          t := t.(phase := Returning, failedSends := t.failedSends + 1);
        }
      } else if op.CountFailure? && t.phase.Failing? {
        sessionCounter := sessionCounter - 1;
        t := t.(phase := Surrendering);
      }
      sessions := sessions[i := t];
    }

    method Requeue(i: nat, op: Op)
      requires i < |sessions| && (op.PushBack? || op.GiveUp?)
      modifies this`localChannel, this`sessions
      ensures View() == SessionNext(old(View()), i, op)
    {
      var t := sessions[i];
      if t.incoming.Some? && |localChannel| < channelSize {
        if op.PushBack? && t.phase.Returning? {
          localChannel := localChannel + [t.incoming.value];
          t := t.(phase := Acquiring, incoming := None);
        } else if op.GiveUp? && t.phase.Surrendering? {
          localChannel := localChannel + [t.incoming.value];
          t := t.(phase := Failed, incoming := None);
        }
      }
      sessions := sessions[i := t];
    }

    method EndRelay(i: nat, op: Op)
      requires i < |sessions| && (op.RelayEnd? || op.RelayRelease?)
      modifies this`streamCounter, this`sessions, this`finished
      ensures View() == SessionNext(old(View()), i, op)
    {
      var t := sessions[i];
      if op.RelayEnd? && op.k < |t.live| {
        streamCounter := streamCounter - 1;
        finished := finished + [t.live[op.k]];
        t := t.(live := t.live[..op.k] + t.live[op.k + 1..], draining := t.draining + 1);
      } else if op.RelayRelease? && t.draining > 0 && t.tokens > 0 {
        t := t.(draining := t.draining - 1, tokens := t.tokens - 1);
      } else if op.RelayRelease? && t.draining > 0 && Closed(t.phase) {
        t := t.(draining := t.draining - 1);
      }
      sessions := sessions[i := t];
    }
  }
}
