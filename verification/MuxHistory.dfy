/** What the operations of the mux scheduler bring about over whole runs: every place that a
    connection or a session can come to is traced to the events that led there. */
module MuxHistory {
  import opened Conns
  import opened MuxScheduler
  import opened Options
  import opened Tables
  import Runs

  lemma {:induction false} SameRun(s: State, es: seq<Event>)
    ensures Runs.Exec(Next, s, es) == Exec(s, es)
    decreases |es|
  {
    if es == [] {
    } else {
      SameRun(Next(s, es[0]), es[1..]);
    }
  }

  /** The event is an operation of session i, which is at this program point with this connection. */
  predicate Meets(s: State, e: Event, i: nat, phase: Phase, c: Conn) {
    e.At? && e.session == i < |s.sessions| && s.sessions[i].phase == phase && s.sessions[i].incoming == Some(c)
  }

  // ---- The age check ----

  predicate Judges(s: State, e: Event, c: Conn) { e.At? && e.op.Judge? && Meets(s, e, e.session, Judging, c) }

  predicate JudgesOld(s: State, e: Event, c: Conn) { Judges(s, e, c) && e.op.now > c.timeCreated + 3000 }

  predicate JudgesYoung(s: State, e: Event, c: Conn) { Judges(s, e, c) && e.op.now <= c.timeCreated + 3000 }

  /** The connection is closed for its age, or about to be. */
  predicate GivenUp(s: State, c: Conn) {
    || c in s.expired
    || exists i :: 0 <= i < |s.sessions| && Expires(s.sessions[i], c)
  }

  predicate Expires(t: Session, c: Conn) { t.phase.Expiring? && t.incoming == Some(c) }

  /** A session comes to the expiry of a connection only by judging it old, and leaves it by closing
      the connection. */
  lemma ExpiresOp(t: Session, queue: seq<Conn>, channelSize: nat, muxCon: nat, cancelled: bool, op: Op, c: Conn)
    requires SessionOk(t, muxCon, cancelled)
    ensures var r := SessionOp(t, queue, channelSize, muxCon, cancelled, op);
      Expires(r.session, c) || r.expired == Some(c) <==>
        Expires(t, c) || (op.Judge? && op.now > c.timeCreated + 3000 && t.phase.Judging? && t.incoming == Some(c))
  {
    match op
    case CountSession =>
    case Acquire =>
    case Take =>
    case Judge(_) =>
    case CountExpired =>
    case Release =>
    case OpenStream(_) =>
    case SendAddress(_) =>
    case PushBack =>
    case CountFailure =>
    case GiveUp =>
    case Quit =>
    case RelayEnd(_) =>
    case RelayRelease =>
  }

  lemma GivenUpNext(s: State, e: Event, c: Conn)
    requires Shaped(s)
    ensures GivenUp(Next(s, e), c) <==> GivenUp(s, c) || JudgesOld(s, e, c)
  {
    var s' := Next(s, e);
    if e.At? && e.session < |s.sessions| {
      var i := e.session;
      ExpiresOp(s.sessions[i], s.localChannel, s.channelSize, s.muxCon, s.cancelled, e.op, c);
      assert forall j :: 0 <= j < |s.sessions| && j != i ==> s'.sessions[j] == s.sessions[j];
      if Expires(s.sessions[i], c) || JudgesOld(s, e, c) { assert Expires(s'.sessions[i], c) || c in s'.expired; }
    } else {
      assert forall j :: 0 <= j < |s.sessions| ==> s'.sessions[j] == s.sessions[j];
    }
  }

  /** The connection has passed the check: its stream is being opened, or it is relayed, or was. */
  predicate Trusted(s: State, c: Conn) {
    || c in s.finished
    || exists i :: 0 <= i < |s.sessions| && TrustedIn(s.sessions[i], c)
  }

  predicate TrustedIn(t: Session, c: Conn) {
    c in t.live || ((t.phase.Opening? || t.phase.Sending?) && t.incoming == Some(c))
  }

  lemma Occurs(cs: seq<Conn>, c: Conn)
    requires c in cs
    ensures Sum(cs, Is(c)) >= 1
  {
    var k :| 0 <= k < |cs| && cs[k] == c;
    SumMember(cs, k, Is(c));
  }

  /** Such a connection is nowhere else. */
  lemma TrustedOnly(s: State, c: Conn, i: nat)
    requires Conserved(s, c) && Trusted(s, c) && i < |s.sessions| && s.sessions[i].incoming == Some(c)
    ensures TrustedIn(s.sessions[i], c) && c !in s.sessions[i].live
  {
    SumMember(s.sessions, i, CopiesOf(c));
    if c in s.finished { Occurs(s.finished, c); }
    if c in s.sessions[i].live { Occurs(s.sessions[i].live, c); }
    if j :| 0 <= j < |s.sessions| && TrustedIn(s.sessions[j], c) && j != i {
      if c in s.sessions[j].live { Occurs(s.sessions[j].live, c); }
      if i < j { SumPair(s.sessions, i, j, CopiesOf(c)); } else { SumPair(s.sessions, j, i, CopiesOf(c)); }
    }
  }

  /** A session comes to trust a connection only by judging it young. */
  lemma TrustedOp(t: Session, queue: seq<Conn>, channelSize: nat, muxCon: nat, cancelled: bool, op: Op, c: Conn)
    requires SessionOk(t, muxCon, cancelled)
    ensures var r := SessionOp(t, queue, channelSize, muxCon, cancelled, op);
      TrustedIn(r.session, c) || r.finished == Some(c) ==>
        TrustedIn(t, c)
        || (op.Judge? && op.now <= c.timeCreated + 3000 && t.phase.Judging? && t.incoming == Some(c))
  {
    match op
    case CountSession =>
    case Acquire =>
    case Take =>
    case Judge(_) =>
    case CountExpired =>
    case Release =>
    case OpenStream(_) =>
    case SendAddress(_) =>
    case PushBack =>
    case CountFailure =>
    case GiveUp =>
    case Quit =>
    case RelayEnd(_) =>
    case RelayRelease =>
  }

  lemma TrustedNew(s: State, e: Event, c: Conn)
    requires Shaped(s) && !Trusted(s, c)
    ensures Trusted(Next(s, e), c) ==> JudgesYoung(s, e, c)
  {
    var s' := Next(s, e);
    if e.At? && e.session < |s.sessions| {
      TrustedOp(s.sessions[e.session], s.localChannel, s.channelSize, s.muxCon, s.cancelled, e.op, c);
      assert forall j :: 0 <= j < |s.sessions| && j != e.session ==> s'.sessions[j] == s.sessions[j];
    } else {
      assert forall j :: 0 <= j < |s.sessions| ==> s'.sessions[j] == s.sessions[j];
    }
  }

  lemma TrustedNext(s: State, e: Event, c: Conn)
    requires Inv(s) && Conserved(s, c)
    ensures Trusted(Next(s, e), c) ==> JudgesYoung(s, e, c) || (Trusted(s, c) && !Judges(s, e, c))
  {
    if !Trusted(s, c) {
      TrustedNew(s, e, c);
    } else if Judges(s, e, c) {
      TrustedOnly(s, c, e.session);
    }
  }

  /** In every run a connection is closed for its age, or about to be, exactly when some check met it
      and found it more than three seconds old; and of every connection whose stream is being opened,
      or that is relayed or was, the last check found it at most that old. */
  lemma AgeDecides(channelSize: nat, muxCon: nat, acceptors: nat, es: seq<Event>, c: Conn)
    ensures var s0 := Init(channelSize, muxCon, acceptors); var s := Exec(s0, es);
      && (GivenUp(s, c) <==> Runs.Befell(Next, s0, es, (t, e) => JudgesOld(t, e, c)))
      && (Trusted(s, c) ==> Runs.DoneLast(Next, s0, es, (t, e) => JudgesYoung(t, e, c), (t, e) => Judges(t, e, c)))
  {
    var s0 := Init(channelSize, muxCon, acceptors);
    SameRun(s0, es);
    InvInit(channelSize, muxCon, acceptors, c);
    forall t: State, e: Event | Shaped(t)
      ensures Shaped(Next(t, e)) && (GivenUp(Next(t, e), c) <==> GivenUp(t, c) || JudgesOld(t, e, c))
    {
      ShapedNext(t, e);
      GivenUpNext(t, e, c);
    }
    Runs.History(Next, s0, es, t => Shaped(t), t => GivenUp(t, c), (t, e) => JudgesOld(t, e, c));
    forall t: State, e: Event | Inv(t) && Conserved(t, c)
      ensures Inv(Next(t, e)) && Conserved(Next(t, e), c)
      ensures Trusted(Next(t, e), c) ==> JudgesYoung(t, e, c) || (Trusted(t, c) && !Judges(t, e, c))
    {
      InvNext(t, e, c);
      TrustedNext(t, e, c);
    }
    Runs.Latest(Next, s0, es, t => Inv(t) && Conserved(t, c), t => Trusted(t, c),
                (t, e) => JudgesYoung(t, e, c), (t, e) => Judges(t, e, c));
  }

  // ---- Relays ----

  /** The connection is relayed on a stream, or was. */
  predicate Relayed(s: State, c: Conn) {
    c in s.finished || exists i :: 0 <= i < |s.sessions| && c in s.sessions[i].live
  }

  /** The address of the connection is sent. */
  predicate Sends(s: State, e: Event, c: Conn) {
    e.At? && e.op == SendAddress(true) && Meets(s, e, e.session, Sending, c)
  }

  lemma RelayedOp(t: Session, queue: seq<Conn>, channelSize: nat, muxCon: nat, cancelled: bool, op: Op, c: Conn)
    requires SessionOk(t, muxCon, cancelled)
    ensures var r := SessionOp(t, queue, channelSize, muxCon, cancelled, op);
      c in r.session.live || r.finished == Some(c) <==>
        c in t.live || (op == SendAddress(true) && t.phase.Sending? && t.incoming == Some(c))
  {
    match op
    case CountSession =>
    case Acquire =>
    case Take =>
    case Judge(_) =>
    case CountExpired =>
    case Release =>
    case OpenStream(_) =>
    case SendAddress(_) =>
    case PushBack =>
    case CountFailure =>
    case GiveUp =>
    case Quit =>
    case RelayEnd(k) => if k < |t.live| { assert t.live == t.live[..k] + [t.live[k]] + t.live[k + 1..]; }
    case RelayRelease =>
  }

  lemma RelayedNext(s: State, e: Event, c: Conn)
    requires Shaped(s)
    ensures Relayed(Next(s, e), c) <==> Relayed(s, c) || Sends(s, e, c)
  {
    var s' := Next(s, e);
    if e.At? && e.session < |s.sessions| {
      var i := e.session;
      RelayedOp(s.sessions[i], s.localChannel, s.channelSize, s.muxCon, s.cancelled, e.op, c);
      assert forall j :: 0 <= j < |s.sessions| && j != i ==> s'.sessions[j] == s.sessions[j];
      if c in s.sessions[i].live || Sends(s, e, c) { assert c in s'.sessions[i].live || c in s'.finished; }
    } else {
      assert forall j :: 0 <= j < |s.sessions| ==> s'.sessions[j] == s.sessions[j];
    }
  }

  /** In every run a connection is relayed, or was, exactly when its address was sent over a stream
      opened for it. */
  lemma RelayedWhen(channelSize: nat, muxCon: nat, acceptors: nat, es: seq<Event>, c: Conn)
    ensures var s0 := Init(channelSize, muxCon, acceptors);
      Relayed(Exec(s0, es), c) <==> Runs.Befell(Next, s0, es, (t, e) => Sends(t, e, c))
  {
    var s0 := Init(channelSize, muxCon, acceptors);
    SameRun(s0, es);
    forall t: State, e: Event | Shaped(t)
      ensures Shaped(Next(t, e)) && (Relayed(Next(t, e), c) <==> Relayed(t, c) || Sends(t, e, c))
    {
      ShapedNext(t, e);
      RelayedNext(t, e, c);
    }
    Runs.History(Next, s0, es, t => Shaped(t), t => Relayed(t, c), (t, e) => Sends(t, e, c));
  }

  /** The relay of the connection, on whichever stream, comes to its end. */
  predicate Ends(s: State, e: Event, c: Conn) {
    && e.At? && e.op.RelayEnd? && e.session < |s.sessions|
    && e.op.k < |s.sessions[e.session].live| && s.sessions[e.session].live[e.op.k] == c
  }

  lemma EndedOp(t: Session, queue: seq<Conn>, channelSize: nat, muxCon: nat, cancelled: bool, op: Op, c: Conn)
    ensures SessionOp(t, queue, channelSize, muxCon, cancelled, op).finished == Some(c)
      <==> op.RelayEnd? && op.k < |t.live| && t.live[op.k] == c
  {
    match op
    case RelayEnd(_) =>
    case _ =>
  }

  /** In every run a connection is finished exactly when its relay has ended, in whatever order relays
      end that share a session. */
  lemma FinishedWhen(channelSize: nat, muxCon: nat, acceptors: nat, es: seq<Event>, c: Conn)
    ensures var s0 := Init(channelSize, muxCon, acceptors);
      c in Exec(s0, es).finished <==> Runs.Befell(Next, s0, es, (t, e) => Ends(t, e, c))
  {
    var s0 := Init(channelSize, muxCon, acceptors);
    SameRun(s0, es);
    forall t: State, e: Event
      ensures c in Next(t, e).finished <==> c in t.finished || Ends(t, e, c)
    {
      if e.At? && e.session < |t.sessions| {
        EndedOp(t.sessions[e.session], t.localChannel, t.channelSize, t.muxCon, t.cancelled, e.op, c);
      }
    }
    Runs.History(Next, s0, es, (t: State) => true, (t: State) => c in t.finished, (t, e) => Ends(t, e, c));
  }

  // ---- The ends of sessions ----

  /** A session takes its exit for a stream that cannot be opened, or stops on a cancellation. */
  datatype Exit = Broken | Stopping

  predicate Took(t: Session, exit: Exit) {
    match exit
    case Broken => t.phase.Failing? || t.phase.Surrendering? || t.phase.Failed?
    case Stopping => t.phase.Stopped?
  }

  predicate TakesExit(t: Session, cancelled: bool, op: Op, exit: Exit) {
    match exit
    case Broken => t.phase.Opening? && op == OpenStream(false)
    case Stopping => t.phase.Selecting? && cancelled && op.Quit?
  }

  lemma TookOp(t: Session, queue: seq<Conn>, channelSize: nat, muxCon: nat, cancelled: bool, op: Op, exit: Exit)
    ensures Took(SessionOp(t, queue, channelSize, muxCon, cancelled, op).session, exit)
       <==> Took(t, exit) || TakesExit(t, cancelled, op, exit)
  {
    match op
    case CountSession =>
    case Acquire =>
    case Take =>
    case Judge(_) =>
    case CountExpired =>
    case Release =>
    case OpenStream(_) =>
    case SendAddress(_) =>
    case PushBack =>
    case CountFailure =>
    case GiveUp =>
    case Quit =>
    case RelayEnd(_) =>
    case RelayRelease =>
  }

  predicate TookAt(s: State, i: nat, exit: Exit) { i < |s.sessions| && Took(s.sessions[i], exit) }

  predicate TakesAt(s: State, e: Event, i: nat, exit: Exit) {
    e.At? && e.session == i < |s.sessions| && TakesExit(s.sessions[i], s.cancelled, e.op, exit)
  }

  /** In every run: a session is on its way out with its connection, or gone, exactly when a stream
      could not be opened for it, and has stopped exactly when it saw the cancellation. */
  lemma ExitWhen(channelSize: nat, muxCon: nat, acceptors: nat, es: seq<Event>, i: nat, exit: Exit)
    ensures var s0 := Init(channelSize, muxCon, acceptors);
      TookAt(Exec(s0, es), i, exit) <==> Runs.Befell(Next, s0, es, (t, e) => TakesAt(t, e, i, exit))
  {
    var s0 := Init(channelSize, muxCon, acceptors);
    SameRun(s0, es);
    forall t: State, e: Event
      ensures TookAt(Next(t, e), i, exit) <==> TookAt(t, i, exit) || TakesAt(t, e, i, exit)
    {
      if e.At? && e.session == i < |t.sessions| {
        TookOp(t.sessions[i], t.localChannel, t.channelSize, t.muxCon, t.cancelled, e.op, exit);
      }
    }
    Runs.History(Next, s0, es, t => true, t => TookAt(t, i, exit), (t, e) => TakesAt(t, e, i, exit));
  }

  /** Sessions can see the cancellation from the event on that makes it. */
  lemma {:induction false} CancelledWhen(s: State, es: seq<Event>)
    ensures Exec(s, es).cancelled <==> s.cancelled || Cancel in es
    decreases |es|
  {
    if es == [] {
    } else {
      CancelledWhen(Next(s, es[0]), es[1..]);
      assert es == [es[0]] + es[1..];
    }
  }

  // ---- Failed sends ----

  function FailuresOf(s: State, i: nat): int { if i < |s.sessions| then s.sessions[i].failedSends else 0 }

  function FailsToSend(s: State, e: Event, i: nat): int {
    if e == At(i, SendAddress(false)) && i < |s.sessions| && s.sessions[i].phase.Sending? then 1 else 0
  }

  lemma FailuresOp(t: Session, queue: seq<Conn>, channelSize: nat, muxCon: nat, cancelled: bool, op: Op)
    requires SessionOk(t, muxCon, cancelled)
    ensures SessionOp(t, queue, channelSize, muxCon, cancelled, op).session.failedSends
         == t.failedSends + (if op == SendAddress(false) && t.phase.Sending? then 1 else 0)
  {
    match op
    case CountSession =>
    case Acquire =>
    case Take =>
    case Judge(_) =>
    case CountExpired =>
    case Release =>
    case OpenStream(_) =>
    case SendAddress(_) =>
    case PushBack =>
    case CountFailure =>
    case GiveUp =>
    case Quit =>
    case RelayEnd(_) =>
    case RelayRelease =>
  }

  /** failedSends of a session is the number of its address sends that failed. */
  lemma FailuresCounted(channelSize: nat, muxCon: nat, acceptors: nat, es: seq<Event>, i: nat)
    ensures var s0 := Init(channelSize, muxCon, acceptors);
      FailuresOf(Exec(s0, es), i) == Runs.Tally(Next, s0, es, (t, e) => FailsToSend(t, e, i))
  {
    var s0 := Init(channelSize, muxCon, acceptors);
    SameRun(s0, es);
    forall t: State, e: Event | Shaped(t)
      ensures Shaped(Next(t, e)) && FailuresOf(Next(t, e), i) == FailuresOf(t, i) + FailsToSend(t, e, i)
    {
      ShapedNext(t, e);
      if e.At? && e.session == i < |t.sessions| {
        FailuresOp(t.sessions[i], t.localChannel, t.channelSize, t.muxCon, t.cancelled, e.op);
      }
    }
    Runs.Tallies(Next, s0, es, t => Shaped(t), t => FailuresOf(t, i), (t, e) => FailsToSend(t, e, i));
  }

  // ---- localChannel ----

  /** The operations by which a session sends its connection back into localChannel. */
  predicate PutsBack(t: Session, op: Op) {
    (op.PushBack? && t.phase.Returning?) || (op.GiveUp? && t.phase.Surrendering?)
  }

  /** What an event sends into localChannel, and what it receives from it. */
  function Puts(s: State, e: Event): seq<Conn> {
    if |s.localChannel| >= s.channelSize then []
    else if e.Enqueue? then
      if e.acceptor < |s.acceptors| && !s.acceptors[e.acceptor] && e.conn !in s.accepted then [e.conn] else []
    else if e.At? && e.session < |s.sessions| then
      var t := s.sessions[e.session];
      if PutsBack(t, e.op) then AsSeq(t.incoming) else []
    else []
  }

  function Gets(s: State, e: Event): seq<Conn> {
    if e.At? && e.op.Take? && e.session < |s.sessions| && s.sessions[e.session].phase.Selecting? && s.localChannel != []
    then [s.localChannel[0]] else []
  }

  lemma QueueNext(s: State, e: Event)
    requires Shaped(s)
    ensures s.localChannel + Puts(s, e) == Gets(s, e) + Next(s, e).localChannel
  {
    if e.At? && e.session < |s.sessions| {
      var t := s.sessions[e.session];
      assert SessionOk(t, s.muxCon, s.cancelled);
      QueueOp(t, s.localChannel, s.channelSize, s.muxCon, s.cancelled, e.op);
    }
  }

  lemma QueueOp(t: Session, queue: seq<Conn>, channelSize: nat, muxCon: nat, cancelled: bool, op: Op)
    requires SessionOk(t, muxCon, cancelled)
    ensures var after := SessionOp(t, queue, channelSize, muxCon, cancelled, op).localChannel;
      if op.Take? && t.phase.Selecting? && queue != [] then queue == [queue[0]] + after
      else if |queue| < channelSize && PutsBack(t, op) then after == queue + AsSeq(t.incoming)
      else after == queue
  {
    match op
    case CountSession =>
    case Acquire =>
    case Take =>
    case Judge(_) =>
    case CountExpired =>
    case Release =>
    case OpenStream(_) =>
    case SendAddress(_) =>
    case PushBack =>
    case CountFailure =>
    case GiveUp =>
    case Quit =>
    case RelayEnd(_) =>
    case RelayRelease =>
  }

  /** In every run the sessions take connections from localChannel in the order in which acceptors
      and sessions sent them there; what is not taken yet is still in it. */
  lemma TakenInOrder(channelSize: nat, muxCon: nat, acceptors: nat, es: seq<Event>)
    ensures var s0 := Init(channelSize, muxCon, acceptors);
      Runs.Trace(Next, s0, es, Puts) == Runs.Trace(Next, s0, es, Gets) + Exec(s0, es).localChannel
  {
    var s0 := Init(channelSize, muxCon, acceptors);
    SameRun(s0, es);
    forall t: State, e: Event | Shaped(t)
      ensures Shaped(Next(t, e)) && t.localChannel + Puts(t, e) == Gets(t, e) + Next(t, e).localChannel
    {
      ShapedNext(t, e);
      QueueNext(t, e);
    }
    Runs.Fifo(Next, s0, es, t => Shaped(t), (t: State) => t.localChannel, Puts, Gets);
    assert [] + Runs.Trace(Next, s0, es, Puts) == Runs.Trace(Next, s0, es, Puts);
  }
}
