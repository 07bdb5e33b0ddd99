/** The client's pool over whole runs: every number in it is the balance of the events that changed
    it. */
module PoolHistory {
  import opened ClientPool
  import Runs

  lemma {:induction false} SameRun(s: State, es: seq<Event>)
    ensures Runs.Exec(Next, s, es) == Exec(s, es)
    decreases |es|
  {
    if es == [] {
    } else {
      SameRun(Next(s, es[0]), es[1..]);
    }
  }

  /** What is counted: decisions to grow and to shrink; signals answered, and those answered by using
      up a token; dials that succeed and that fail; tunnels that leave the pool. */
  datatype Kind = Grown | Shrunk | Answered | Cancelled | Connected | Refused | Left

  function Once(b: bool): int { if b then 1 else 0 }

  function Counts(s: State, e: Event, kind: Kind): int {
    match kind
    case Grown => Once(e.Decide? && s.maintainer.Deciding? && Wants(s, true))
    case Shrunk => Once(e.Decide? && s.maintainer.Deciding? && Wants(s, false))
    case Answered => Once(e.Serve? && s.counted)
    case Cancelled => Once(e.Serve? && s.counted && s.controlFlow > 0)
    case Connected => Once(e == Dialed(true) && s.dialing > 0)
    case Refused => Once(e == Dialed(false) && s.dialing > 0)
    case Left => Once(e.Leave? && s.pooled > 0)
  }

  /** The controller wants a larger pool, or a smaller one. */
  predicate Wants(s: State, more: bool) {
    s.maintainer.Deciding? &&
    var load, pool := s.maintainer.load, Average(s.poolConnectionsSum);
    if more then Grows(s.config, load, pool)
    else !Grows(s.config, load, pool) && Shrinks(s.config, load, pool) && s.newPoolSize > s.config.connPoolSize
  }

  function Total(c: Config, es: seq<Event>, kind: Kind): int {
    Runs.Tally(Next, Init(c), es, (s, e) => Counts(s, e, kind))
  }

  /** A number of the pool that the events of some kinds raise and lower. */
  datatype Account = Size | Launched | Tokens | Pooled | Gone | Signals

  function Value(s: State, a: Account): int {
    match a
    case Size => s.newPoolSize
    case Launched => s.launched
    case Tokens => s.controlFlow + Once(s.maintainer.Pushing?)
    case Pooled => s.pooled
    case Gone => s.gone
    case Signals => s.signals
  }

  function Change(s: State, e: Event, a: Account): int {
    match a
    case Size => Counts(s, e, Grown) - Counts(s, e, Shrunk)
    case Launched => Counts(s, e, Grown) + (Counts(s, e, Answered) - Counts(s, e, Cancelled))
    case Tokens => Counts(s, e, Shrunk) - Counts(s, e, Cancelled)
    case Pooled => Counts(s, e, Connected) - Counts(s, e, Left)
    case Gone => Counts(s, e, Refused) + Counts(s, e, Left)
    case Signals => Counts(s, e, Answered)
  }

  lemma ValueNext(s: State, e: Event, a: Account)
    ensures Value(Next(s, e), a) == Value(s, a) + Change(s, e, a)
  {
    match e
    case Sample =>
    case Measure =>
    case Reset =>
    case Decide =>
    case Push =>
    case Signal =>
    case Serve =>
    case Dialed(_) =>
    case Leave =>
  }

  lemma {:induction false} TallyOfChange(s: State, es: seq<Event>, a: Account)
    ensures var total := (kind: Kind) => Runs.Tally(Next, s, es, (t, e) => Counts(t, e, kind));
      Runs.Tally(Next, s, es, (t, e) => Change(t, e, a)) ==
      match a
      case Size => total(Grown) - total(Shrunk)
      case Launched => total(Grown) + (total(Answered) - total(Cancelled))
      case Tokens => total(Shrunk) - total(Cancelled)
      case Pooled => total(Connected) - total(Left)
      case Gone => total(Refused) + total(Left)
      case Signals => total(Answered)
    decreases |es|
  {
    if es == [] {
    } else {
      TallyOfChange(Next(s, es[0]), es[1..], a);
    }
  }

  /** In every run: the pool size is the configured one, plus the decisions to grow, less those to
      shrink; every decision to shrink becomes a token, and every token spares one tunnel, for a
      signal that finds it waiting; a tunnel is launched for every other signal and for every
      decision to grow; and dials and departures account for the tunnels in the pool. */
  lemma EveryNumber(c: Config, es: seq<Event>)
    ensures var s := Exec(Init(c), es);
      && s.newPoolSize == c.connPoolSize + Total(c, es, Grown) - Total(c, es, Shrunk)
      && s.controlFlow + Once(s.maintainer.Pushing?) == Total(c, es, Shrunk) - Total(c, es, Cancelled)
      && s.launched == c.connPoolSize + Total(c, es, Grown) + Total(c, es, Answered) - Total(c, es, Cancelled)
      && s.signals == Total(c, es, Answered)
      && s.pooled == Total(c, es, Connected) - Total(c, es, Left)
      && s.gone == Total(c, es, Refused) + Total(c, es, Left)
  {
    SameRun(Init(c), es);
    Balance(c, es, Size);
    Balance(c, es, Tokens);
    Balance(c, es, Launched);
    Balance(c, es, Signals);
    Balance(c, es, Pooled);
    Balance(c, es, Gone);
  }

  lemma Balance(c: Config, es: seq<Event>, a: Account)
    ensures var total := (kind: Kind) => Total(c, es, kind);
      Value(Runs.Exec(Next, Init(c), es), a) - Value(Init(c), a) ==
      match a
      case Size => total(Grown) - total(Shrunk)
      case Launched => total(Grown) + (total(Answered) - total(Cancelled))
      case Tokens => total(Shrunk) - total(Cancelled)
      case Pooled => total(Connected) - total(Left)
      case Gone => total(Refused) + total(Left)
      case Signals => total(Answered)
  {
    forall s: State, e: Event
      ensures Value(Next(s, e), a) == Value(s, a) + Change(s, e, a)
    {
      ValueNext(s, e, a);
    }
    Runs.Tallies(Next, Init(c), es, s => true, s => Value(s, a), (s, e) => Change(s, e, a));
    TallyOfChange(Init(c), es, a);
  }

  /** In every reachable state: a decision to shrink waits for room in controlFlow exactly as long as
      100 tokens wait there. */
  lemma WaitsWhenFull(c: Config, es: seq<Event>)
    requires Exec(Init(c), es).maintainer.Pushing?
    ensures var s := Exec(Init(c), es); Next(s, Push) == s <==> s.controlFlow == 100
  {
    InvExec(Init(c), es);
  }

  // ---- The measurements ----

  /** Signals counted, and what a reset has taken off. */
  function Loads(s: State, e: Event): int {
    if e.Signal? && !s.counted then 1 else if e.Reset? && s.maintainer.Measured? then 0 - s.loadConnections else 0
  }

  /** loadConnections counts the signals since it was last reset. */
  lemma LoadCounted(c: Config, es: seq<Event>)
    ensures Exec(Init(c), es).loadConnections == Runs.Tally(Next, Init(c), es, Loads)
  {
    SameRun(Init(c), es);
    forall s: State, e: Event
      ensures Next(s, e).loadConnections == s.loadConnections + Loads(s, e)
    {
    }
    Runs.Tallies(Next, Init(c), es, s => true, (s: State) => s.loadConnections, Loads);
  }

  /** The average is rounded up. */
  lemma AverageRoundsUp(sum: nat)
    ensures 10 * Average(sum) >= sum && 10 * (Average(sum) - 1) < sum
  {
  }
}
