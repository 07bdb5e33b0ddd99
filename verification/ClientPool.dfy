/** The client's pool of idle tunnels, the same in every transport: poolMaintainer sizes the pool
    every ten seconds and channelHandler opens a tunnel for each signal from the server, unless
    a token in controlFlow says that the pool is to shrink. */
module ClientPool {

  const CONTROL_FLOW_SIZE := 100

  // ---- The controller ----

  /** A pool of configured size, in normal or aggressive mode. */
  datatype Config = Config(connPoolSize: nat, aggressive: bool)

  /** Ceil-like average of ten seconds. */
  function Average(sum: nat): nat { (sum + 9) / 10 }

  predicate Grows(c: Config, load: nat, pool: nat) {
    if c.aggressive then load + 1 > pool * 2 else load + 4 > pool * 5
  }

  predicate Shrinks(c: Config, load: nat, pool: nat) {
    if c.aggressive then (load + 0) as real < pool as real * 0.75 else (load + 3) as real < pool as real * 4.0
  }

  /** The next pool size. */
  function Adjust(c: Config, load: nat, pool: nat, size: nat): nat {
    if Grows(c, load, pool) then size + 1
    else if Shrinks(c, load, pool) && size > c.connPoolSize then size - 1
    else size
  }

  /** The factors in whole numbers: an aggressive pool grows up to half the load and shrinks beyond four
      thirds of it; a normal one, up to a fifth and beyond a quarter of the load plus 3. Never both. */
  lemma Factors(c: Config, load: nat, pool: nat)
    ensures c.aggressive ==> (Grows(c, load, pool) <==> 2 * pool <= load)
    ensures c.aggressive ==> (Shrinks(c, load, pool) <==> 4 * load < 3 * pool)
    ensures !c.aggressive ==> (Grows(c, load, pool) <==> 5 * pool <= load + 3)
    ensures !c.aggressive ==> (Shrinks(c, load, pool) <==> 4 * pool > load + 3)
    ensures !(Grows(c, load, pool) && Shrinks(c, load, pool))
  {
    assert pool as real * 0.75 == (3 * pool) as real / 4.0;
  }

  // ---- The two goroutines, one operation per event ----

  datatype Maintainer = Ticking | Measured(load: nat) | Deciding(load: nat) | Pushing

  /** Dialers are launched, dial, are in the pool, and leave it. */
  datatype State = State(
    config: Config,
    newPoolSize: nat,
    poolConnectionsSum: nat,
    loadConnections: nat,
    controlFlow: nat,
    maintainer: Maintainer,
    counted: bool, // channelHandler: signal counted, not served yet
    poolConnections: int,
    launched: nat,
    dialing: nat,
    pooled: nat,
    gone: nat,
    signals: nat)

  datatype Event = Sample | Measure | Reset | Decide | Push | Signal | Serve | Dialed(ok: bool) | Leave

  /** After the initial filling. */
  function Init(c: Config): State {
    State(c, c.connPoolSize, 0, 0, 0, Ticking, false, 0, c.connPoolSize, c.connPoolSize, 0, 0, 0)
  }

  function Launch(s: State): State { s.(launched := s.launched + 1, dialing := s.dialing + 1) }

  function Next(s: State, e: Event): State {
    match e
    case Sample =>
      if s.maintainer.Ticking? && s.poolConnections >= 0 then
        s.(poolConnectionsSum := s.poolConnectionsSum + s.poolConnections)
      else s
    case Measure =>
      if s.maintainer.Ticking? then s.(maintainer := Measured(Average(s.loadConnections))) else s
    case Reset =>
      if s.maintainer.Measured? then s.(maintainer := Deciding(s.maintainer.load), loadConnections := 0) else s
    case Decide =>
      if !s.maintainer.Deciding? then s
      else
        var size := Adjust(s.config, s.maintainer.load, Average(s.poolConnectionsSum), s.newPoolSize);
        var s' := s.(newPoolSize := size, poolConnectionsSum := 0,
                     maintainer := if size < s.newPoolSize then Pushing else Ticking);
        if size > s.newPoolSize then Launch(s') else s'
    case Push =>
      if s.maintainer.Pushing? && s.controlFlow < CONTROL_FLOW_SIZE then
        s.(controlFlow := s.controlFlow + 1, maintainer := Ticking)
      else s
    case Signal => if s.counted then s else s.(loadConnections := s.loadConnections + 1, counted := true)
    case Serve =>
      if !s.counted then s
      else
        var s' := s.(signals := s.signals + 1, counted := false);
        if s.controlFlow > 0 then s'.(controlFlow := s.controlFlow - 1) else Launch(s')
    case Dialed(ok) =>
      if s.dialing == 0 then s
      else if ok then s.(dialing := s.dialing - 1, pooled := s.pooled + 1, poolConnections := s.poolConnections + 1)
      else s.(dialing := s.dialing - 1, gone := s.gone + 1)
    case Leave =>
      if s.pooled == 0 then s
      else s.(pooled := s.pooled - 1, gone := s.gone + 1, poolConnections := s.poolConnections - 1)
  }

  function Exec(s: State, es: seq<Event>): State
    decreases |es|
  {
    if es == [] then s else Exec(Next(s, es[0]), es[1..])
  }

  predicate Inv(s: State) {
    && s.launched == s.newPoolSize + s.signals + s.controlFlow + (if s.maintainer.Pushing? then 1 else 0)
    && s.launched == s.dialing + s.pooled + s.gone
    && s.newPoolSize >= s.config.connPoolSize
    && s.controlFlow <= CONTROL_FLOW_SIZE
    && s.poolConnections == s.pooled
  }

  lemma InvNext(s: State, e: Event)
    requires Inv(s)
    ensures Inv(Next(s, e)) && Next(s, e).config == s.config
  {
  }

  lemma {:induction false} InvExec(s: State, es: seq<Event>)
    requires Inv(s)
    ensures Inv(Exec(s, es)) && Exec(s, es).config == s.config
    decreases |es|
  {
    if es == [] {
    } else {
      InvNext(s, es[0]);
      InvExec(Next(s, es[0]), es[1..]);
    }
  }

  /** In every interleaving: tunnels launched are accounted for by the pool size, the signals
      served, and the tokens in controlFlow or on their way there; the pool size never falls
      below the configured one, nor the tokens above the channel's capacity. */
  lemma PoolConservation(c: Config, es: seq<Event>)
    ensures var s := Exec(Init(c), es);
      && s.launched == s.newPoolSize + s.signals + s.controlFlow + (if s.maintainer.Pushing? then 1 else 0)
      && s.newPoolSize >= c.connPoolSize && s.controlFlow <= 100
      && s.poolConnections == s.pooled == s.launched - s.dialing - s.gone
  {
    InvExec(Init(c), es);
  }

  // ---- Convergence under constant load ----

  /** Ten equal samples average to their value. */
  lemma EqualSamples(n: nat)
    ensures Average(10 * n) == n
  {
  }

  /** One tick when the measured average is the pool size itself. */
  function Tick(c: Config, load: nat, n: nat): nat { Adjust(c, load, n, n) }

  function Ticks(c: Config, load: nat, n: nat, k: nat): nat
    decreases k
  {
    if k == 0 then n else Ticks(c, load, Tick(c, load, n), k - 1)
  }

  predicate Stable(c: Config, load: nat, n: nat) { Tick(c, load, n) == n }

  /** A size above the configured one that shrinks and whose predecessor grows again. */
  predicate Swings(c: Config, load: nat, m: nat) {
    m > c.connPoolSize && Grows(c, load, m - 1) && !Grows(c, load, m) && Shrinks(c, load, m)
  }

  predicate Oscillates(c: Config, load: nat) {
    if c.aggressive then c.connPoolSize == 0 && load == 0
    else
      || (c.connPoolSize <= 3 && load == 12)
      || (c.connPoolSize <= 2 && 7 <= load <= 8)
      || (c.connPoolSize <= 1 && 2 <= load <= 4)
      || (c.connPoolSize == 0 && load == 0)
  }

  /** The size that swings, if any; at most 4 in normal and 1 in aggressive mode. */
  function SwingSize(c: Config, load: nat): nat {
    if c.aggressive || load == 0 then 1 else if load <= 4 then 2 else if load <= 8 then 3 else 4
  }

  lemma SwingsAt(c: Config, load: nat, m: nat)
    ensures Swings(c, load, m) <==> Oscillates(c, load) && m == SwingSize(c, load)
  {
  }

  /** Where a size swings, every size moves. */
  lemma NoneStable(c: Config, load: nat, m: nat, n: nat)
    requires Swings(c, load, m) && n >= c.connPoolSize
    ensures !Stable(c, load, n)
  {
  }

  lemma {:induction false} NeverStable(c: Config, load: nat, m: nat, n: nat, k: nat)
    requires Swings(c, load, m) && n >= c.connPoolSize
    ensures !Stable(c, load, Ticks(c, load, n, k))
    decreases k
  {
    if k == 0 {
      NoneStable(c, load, m, n);
    } else {
      NeverStable(c, load, m, Tick(c, load, n), k - 1);
    }
  }

  /** Growing sizes, up to a stable one. */
  lemma {:induction false} Climb(c: Config, load: nat, n: nat) returns (k: nat)
    requires !Oscillates(c, load) && n >= c.connPoolSize && Grows(c, load, n)
    ensures 0 < k && n + k <= load + 4 && Stable(c, load, n + k)
    ensures forall m :: n <= m < n + k ==> Tick(c, load, m) == m + 1
    decreases load + 4 - n
  {
    SwingsAt(c, load, n + 1);
    if Grows(c, load, n + 1) {
      var k' := Climb(c, load, n + 1);
      k := k' + 1;
    } else {
      k := 1;
    }
  }

  /** Shrinking sizes, down to a stable one. */
  lemma {:induction false} Descend(c: Config, load: nat, n: nat) returns (k: nat)
    requires !Oscillates(c, load) && n >= c.connPoolSize && !Grows(c, load, n)
    ensures k <= n - c.connPoolSize && Stable(c, load, n - k)
    ensures forall m :: n - k < m <= n ==> Tick(c, load, m) == m - 1
    decreases n
  {
    if Stable(c, load, n) {
      k := 0;
    } else {
      SwingsAt(c, load, n);
      var k' := Descend(c, load, n - 1);
      k := k' + 1;
    }
  }

  lemma {:induction false} TicksUp(c: Config, load: nat, n: nat, k: nat)
    requires forall m :: n <= m < n + k ==> Tick(c, load, m) == m + 1
    ensures Ticks(c, load, n, k) == n + k
    decreases k
  {
    if k == 0 {
    } else {
      TicksUp(c, load, n + 1, k - 1);
    }
  }

  lemma {:induction false} TicksDown(c: Config, load: nat, n: nat, k: nat)
    requires k <= n && forall m :: n - k < m <= n ==> Tick(c, load, m) == m - 1
    ensures Ticks(c, load, n, k) == n - k
    decreases k
  {
    if k == 0 {
    } else {
      TicksDown(c, load, n - 1, k - 1);
    }
  }

  /** The first k ticks move the size one way, by one each. */
  predicate Monotone(c: Config, load: nat, n: nat, k: nat) {
    || (forall j: nat :: j <= k ==> Ticks(c, load, n, j) == n + j)
    || (forall j: nat :: j <= k ==> Ticks(c, load, n, j) == n - j)
  }

  /** Settling: within k ticks, moving one way, to a size that stays. */
  predicate SettlesIn(c: Config, load: nat, n: nat, k: nat) {
    Monotone(c, load, n, k) && Stable(c, load, Ticks(c, load, n, k))
  }

  lemma {:induction false} Settles(c: Config, load: nat, n: nat) returns (k: nat)
    requires !Oscillates(c, load) && n >= c.connPoolSize
    ensures k <= n + load + 4 && SettlesIn(c, load, n, k)
  {
    if Grows(c, load, n) {
      k := Climb(c, load, n);
      forall j: nat | j <= k ensures Ticks(c, load, n, j) == n + j { TicksUp(c, load, n, j); }
    } else {
      k := Descend(c, load, n);
      forall j: nat | j <= k ensures Ticks(c, load, n, j) == n - j { TicksDown(c, load, n, j); }
    }
  }

  /** Under constant load, from every size the controller can have: the size moves one way and
      settles within n + load + 4 ticks, or else, in the listed cases only, it never settles. */
  lemma Convergence(c: Config, load: nat, n: nat)
    requires n >= c.connPoolSize
    ensures !Oscillates(c, load) ==> exists k: nat :: k <= n + load + 4 && SettlesIn(c, load, n, k)
    ensures Oscillates(c, load) ==> forall k: nat :: !Stable(c, load, Ticks(c, load, n, k))
  {
    if Oscillates(c, load) {
      var m := SwingSize(c, load);
      SwingsAt(c, load, m);
      forall k: nat ensures !Stable(c, load, Ticks(c, load, n, k)) { NeverStable(c, load, m, n, k); }
    } else {
      var k := Settles(c, load, n);
    }
  }

  /** Four tunnels in normal mode, or one in aggressive mode, are what settling under every
      load takes. */
  lemma SettlesUnderEveryLoad(c: Config)
    ensures (forall load: nat :: !Oscillates(c, load)) <==> c.connPoolSize >= (if c.aggressive then 1 else 4)
  {
    assert c.aggressive ==> (Oscillates(c, 0) <==> c.connPoolSize == 0);
    assert !c.aggressive ==> (Oscillates(c, 12) <==> c.connPoolSize <= 3);
  }

  // ---- The controller in the machine ----

  /** Ten samples of a steady pool. */
  function Samples(k: nat): (es: seq<Event>)
    ensures |es| == k
  {
    if k == 0 then [] else [Sample] + Samples(k - 1)
  }

  lemma {:induction false} ExecAppend(s: State, es: seq<Event>, fs: seq<Event>)
    ensures Exec(s, es + fs) == Exec(Exec(s, es), fs)
    decreases |es|
  {
    if es == [] {
      assert es + fs == fs;
    } else {
      assert (es + fs)[0] == es[0] && (es + fs)[1..] == es[1..] + fs;
      ExecAppend(Next(s, es[0]), es[1..], fs);
    }
  }

  lemma {:induction false} ExecSamples(s: State, k: nat)
    requires s.maintainer.Ticking? && s.poolConnections >= 0
    ensures Exec(s, Samples(k)) == s.(poolConnectionsSum := s.poolConnectionsSum + k * s.poolConnections)
    decreases k
  {
    if k == 0 {
    } else {
      var s' := Next(s, Sample);
      ExecSamples(s', k - 1);
      assert k * s.poolConnections == s.poolConnections + (k - 1) * s.poolConnections;
    }
  }

  /** Ten seconds of the machine, with the pool full and steady, are one tick of the
      controller. */
  lemma {:induction false} TenSeconds(s: State)
    requires Inv(s) && s.maintainer.Ticking? && s.poolConnectionsSum == 0 && s.poolConnections == s.newPoolSize
    ensures var s' := Exec(s, Samples(10) + [Measure, Reset, Decide]);
      && s'.newPoolSize == Tick(s.config, Average(s.loadConnections), s.newPoolSize)
      && s'.poolConnectionsSum == 0 == s'.loadConnections
      && s'.launched - s.launched == (if s'.newPoolSize > s.newPoolSize then 1 else 0)
      && (s'.maintainer.Pushing? <==> s'.newPoolSize < s.newPoolSize)
  {
    ExecAppend(s, Samples(10), [Measure, Reset, Decide]);
    ExecSamples(s, 10);
    var t := Exec(s, Samples(10));
    EqualSamples(s.newPoolSize);
    assert Average(t.poolConnectionsSum) == s.newPoolSize;
    var u := Next(t, Measure);
    var v := Next(u, Reset);
    var w := Next(v, Decide);
    assert [Measure, Reset, Decide][1..] == [Reset, Decide] && [Reset, Decide][1..] == [Decide];
    assert Exec(v, [Decide]) == w;
    assert Exec(u, [Reset, Decide]) == w;
  }

  // ---- The transport's counters ----

  class PoolTransport {
    const config: Config
    var newPoolSize: nat
    var poolConnectionsSum: nat
    var loadConnections: nat
    var controlFlow: nat
    var maintainer: Maintainer
    var counted: bool
    var poolConnections: int
    var launched: nat
    var dialing: nat
    var pooled: nat
    var gone: nat
    var signals: nat

    ghost function View(): State
      reads this
    {
      State(config, newPoolSize, poolConnectionsSum, loadConnections, controlFlow, maintainer, counted,
            poolConnections, launched, dialing, pooled, gone, signals)
    }

    constructor (config: Config)
      ensures View() == Init(config)
    {
      this.config := config;
      newPoolSize := config.connPoolSize;
      poolConnectionsSum, loadConnections, controlFlow := 0, 0, 0;
      maintainer := Ticking;
      counted := false;
      poolConnections := 0;
      launched, dialing := config.connPoolSize, config.connPoolSize;
      pooled, gone, signals := 0, 0, 0;
    }

    /** go c.tunnelDialer() */
    method Dial()
      modifies this
      ensures View() == Launch(old(View()))
    {
      launched := launched + 1;
      dialing := dialing + 1;
    }

    /** The tick of tickerLoad, after its two measurements. */
    method Adapt()
      requires maintainer.Deciding?
      modifies this
      ensures View() == Next(old(View()), Decide)
    {
      var load := maintainer.load;
      var pool := Average(poolConnectionsSum);
      poolConnectionsSum := 0;
      maintainer := Ticking;
      var a, b, x, y := 4, 5, 3, 4.0;
      if config.aggressive { a, b, x, y := 1, 2, 0, 0.75; }
      if load + a > pool * b {
        newPoolSize := newPoolSize + 1;
        Dial();
      } else if (load + x) as real < pool as real * y && newPoolSize > config.connPoolSize {
        newPoolSize := newPoolSize - 1;
        maintainer := Pushing;
      }
    }

    /** A signal from the server, once counted, cancels a token or opens a tunnel. */
    method Answer()
      requires counted
      modifies this
      ensures View() == Next(old(View()), Serve)
    {
      signals := signals + 1;
      counted := false;
      if controlFlow > 0 { controlFlow := controlFlow - 1; } else { Dial(); }
    }

    method Fire(e: Event)
      modifies this
      ensures View() == Next(old(View()), e)
    {
      match e
      case Sample =>
        if maintainer.Ticking? && poolConnections >= 0 { poolConnectionsSum := poolConnectionsSum + poolConnections; }
      case Measure =>
        if maintainer.Ticking? { maintainer := Measured(Average(loadConnections)); }
      case Reset =>
        if maintainer.Measured? {
          maintainer := Deciding(maintainer.load);
          loadConnections := 0;
        }
      case Decide =>
        if maintainer.Deciding? { Adapt(); }
      case Push =>
        if maintainer.Pushing? && controlFlow < CONTROL_FLOW_SIZE {
          controlFlow := controlFlow + 1;
          maintainer := Ticking;
        }
      case Signal =>
        if !counted {
          loadConnections := loadConnections + 1;
          counted := true;
        }
      case Serve =>
        if counted { Answer(); }
      case Dialed(ok) =>
        if dialing > 0 {
          dialing := dialing - 1;
          if ok {
            pooled := pooled + 1;
            poolConnections := poolConnections + 1;
          } else {
            gone := gone + 1;
          }
        }
      case Leave =>
        if pooled > 0 {
          pooled := pooled - 1;
          gone := gone + 1;
          poolConnections := poolConnections - 1;
        }
    }
  }
}
