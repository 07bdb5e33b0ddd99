/** Which connections of the mux scheduler can still be relayed. */
module MuxProgress {
  import opened Conns
  import opened MuxScheduler
  import opened MuxHistory
  import opened Options
  import opened Tables

  /** The continuation, whose clock readings begin at t, relays the connection. */
  predicate RelayedAfter(s: State, later: seq<Event>, c: Conn, t: int) {
    Timely(later, t) && Relayed(Exec(s, later), c)
  }

  // ---- Never ----

  /** The connection is given up for its age, or will be at its next check. */
  predicate Hopeless(s: State, c: Conn, t: int) {
    c in s.accepted && (GivenUp(s, c) || (!Trusted(s, c) && t > c.timeCreated + 3000))
  }

  lemma GivenUpOnly(s: State, c: Conn)
    requires Conserved(s, c) && GivenUp(s, c)
    ensures !Trusted(s, c)
  {
    if Trusted(s, c) {
      if c in s.expired {
        Occurs(s.expired, c);
        if c in s.finished {
          Occurs(s.finished, c);
        } else {
          var i :| 0 <= i < |s.sessions| && TrustedIn(s.sessions[i], c);
          if c in s.sessions[i].live { Occurs(s.sessions[i].live, c); }
          SumMember(s.sessions, i, CopiesOf(c));
        }
        assert false;
      } else {
        var i :| 0 <= i < |s.sessions| && Expires(s.sessions[i], c);
        TrustedOnly(s, c, i);
        assert false;
      }
    }
  }

  lemma HopelessNext(s: State, e: Event, c: Conn, t: int)
    requires Inv(s) && Conserved(s, c) && Hopeless(s, c, t) && (Reading(e).Some? ==> Reading(e).value >= t)
    ensures Hopeless(Next(s, e), c, t)
  {
    InvNext(s, e, c);
    GivenUpNext(s, e, c);
    TrustedNext(s, e, c);
    if GivenUp(s, c) { GivenUpOnly(s, c); }
  }

  lemma {:induction false} TimelyEarlier(es: seq<Event>, t: int, t': int)
    requires Timely(es, t) && t' <= t
    ensures Timely(es, t')
    decreases |es|
  {
    if es == [] {
    } else if Reading(es[0]).None? {
      TimelyEarlier(es[1..], t, t');
    }
  }

  lemma {:induction false} HopelessForever(s: State, es: seq<Event>, c: Conn, t: int)
    requires Inv(s) && Conserved(s, c) && Hopeless(s, c, t) && Timely(es, t)
    ensures !Relayed(Exec(s, es), c)
    decreases |es|
  {
    if es == [] {
      if GivenUp(s, c) { GivenUpOnly(s, c); }
      assert Relayed(s, c) ==> Trusted(s, c);
    } else {
      HopelessNext(s, es[0], c, t);
      InvNext(s, es[0], c);
      if Reading(es[0]).Some? { TimelyEarlier(es[1..], Reading(es[0]).value, t); }
      HopelessForever(Next(s, es[0]), es[1..], c, t);
    }
  }

  // ---- Eventually ----

  /** Nothing but an age that the check at this time accepts is needed. */
  predicate Sound(s: State, c: Conn, now: int) {
    Shaped(s) && s.muxCon > 0 && s.channelSize > 0 && now <= c.timeCreated + 3000
  }

  lemma ExecOne(s: State, e: Event)
    ensures Exec(s, [e]) == Next(s, e)
  {
    assert [e][1..] == [];
  }

  /** The operations between opening the stream and the relay succeed. */
  lemma RelayOpened(s: State, i: nat, c: Conn) returns (later: seq<Event>)
    requires Shaped(s) && i < |s.sessions| && s.sessions[i].incoming == Some(c)
    requires s.sessions[i].phase.Opening? || s.sessions[i].phase.Sending?
    ensures (forall e :: e in later ==> Reading(e) == None) && Relayed(Exec(s, later), c)
  {
    if s.sessions[i].phase.Sending? {
      later := [At(i, SendAddress(true))];
      ExecOne(s, At(i, SendAddress(true)));
      assert c in Next(s, At(i, SendAddress(true))).sessions[i].live;
    } else {
      var s1 := Next(s, At(i, OpenStream(true)));
      later := [At(i, OpenStream(true))] + [At(i, SendAddress(true))];
      ExecCons(s, At(i, OpenStream(true)), [At(i, SendAddress(true))]);
      ExecOne(s1, At(i, SendAddress(true)));
      assert c in Next(s1, At(i, SendAddress(true))).sessions[i].live;
    }
  }

  lemma RelayJudged(s: State, i: nat, c: Conn, now: int) returns (later: seq<Event>)
    requires Sound(s, c, now) && i < |s.sessions| && s.sessions[i].incoming == Some(c) && s.sessions[i].phase.Judging?
    ensures AllAt(later, now) && Relayed(Exec(s, later), c)
  {
    var e := At(i, Judge(now));
    ShapedNext(s, e);
    var rest := RelayOpened(Next(s, e), i, c);
    later := [e] + rest;
    ExecCons(s, e, rest);
  }

  /** A new session takes the head of the queue. */
  lemma TakeHead(s: State, now: int) returns (es: seq<Event>)
    requires Shaped(s) && s.muxCon > 0 && s.localChannel != []
    ensures AllAt(es, now)
    ensures var s' := Exec(s, es); var j := |s.sessions|;
      && Shaped(s') && s'.muxCon == s.muxCon && s'.channelSize == s.channelSize
      && s'.localChannel == s.localChannel[1..] && |s'.sessions| == j + 1 && s'.sessions[..j] == s.sessions
      && s'.sessions[j].phase.Judging? && s'.sessions[j].incoming == Some(s.localChannel[0])
  {
    var j := |s.sessions|;
    var s1 := Next(s, StartSession);
    var s2 := Next(s1, At(j, CountSession));
    var s3 := Next(s2, At(j, Acquire));
    es := [StartSession] + ([At(j, CountSession)] + ([At(j, Acquire)] + [At(j, Take)]));
    ExecCons(s, StartSession, [At(j, CountSession)] + ([At(j, Acquire)] + [At(j, Take)]));
    ExecCons(s1, At(j, CountSession), [At(j, Acquire)] + [At(j, Take)]);
    ExecCons(s2, At(j, Acquire), [At(j, Take)]);
    ExecOne(s3, At(j, Take));
    ShapedNext(s, StartSession);
    ShapedNext(s1, At(j, CountSession));
    ShapedNext(s2, At(j, Acquire));
    ShapedNext(s3, At(j, Take));
  }

  lemma {:induction false} RelayQueued(s: State, p: nat, c: Conn, now: int) returns (later: seq<Event>)
    requires Sound(s, c, now) && p < |s.localChannel| && s.localChannel[p] == c
    ensures AllAt(later, now) && Relayed(Exec(s, later), c)
    decreases p
  {
    var take := TakeHead(s, now);
    var s' := Exec(s, take);
    var rest;
    if p == 0 { rest := RelayJudged(s', |s.sessions|, c, now); } else { rest := RelayQueued(s', p - 1, c, now); }
    later := take + rest;
    ExecAppend(s, take, rest);
  }

  /** A session that has failed with the connection gives it back as soon as there is room. */
  lemma RelayReturned(s: State, i: nat, c: Conn, now: int) returns (later: seq<Event>)
    requires Sound(s, c, now) && i < |s.sessions| && s.sessions[i].incoming == Some(c)
    requires s.sessions[i].phase.Returning? || s.sessions[i].phase.Surrendering?
    ensures AllAt(later, now) && Relayed(Exec(s, later), c)
  {
    var room := [];
    if |s.localChannel| == s.channelSize { room := TakeHead(s, now); }
    var s1 := Exec(s, room);
    assert s1.sessions[i] == s.sessions[i];
    var e := At(i, if s.sessions[i].phase.Returning? then PushBack else GiveUp);
    var s2 := Next(s1, e);
    ShapedNext(s1, e);
    assert s2.localChannel[|s1.localChannel|] == c;
    var rest := RelayQueued(s2, |s1.localChannel|, c, now);
    later := room + ([e] + rest);
    ExecAppend(s, room, [e] + rest);
    ExecCons(s1, e, rest);
  }

  lemma RelayHeld(s: State, i: nat, c: Conn, now: int) returns (later: seq<Event>)
    requires Sound(s, c, now) && i < |s.sessions| && s.sessions[i].incoming == Some(c) && !Expires(s.sessions[i], c)
    ensures AllAt(later, now) && Relayed(Exec(s, later), c)
  {
    var p := s.sessions[i].phase;
    assert SessionOk(s.sessions[i], s.muxCon, s.cancelled);
    if p.Judging? {
      later := RelayJudged(s, i, c, now);
    } else if p.Opening? || p.Sending? {
      later := RelayOpened(s, i, c);
    } else if p.Failing? {
      var e := At(i, CountFailure);
      ShapedNext(s, e);
      var rest := RelayReturned(Next(s, e), i, c, now);
      later := [e] + rest;
      ExecCons(s, e, rest);
    } else {
      later := RelayReturned(s, i, c, now);
    }
  }

  /** An accepted connection is in one of these places. */
  lemma Somewhere(s: State, c: Conn)
    requires Conserved(s, c) && c in s.accepted
    ensures c in s.localChannel || Relayed(s, c) || GivenUp(s, c)
            || exists i :: 0 <= i < |s.sessions| && s.sessions[i].incoming == Some(c)
  {
    if c !in s.localChannel { Absent(s.localChannel, c); }
    if c !in s.expired { Absent(s.expired, c); }
    if c !in s.finished { Absent(s.finished, c); }
    if forall i :: 0 <= i < |s.sessions| ==> s.sessions[i].incoming != Some(c) && c !in s.sessions[i].live {
      forall i | 0 <= i < |s.sessions| ensures CopiesOf(c)(s.sessions[i]) == 0 { Absent(s.sessions[i].live, c); }
      SumZero(s.sessions, CopiesOf(c));
    }
  }

  lemma Absent(cs: seq<Conn>, c: Conn)
    requires c !in cs
    ensures Sum(cs, Is(c)) == 0
  {
    SumZero(cs, Is(c));
  }

  lemma RelayLaterOn(s: State, c: Conn, now: int) returns (later: seq<Event>)
    requires Inv(s) && Conserved(s, c) && s.muxCon > 0 && s.channelSize > 0 && c in s.accepted && !Hopeless(s, c, now)
    ensures RelayedAfter(s, later, c, now)
  {
    Somewhere(s, c);
    if Relayed(s, c) {
      later := [];
    } else if now <= c.timeCreated + 3000 {
      if c in s.localChannel {
        var p :| 0 <= p < |s.localChannel| && s.localChannel[p] == c;
        later := RelayQueued(s, p, c, now);
      } else {
        var i :| 0 <= i < |s.sessions| && s.sessions[i].incoming == Some(c);
        later := RelayHeld(s, i, c, now);
      }
    } else {
      var i :| 0 <= i < |s.sessions| && TrustedIn(s.sessions[i], c);
      later := RelayOpened(s, i, c);
    }
    AllAtTimely(later, now);
  }

  /** From every reachable state before a cancellation, whatever time it is: an accepted connection
      is relayed in some continuation with clock readings from then on if and only if it is not
      given up for its age and either has passed its check or would pass it now. */
  lemma RelayedUnlessOverdue(
    channelSize: nat, muxCon: nat, acceptors: nat, es: seq<Event>, c: Conn, now: int)
    requires channelSize > 0 && muxCon > 0
    requires var s := Reached(channelSize, muxCon, acceptors, es); !s.cancelled && c in s.accepted
    ensures var s := Reached(channelSize, muxCon, acceptors, es);
      (exists later :: RelayedAfter(s, later, c, now)) <==>
      !GivenUp(s, c) && (Trusted(s, c) || now <= c.timeCreated + 3000)
  {
    var s := Reached(channelSize, muxCon, acceptors, es);
    InvReached(channelSize, muxCon, acceptors, es, c);
    if Hopeless(s, c, now) {
      forall later
        ensures !RelayedAfter(s, later, c, now)
      {
        if Timely(later, now) { HopelessForever(s, later, c, now); }
      }
    } else {
      var later := RelayLaterOn(s, c, now);
      assert RelayedAfter(s, later, c, now);
    }
  }
}
