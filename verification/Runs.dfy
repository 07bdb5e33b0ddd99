/** Runs of a state machine: what their events have brought about, in which order a queue hands
    over what it receives, and how a quantity adds up. */
module Runs {

  function Exec<S, E>(next: (S, E) -> S, s: S, es: seq<E>): S
    decreases |es|
  {
    if es == [] then s else Exec(next, next(s, es[0]), es[1..])
  }

  lemma {:induction false} ExecLast<S, E>(next: (S, E) -> S, s: S, es: seq<E>)
    requires es != []
    ensures Exec(next, s, es) == next(Exec(next, s, es[..|es| - 1]), es[|es| - 1])
    decreases |es|
  {
    if |es| == 1 {
      assert es[1..] == [] && es[..0] == [];
    } else {
      ExecLast(next, next(s, es[0]), es[1..]);
      assert es[1..][..|es| - 2] == es[..|es| - 1][1..];
    }
  }

  /** Some event of the run did it, in the state that it met. */
  ghost predicate Befell<S, E>(next: (S, E) -> S, s: S, es: seq<E>, does: (S, E) -> bool) {
    exists k :: 0 <= k < |es| && does(Exec(next, s, es[..k]), es[k])
  }

  lemma BefellLast<S, E>(next: (S, E) -> S, s: S, es: seq<E>, does: (S, E) -> bool)
    requires es != []
    ensures var n := |es| - 1;
      Befell(next, s, es, does) <==> Befell(next, s, es[..n], does) || does(Exec(next, s, es[..n]), es[n])
  {
    var before := es[..|es| - 1];
    assert forall k :: 0 <= k < |before| ==> before[..k] == es[..k] && before[k] == es[k];
  }

  /** What a state shows exactly when it showed it before or the last event did it, it shows exactly
      when some event did it. */
  lemma {:induction false} History<S, E>(
    next: (S, E) -> S, s: S, es: seq<E>, inv: S -> bool, shows: S -> bool, does: (S, E) -> bool)
    requires inv(s) && !shows(s)
    requires forall t: S, e: E :: inv(t) ==> inv(next(t, e)) && (shows(next(t, e)) <==> shows(t) || does(t, e))
    ensures inv(Exec(next, s, es)) && (shows(Exec(next, s, es)) <==> Befell(next, s, es, does))
    decreases |es|
  {
    if es == [] {
    } else {
      History(next, s, es[..|es| - 1], inv, shows, does);
      ExecLast(next, s, es);
      BefellLast(next, s, es, does);
    }
  }

  /** The event k of the run did it, and none since has undone it. */
  ghost predicate LastDone<S, E>(
    next: (S, E) -> S, s: S, es: seq<E>, does: (S, E) -> bool, undoes: (S, E) -> bool, k: int)
  {
    && 0 <= k < |es| && does(Exec(next, s, es[..k]), es[k])
    && forall j :: k < j < |es| ==> !undoes(Exec(next, s, es[..j]), es[j])
  }

  ghost predicate DoneLast<S, E>(
    next: (S, E) -> S, s: S, es: seq<E>, does: (S, E) -> bool, undoes: (S, E) -> bool)
  {
    exists k :: LastDone(next, s, es, does, undoes, k)
  }

  /** What a state shows only if the last event did it, or if it showed it before and the last event
      did not undo it. */
  lemma {:induction false} Latest<S, E>(
    next: (S, E) -> S, s: S, es: seq<E>, inv: S -> bool, shows: S -> bool,
    does: (S, E) -> bool, undoes: (S, E) -> bool)
    requires inv(s) && !shows(s)
    requires forall t: S, e: E :: inv(t) ==>
      inv(next(t, e)) && (shows(next(t, e)) ==> does(t, e) || (shows(t) && !undoes(t, e)))
    ensures inv(Exec(next, s, es))
    ensures shows(Exec(next, s, es)) ==> DoneLast(next, s, es, does, undoes)
    decreases |es|
  {
    if es == [] {
    } else {
      var n := |es| - 1;
      var before := es[..n];
      Latest(next, s, before, inv, shows, does, undoes);
      ExecLast(next, s, es);
      if shows(Exec(next, s, es)) {
        if does(Exec(next, s, before), es[n]) {
          assert LastDone(next, s, es, does, undoes, n);
        } else {
          var k :| LastDone(next, s, before, does, undoes, k);
          assert forall j :: 0 <= j < n ==> before[..j] == es[..j] && before[j] == es[j];
          assert LastDone(next, s, es, does, undoes, k);
        }
      }
    }
  }

  /** What the events of a run put out, in order. */
  function Trace<S, E, C>(next: (S, E) -> S, s: S, es: seq<E>, out: (S, E) -> seq<C>): seq<C>
    decreases |es|
  {
    if es == [] then [] else out(s, es[0]) + Trace(next, next(s, es[0]), es[1..], out)
  }

  /** A queue at whose end every step puts what it puts, and from whose front it gets what it gets,
      hands over over a whole run what it held and received, in that order. */
  lemma {:induction false} Fifo<S, E, C>(
    next: (S, E) -> S, s: S, es: seq<E>, inv: S -> bool, queue: S -> seq<C>,
    put: (S, E) -> seq<C>, got: (S, E) -> seq<C>)
    requires inv(s)
    requires forall t: S, e: E :: inv(t) ==> inv(next(t, e)) && queue(t) + put(t, e) == got(t, e) + queue(next(t, e))
    ensures queue(s) + Trace(next, s, es, put) == Trace(next, s, es, got) + queue(Exec(next, s, es))
    decreases |es|
  {
    if es == [] {
    } else {
      var s', rest := next(s, es[0]), es[1..];
      Fifo(next, s', rest, inv, queue, put, got);
      var p, g := put(s, es[0]), got(s, es[0]);
      var ps, gs := Trace(next, s', rest, put), Trace(next, s', rest, got);
      assert queue(s) + (p + ps) == (queue(s) + p) + ps == g + (queue(s') + ps);
      assert g + (gs + queue(Exec(next, s', rest))) == (g + gs) + queue(Exec(next, s', rest));
    }
  }

  /** The sum of what the events of a run add. */
  function Tally<S, E>(next: (S, E) -> S, s: S, es: seq<E>, amount: (S, E) -> int): int
    decreases |es|
  {
    if es == [] then 0 else amount(s, es[0]) + Tally(next, next(s, es[0]), es[1..], amount)
  }

  lemma {:induction false} Tallies<S, E>(
    next: (S, E) -> S, s: S, es: seq<E>, inv: S -> bool, value: S -> int, amount: (S, E) -> int)
    requires inv(s)
    requires forall t: S, e: E :: inv(t) ==> inv(next(t, e)) && value(next(t, e)) == value(t) + amount(t, e)
    ensures value(Exec(next, s, es)) == value(s) + Tally(next, s, es, amount)
    decreases |es|
  {
    if es == [] {
    } else {
      Tallies(next, next(s, es[0]), es[1..], inv, value, amount);
    }
  }
}
