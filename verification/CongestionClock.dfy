/** The congestion test of the UDP-over-TCP transport: the client stamps a packet with its
    clock modulo ten minutes, the server subtracts the stamp from its own clock modulo ten
    minutes and compares with three round-trip times. */
module CongestionClock {

  const WINDOW := 10 * 60 * 1000 // milliseconds

  /** lastMillis on the client.  Both clocks count milliseconds since 1970. */
  function Stamp(sent: nat): nat { sent % WINDOW }

  function Age(stamp: nat, now: nat): int { now % WINDOW - stamp }

  /** An unknown round-trip time counts as 100 ms. */
  function EffectiveRtt(rtt: nat): nat { if rtt == 0 then 100 else rtt }

  predicate Flagged(stamp: nat, now: nat, rtt: nat) { Age(stamp, now) > 3 * EffectiveRtt(rtt) }

  /** Window boundaries passed between sending and receiving. */
  function Crossings(sent: nat, now: nat): int { now / WINDOW - sent / WINDOW }

  /** The thresholds in milliseconds: 300 when the round-trip time is not known, else three times it. */
  lemma Thresholds(stamp: nat, now: nat, rtt: nat)
    ensures Flagged(stamp, now, 0) <==> now % 600_000 - stamp > 300
    ensures rtt > 0 ==> (Flagged(stamp, now, rtt) <==> now % 600_000 - stamp > 3 * rtt)
  {
  }

  /** On a common clock the computed age is the delay less one window per boundary crossed. */
  lemma AgeOfDelay(sent: nat, delay: nat)
    ensures Crossings(sent, sent + delay) >= 0
    ensures Age(Stamp(sent), sent + delay) == delay - WINDOW * Crossings(sent, sent + delay)
  {
    assert sent == WINDOW * (sent / WINDOW) + sent % WINDOW;
    assert sent + delay == WINDOW * ((sent + delay) / WINDOW) + (sent + delay) % WINDOW;
  }

  /** The test has no false positives, for any delay; its false negatives are exactly the late
      packets whose excess is hidden by the windows crossed. */
  lemma FlagMeansLate(sent: nat, delay: nat, rtt: nat)
    ensures Flagged(Stamp(sent), sent + delay, rtt) ==> delay > 3 * EffectiveRtt(rtt)
    ensures delay > 3 * EffectiveRtt(rtt) && !Flagged(Stamp(sent), sent + delay, rtt)
            <==> 3 * EffectiveRtt(rtt) < delay <= 3 * EffectiveRtt(rtt) + WINDOW * Crossings(sent, sent + delay)
  {
    AgeOfDelay(sent, delay);
  }

  /** One window boundary crossed: a delay of a second is missed, one of 700 seconds is not. */
  lemma MissedAtBoundary()
    ensures Crossings(599_999, 600_999) == 1 && 1000 > 3 * EffectiveRtt(100) && !Flagged(Stamp(599_999), 600_999, 100)
    ensures Crossings(0, 700_000) == 1 && Flagged(Stamp(0), 700_000, 100)
  {
  }

  /** Within one window the test is exact. */
  lemma ExactWithinWindow(sent: nat, delay: nat, rtt: nat)
    requires sent / WINDOW == (sent + delay) / WINDOW
    ensures Flagged(Stamp(sent), sent + delay, rtt) <==> delay > 3 * EffectiveRtt(rtt)
  {
    AgeOfDelay(sent, delay);
  }

  /** The test can fire at all exactly when three round-trip times are below the largest age. */
  lemma CanFlag(rtt: nat)
    ensures (exists sent: nat, now: nat :: sent <= now && Flagged(Stamp(sent), now, rtt))
       <==> 3 * EffectiveRtt(rtt) < WINDOW - 1
  {
    if 3 * EffectiveRtt(rtt) < WINDOW - 1 {
      assert Flagged(Stamp(0), WINDOW - 1, rtt);
    }
  }
}
