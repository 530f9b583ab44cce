/**
 The token bucket in front of ClickHouse. Tokens are counted in nanoseconds of credit, interval to a token, which makes
 the arithmetic exact; the code keeps the quotient as a floating-point number.
 */
module RateLimiter {
  import opened Arithmetic
  import opened Options

  const SECOND := 1_000_000_000
  const MILLISECOND := 1_000_000

  datatype Bucket = Bucket(interval: int, burst: int, credit: int, last: int)

  // newSendRateLimiter; no limiter at all for a rate of zero or less.
  function NewBucket(rps: int, burst: int, now: int): Option<Bucket> {
    if rps <= 0 then None
    else
      var b := if burst <= 0 then rps else burst;
      Some(Bucket(SECOND / rps, b, b * (SECOND / rps), now))
  }

  predicate Valid(b: Bucket) {
    b.interval > 0 && b.burst >= 1 && 0 <= b.credit <= b.burst * b.interval
  }

  function Refilled(b: Bucket, now: int): Bucket {
    var credit := b.credit + (now - b.last);
    var cap := b.burst * b.interval;
    b.(credit := if credit > cap then cap else credit, last := now)
  }

  // One stretch of Wait under the lock: refill, and take a token if there is one. A waiter that gets none sleeps with
  // the lock released and tries again, so every stretch of every waiter is one of these.
  function Try(b: Bucket, now: int): (Bucket, bool) {
    var r := Refilled(b, now);
    if r.credit >= r.interval then (r.(credit := r.credit - r.interval), true) else (r, false)
  }

  // What a waiter with too little credit sleeps.
  function SleepTime(b: Bucket): int {
    if b.interval - b.credit < MILLISECOND then MILLISECOND else b.interval - b.credit
  }

  // All the stretches, of any number of waiters, in the order they get the lock.
  function After(b: Bucket, times: seq<int>): Bucket {
    if times == [] then b else Try(After(b, times[..|times| - 1]), times[|times| - 1]).0
  }

  function Grants(b: Bucket, times: seq<int>): nat {
    if times == [] then 0
    else
      var pre := times[..|times| - 1];
      Grants(b, pre) + (if Try(After(b, pre), times[|times| - 1]).1 then 1 else 0)
  }

  // A clock that does not run backwards, not even behind the bucket's last reading.
  predicate Forward(times: seq<int>, from: int) {
    && (forall i | 0 <= i < |times| :: from <= times[i])
    && (forall i, j | 0 <= i < j < |times| :: times[i] <= times[j])
  }

  class Limiter {
    const interval: int
    const burst: int
    var credit: int
    var last: int

    ghost function View(): Bucket
      reads this
    {
      Bucket(interval, burst, credit, last)
    }

    constructor (b: Bucket)
      ensures View() == b
    {
      interval, burst, credit, last := b.interval, b.burst, b.credit, b.last;
    }

    // Wait for a waiter that has the bucket to itself and reads the clock at these times; it sleeps between two
    // readings.
    method Wait(clock: seq<int>) returns (granted: bool, readings: nat)
      requires Valid(View()) && Forward(clock, last)
      modifies this
      ensures readings <= |clock| && View() == After(old(View()), clock[..readings]) && Valid(View())
      ensures granted ==> readings > 0 && Grants(old(View()), clock[..readings]) == 1
      ensures !granted ==> readings == |clock| && Grants(old(View()), clock) == 0
    {
      hide After, Grants;
      granted, readings := false, 0;
      NothingTried(View());
      while readings < |clock| && !granted
        invariant 0 <= readings <= |clock| && (granted ==> readings > 0)
        invariant View() == After(old(View()), clock[..readings]) && Valid(View())
        invariant readings == 0 || last == clock[readings - 1]
        invariant readings == 0 ==> last == old(last)
        invariant Grants(old(View()), clock[..readings]) == if granted then 1 else 0
      {
        TriedNext(old(View()), clock, readings);
        assert Valid(View()) && last <= clock[readings];
        var now := clock[readings];
        credit := credit + (now - last);
        last := now;
        if credit > burst * interval {
          credit := burst * interval;
        }
        AtLeastOne(burst, interval);
        if credit >= interval {
          credit, granted := credit - interval, true;
        }
        readings := readings + 1;
      }
      assert clock[..|clock|] == clock;
    }
  }

  lemma NothingTried(b: Bucket)
    ensures After(b, []) == b && Grants(b, []) == 0
  {
  }

  lemma TriedNext(b: Bucket, clock: seq<int>, k: nat)
    requires k < |clock|
    ensures After(b, clock[..k + 1]) == Try(After(b, clock[..k]), clock[k]).0
    ensures Grants(b, clock[..k + 1])
         == Grants(b, clock[..k]) + (if Try(After(b, clock[..k]), clock[k]).1 then 1 else 0)
  {
    assert clock[..k + 1][..k] == clock[..k];
  }

  lemma AtLeastOne(burst: int, interval: int)
    requires burst >= 1 && interval > 0
    ensures burst * interval >= interval
  {
    assert (burst - 1) * interval >= 0;
  }

  lemma TryKeeps(b: Bucket, now: int)
    requires Valid(b) && b.last <= now
    ensures var (t, granted) := Try(b, now);
            && Valid(t) && t.last == now && t.interval == b.interval && t.burst == b.burst
            && t.credit + (if granted then b.interval else 0) <= b.credit + (now - b.last)
            && t.credit + (if granted then b.interval else 0) <= b.burst * b.interval
  {
    AtLeastOne(b.burst, b.interval);
  }

  // Credit is conserved: what is granted and what is left was there or has come in since the first reading.
  lemma {:induction false} CreditBound(b: Bucket, times: seq<int>)
    requires Valid(b) && Forward(times, b.last)
    ensures var t := After(b, times);
            && Valid(t) && t.interval == b.interval && t.burst == b.burst
            && t.last == (if times == [] then b.last else times[|times| - 1])
            && (times != [] ==>
                  Grants(b, times) * b.interval + t.credit
                  <= b.burst * b.interval + (times[|times| - 1] - times[0]))
  {
    if times != [] {
      var pre, now := times[..|times| - 1], times[|times| - 1];
      CreditBound(b, pre);
      var before := After(b, pre);
      TryKeeps(before, now);
      var g := Grants(b, pre);
      assert (g + 1) * b.interval == g * b.interval + b.interval;
      if pre == [] {
        assert g * b.interval == 0;
      }
    }
  }

  /**
   The rate limit: from any state of the bucket, over any stretch of time and any number of waiters, at most
   burst + T / interval tokens are granted, and the credit never leaves the range from nothing to a full bucket.
   */
  lemma RateBound(b: Bucket, times: seq<int>)
    requires Valid(b) && times != [] && Forward(times, b.last)
    ensures Grants(b, times) <= b.burst + (times[|times| - 1] - times[0]) / b.interval
    ensures 0 <= After(b, times).credit <= b.burst * b.interval
  {
    CreditBound(b, times);
    GrantsFit(Grants(b, times), b.burst, b.interval, times[|times| - 1] - times[0]);
  }

  lemma GrantsFit(g: nat, burst: int, interval: int, span: int)
    requires interval > 0 && span >= 0 && g * interval <= burst * interval + span
    ensures g <= burst + span / interval
  {
    var q, r := span / interval, span % interval;
    assert (g - burst) * interval <= span;
    if g - burst > q {
      NextMultiple(q, g - burst, interval);
    }
  }

  /**
   A waiter that gets no token and has no competitor gets one after a single sleep, if the sleep is not short; the code
   computes it by a floating-point product, which can come out a little short, and then a second sleep is enough.
   */
  lemma SleepsAreEnough(b: Bucket, now: int, short: int, second: int, third: int)
    requires Valid(b) && b.last <= now && !Try(b, now).1 && 0 <= short <= MILLISECOND
    requires second >= now + SleepTime(Try(b, now).0) - short && third >= second + MILLISECOND
    ensures short == 0 ==> Try(Try(b, now).0, second).1
    ensures Try(Try(b, now).0, second).1 || Try(Try(Try(b, now).0, second).0, third).1
  {
    AtLeastOne(b.burst, b.interval);
  }

  /** A full bucket grants its burst at once, and no more until time passes. */
  lemma {:induction false} BurstAtOnce(b: Bucket, now: int, n: nat)
    requires Valid(b) && b.credit == b.burst * b.interval && b.last <= now
    ensures Grants(b, seq(n, _ => now)) == if n < b.burst then n else b.burst
    ensures n > 0 ==> After(b, seq(n, _ => now)).last == now
    ensures var t := After(b, seq(n, _ => now));
            && t.credit == (if n < b.burst then b.burst - n else 0) * b.interval
            && t.interval == b.interval && t.burst == b.burst && Valid(t) && t.last <= now
  {
    if n > 0 {
      var times, pre := seq(n, _ => now), seq(n - 1, _ => now);
      assert times[..n - 1] == pre;
      BurstAtOnce(b, now, n - 1);
      OneOfBurst(After(b, pre), now, if n - 1 < b.burst then b.burst - (n - 1) else 0);
    }
  }

  // One try at a moment when the bucket holds this many tokens.
  lemma OneOfBurst(b: Bucket, now: int, left: nat)
    requires Valid(b) && b.credit == left * b.interval && left <= b.burst
    requires b.last == now || (left == b.burst && b.last <= now)
    ensures var (t, granted) := Try(b, now);
            && (granted <==> left > 0) && t.last == now && t.interval == b.interval && t.burst == b.burst && Valid(t)
            && t.credit == (if left > 0 then left - 1 else 0) * b.interval
  {
    AtLeastOne(b.burst, b.interval);
    if left > 0 {
      AtLeastOne(left, b.interval);
      assert left * b.interval - b.interval == (left - 1) * b.interval;
    }
    assert left == b.burst || b.last == now;
    TryKeeps(b, now);
  }

  /** A waiter sleeps a millisecond at least, and otherwise no longer than it has to. */
  lemma SleepIsLeast(b: Bucket, now: int, later: int)
    requires Valid(b) && b.last <= now && !Try(b, now).1 && later >= now + 1_000_000
    ensures SleepTime(Try(b, now).0) >= 1_000_000
    ensures Try(Try(b, now).0, later).1 <==> later >= now + SleepTime(Try(b, now).0)
  {
    AtLeastOne(b.burst, b.interval);
  }

  /** A configured limiter is valid for every rate up to one per nanosecond; its rate per second is never below rps. */
  lemma NewBucketValid(rps: int, burst: int, now: int)
    requires 1 <= rps <= SECOND
    ensures NewBucket(rps, burst, now).Some? && Valid(NewBucket(rps, burst, now).value)
    ensures var b := NewBucket(rps, burst, now).value;
            && SECOND / b.interval >= rps && b.burst == (if burst <= 0 then rps else burst) && b.last == now
            && b.credit == b.burst * b.interval
  {
    var q := SECOND / rps;
    DivideBoth(1, rps, SECOND);
    assert rps * q <= SECOND;
    var b := if burst <= 0 then rps else burst;
    AtLeastOne(b, q);
    DivideBoth(rps, q, SECOND);
  }

  /**
   The interval is rounded down, so the limiter never holds back more than asked; it keeps exactly to rps tokens a
   second if and only if rps divides a second.
   */
  lemma RateIsExact(rps: int, burst: int, now: int)
    requires 1 <= rps <= SECOND
    ensures NewBucket(rps, burst, now).Some?
    ensures var interval := NewBucket(rps, burst, now).value.interval;
            rps * interval <= SECOND && (rps * interval == SECOND <==> SECOND % rps == 0)
  {
    var q, r := SECOND / rps, SECOND % rps;
    assert SECOND == rps * q + r;
  }
}
