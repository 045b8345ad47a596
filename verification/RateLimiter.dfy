/**
 * The per-connection token bucket that bounds inbound frames, with reals in
 * place of `f64` and the clock passed in. What a stretch of time earns is kept
 * as a function of its ends, so that the window argument needs only that
 * earnings add up; `At(rate)` is the limiter's own earning function.
 */
module RateLimiter {

  type Earning = (real, real) -> real

  datatype Bucket = Bucket(capacity: real, tokens: real, last: real)

  /** A clock that went backwards earns nothing. */
  function At(rate: real): Earning {
    (x: real, y: real) => if y < x then 0.0 else (y - x) * rate
  }

  ghost predicate Additive(earn: Earning) {
    && (forall x, y :: earn(x, y) >= 0.0)
    && (forall x, y, z :: x <= y <= z ==> earn(x, y) + earn(y, z) == earn(x, z))
  }

  ghost predicate Valid(b: Bucket) {
    b.capacity >= 1.0 && 0.0 <= b.tokens <= b.capacity
  }

  /** The configured rate, at least one, is both the capacity and the refill per second. */
  function Rate(ratePerSec: nat): real {
    if ratePerSec == 0 then 1.0 else ratePerSec as real
  }

  function Full(ratePerSec: nat, now: real): Bucket {
    Bucket(Rate(ratePerSec), Rate(ratePerSec), now)
  }

  function Refilled(earn: Earning, b: Bucket, now: real): Bucket {
    var filled := b.tokens + earn(b.last, now);
    b.(tokens := if filled < b.capacity then filled else b.capacity, last := now)
  }

  predicate Admits(earn: Earning, b: Bucket, now: real) {
    Refilled(earn, b, now).tokens >= 1.0
  }

  function Acquired(earn: Earning, b: Bucket, now: real): Bucket {
    var r := Refilled(earn, b, now);
    if Admits(earn, b, now) then r.(tokens := r.tokens - 1.0) else r
  }

  class InboundRateLimiter {
    const capacity: real
    const refillPerSec: real
    var tokens: real
    var lastRefill: real

    ghost function View(): Bucket reads this {
      Bucket(capacity, tokens, lastRefill)
    }

    constructor (ratePerSec: nat, now: real)
      ensures View() == Full(ratePerSec, now) && Valid(View()) && refillPerSec == Rate(ratePerSec)
      ensures refillPerSec == capacity == tokens == (if ratePerSec > 1 then ratePerSec as real else 1.0) && lastRefill == now
    {
      var c := if ratePerSec == 0 then 1.0 else ratePerSec as real;
      capacity, tokens, refillPerSec, lastRefill := c, c, c, now;
    }

    method TryAcquire(now: real) returns (ok: bool)
      requires Valid(View()) && refillPerSec >= 0.0
      modifies this
      ensures Valid(View())
      ensures ok == Admits(At(refillPerSec), old(View()), now)
      ensures View() == Acquired(At(refillPerSec), old(View()), now)
      // Written out: refilled for the time since the last call, up to the capacity, and one token taken if there is one.
      ensures var filled := old(tokens) + (if now < old(lastRefill) then 0.0 else now - old(lastRefill)) * refillPerSec;
              && (ok <==> filled >= 1.0)
              && tokens == (if filled < capacity then filled else capacity) - (if ok then 1.0 else 0.0)
              && lastRefill == now
    {
      EarningsAddUp(refillPerSec);
      var elapsed := if now < lastRefill then 0.0 else now - lastRefill;
      assert elapsed * refillPerSec == At(refillPerSec)(lastRefill, now);
      var filled := tokens + elapsed * refillPerSec;
      tokens := if filled < capacity then filled else capacity;
      lastRefill := now;
      if tokens >= 1.0 {
        tokens := tokens - 1.0;
        return true;
      }
      return false;
    }
  }

  lemma EarningsAddUp(rate: real)
    requires rate >= 0.0
    ensures Additive(At(rate))
  {
    var earn := At(rate);
    forall x, y ensures earn(x, y) >= 0.0 {
    }
    forall x, y, z | x <= y <= z ensures earn(x, y) + earn(y, z) == earn(x, z) {
      assert (y - x) * rate + (z - y) * rate == (z - x) * rate;
    }
  }

  // ---------------------------------------------------------------- whole runs

  /** The bucket after a sequence of calls at the given times. */
  function After(earn: Earning, b: Bucket, times: seq<real>): Bucket {
    if times == [] then b else Acquired(earn, After(earn, b, times[..|times| - 1]), times[|times| - 1])
  }

  /** Frames admitted by the calls `from..to` of a run. */
  function Accepted(earn: Earning, b: Bucket, times: seq<real>, from: nat, to: nat): nat
    requires from <= to <= |times|
  {
    if from == to then 0
    else
      Accepted(earn, b, times, from, to - 1) + (if Admits(earn, After(earn, b, times[..to - 1]), times[to - 1]) then 1 else 0)
  }

  ghost predicate NonDecreasing(times: seq<real>) {
    forall i, j :: 0 <= i < j < |times| ==> times[i] <= times[j]
  }

  /** Tokens stay between zero and the capacity, whatever the clock does. */
  lemma {:induction false} TokensStayInRange(earn: Earning, b: Bucket, times: seq<real>)
    requires Valid(b) && Additive(earn)
    ensures Valid(After(earn, b, times)) && After(earn, b, times).capacity == b.capacity
    ensures times != [] ==> After(earn, b, times).last == times[|times| - 1]
  {
    if times != [] {
      TokensStayInRange(earn, b, times[..|times| - 1]);
    }
  }

  /** What a rate earns over a length of time. */
  function Earned(rate: real, length: real): real {
    length * rate
  }

  lemma EarnedAt(rate: real, opens: real, closes: real)
    requires opens <= closes
    ensures At(rate)(opens, closes) == Earned(rate, closes - opens)
  {
  }

  // ---------------------------------------------------------------- when a frame must be admitted

  /** A call is admitted exactly when what is left and what was earned since the last call make a whole token. */
  lemma AdmitsExactly(rate: real, b: Bucket, now: real)
    requires Valid(b) && b.last <= now
    ensures Admits(At(rate), b, now) <==> b.tokens + Earned(rate, now - b.last) >= 1.0
  {
    EarnedAt(rate, b.last, now);
  }

  /**
   * Since the bucket was last full, at some moment `since` just before call
   * `first`, it holds its capacity and what it earned, less what it admitted.
   */
  lemma {:induction false} SinceLastFull(earn: Earning, b: Bucket, times: seq<real>, n: nat) returns (since: real, first: nat)
    requires Valid(b) && b.tokens == b.capacity && Additive(earn) && NonDecreasing(times) && n <= |times|
    requires times != [] ==> b.last <= times[0]
    ensures first <= n && b.last <= since <= After(earn, b, times[..n]).last
    ensures After(earn, b, times[..n]).last == if n == 0 then b.last else times[n - 1]
    ensures After(earn, b, times[..n]).tokens
         == b.capacity + earn(since, After(earn, b, times[..n]).last) - Accepted(earn, b, times, first, n) as real
  {
    if n == 0 {
      since, first := b.last, 0;
      assert earn(b.last, b.last) + earn(b.last, b.last) == earn(b.last, b.last);
    } else {
      since, first := SinceLastFull(earn, b, times, n - 1);
      var before, now := After(earn, b, times[..n - 1]), times[n - 1];
      assert times[..n][..n - 1] == times[..n - 1];
      TokensStayInRange(earn, b, times[..n - 1]);
      assert n > 1 ==> times[n - 2] <= now;
      assert n > 1 ==> times[0] <= now;
      assert earn(since, before.last) + earn(before.last, now) == earn(since, now);
      if before.tokens + earn(before.last, now) >= before.capacity {
        since, first := now, n - 1;
        assert earn(now, now) + earn(now, now) == earn(now, now);
        assert Accepted(earn, b, times, n - 1, n - 1) == 0;
      }
    }
  }

  /**
   * A frame is refused only when admitting it would exceed the window bound: in
   * a limiter started full there is a window, closing with the refused call,
   * whose admitted frames plus this one are more than capacity plus earnings.
   */
  lemma RefusedOnlyAtTheBound(earn: Earning, b: Bucket, times: seq<real>, n: nat) returns (since: real, first: nat)
    requires Valid(b) && b.tokens == b.capacity && Additive(earn) && NonDecreasing(times) && n < |times| && b.last <= times[0]
    requires !Admits(earn, After(earn, b, times[..n]), times[n])
    ensures first <= n && b.last <= since <= times[n]
    ensures Accepted(earn, b, times, first, n) as real + 1.0 > b.capacity + earn(since, times[n])
  {
    since, first := SinceLastFull(earn, b, times, n);
    TokensStayInRange(earn, b, times[..n]);
    var before := After(earn, b, times[..n]);
    assert n > 0 ==> times[n - 1] <= times[n];
    assert earn(since, before.last) + earn(before.last, times[n]) == earn(since, times[n]);
  }

  lemma RefusedAtRate(rate: real, b: Bucket, times: seq<real>, n: nat) returns (since: real, first: nat)
    requires rate >= 0.0 && Valid(b) && b.tokens == b.capacity && NonDecreasing(times) && n < |times| && b.last <= times[0]
    requires !Admits(At(rate), After(At(rate), b, times[..n]), times[n])
    ensures first <= n && b.last <= since <= times[n]
    ensures Accepted(At(rate), b, times, first, n) as real + 1.0 > b.capacity + At(rate)(since, times[n])
  {
    var earn := At(rate);
    assert Additive(earn) by {
      EarningsAddUp(rate);
    }
    since, first := RefusedOnlyAtTheBound(earn, b, times, n);
  }

  /** The same for the limiter itself: capacity plus rate times the length of that window. */
  lemma LimiterRefusesOnlyAtTheBound(ratePerSec: nat, start: real, times: seq<real>, n: nat) returns (since: real, first: nat)
    requires NonDecreasing(times) && n < |times| && start <= times[0]
    requires !Admits(At(Rate(ratePerSec)), After(At(Rate(ratePerSec)), Full(ratePerSec, start), times[..n]), times[n])
    ensures first <= n && start <= since <= times[n]
    ensures Accepted(At(Rate(ratePerSec)), Full(ratePerSec, start), times, first, n) as real + 1.0
          > Rate(ratePerSec) + Earned(Rate(ratePerSec), times[n] - since)
  {
    since, first := RefusedAtRate(Rate(ratePerSec), Full(ratePerSec, start), times, n);
    EarnedAt(Rate(ratePerSec), since, times[n]);
  }

  /** Calls spaced so that each stretch earns a token are all admitted. */
  lemma {:induction false} SpacedCallsAreAdmitted(earn: Earning, b: Bucket, times: seq<real>, n: nat)
    requires Valid(b) && b.tokens >= 1.0 && Additive(earn) && NonDecreasing(times) && n <= |times|
    requires forall i :: 0 < i < |times| ==> earn(times[i - 1], times[i]) >= 1.0
    ensures Accepted(earn, b, times, 0, n) == n
  {
    if n > 0 {
      SpacedCallsAreAdmitted(earn, b, times, n - 1);
      TokensStayInRange(earn, b, times[..n - 1]);
    }
  }

  /** So a client that keeps a distance of `1 / rate` between its frames never has one refused. */
  lemma PacedClientsAreServed(ratePerSec: nat, start: real, times: seq<real>)
    requires NonDecreasing(times)
    requires forall i :: 0 < i < |times| ==> Earned(Rate(ratePerSec), times[i] - times[i - 1]) >= 1.0
    ensures Accepted(At(Rate(ratePerSec)), Full(ratePerSec, start), times, 0, |times|) == |times|
  {
    EarningsAddUp(Rate(ratePerSec));
    forall i | 0 < i < |times| ensures At(Rate(ratePerSec))(times[i - 1], times[i]) >= 1.0 {
      EarnedAt(Rate(ratePerSec), times[i - 1], times[i]);
    }
    SpacedCallsAreAdmitted(At(Rate(ratePerSec)), Full(ratePerSec, start), times, |times|);
  }

  // ---------------------------------------------------------------- how many are admitted at most

  /** What a window has admitted plus what it left in the bucket is covered by a full bucket and its earnings. */
  lemma {:induction false} WindowPotential(earn: Earning, b: Bucket, times: seq<real>, from: nat, to: nat)
    requires Valid(b) && Additive(earn) && NonDecreasing(times) && from < to <= |times|
    ensures Accepted(earn, b, times, from, to) as real + After(earn, b, times[..to]).tokens
         <= b.capacity + earn(times[from], times[to - 1])
  {
    var prefix := times[..to - 1];
    assert times[..to][..to - 1] == prefix;
    TokensStayInRange(earn, b, prefix);
    if from < to - 1 {
      WindowPotential(earn, b, times, from, to - 1);
      assert earn(times[from], times[to - 2]) + earn(times[to - 2], times[to - 1]) == earn(times[from], times[to - 1]);
    }
  }

  lemma AdmittedIsCovered(earn: Earning, b: Bucket, times: seq<real>, from: nat, to: nat)
    requires Valid(b) && Additive(earn) && NonDecreasing(times) && from < to <= |times|
    ensures Accepted(earn, b, times, from, to) as real <= b.capacity + earn(times[from], times[to - 1])
  {
    WindowPotential(earn, b, times, from, to);
    TokensStayInRange(earn, b, times[..to]);
  }

  /** A longer window earns no less. */
  lemma WiderWindowsEarnMore(earn: Earning, opens: real, x: real, y: real, closes: real)
    requires Additive(earn) && opens <= x <= y <= closes
    ensures earn(x, y) <= earn(opens, closes)
  {
    assert earn(opens, x) + earn(x, y) == earn(opens, y);
    assert earn(opens, y) + earn(y, closes) == earn(opens, closes);
  }

  lemma WindowIsCovered(rate: real, b: Bucket, times: seq<real>, from: nat, to: nat, opens: real, closes: real)
    requires rate >= 0.0 && Valid(b) && NonDecreasing(times) && from < to <= |times|
    requires opens <= times[from] && times[to - 1] <= closes
    ensures Accepted(At(rate), b, times, from, to) as real <= b.capacity + At(rate)(opens, closes)
  {
    var earn := At(rate);
    assert Additive(earn) by {
      EarningsAddUp(rate);
    }
    AdmittedIsCovered(earn, b, times, from, to);
    WiderWindowsEarnMore(earn, opens, times[from], times[to - 1], closes);
  }

  /**
   * Any window of time in a run with a non-decreasing clock: of the calls that
   * fall into it, at most capacity plus rate times the window's length are
   * admitted.
   */
  lemma WindowBound(ratePerSec: nat, start: real, times: seq<real>, from: nat, to: nat, opens: real, closes: real)
    requires NonDecreasing(times) && from < to <= |times|
    requires opens <= times[from] && times[to - 1] <= closes
    ensures Accepted(At(Rate(ratePerSec)), Full(ratePerSec, start), times, from, to) as real
         <= Rate(ratePerSec) + Earned(Rate(ratePerSec), closes - opens)
  {
    var rate, b := Rate(ratePerSec), Full(ratePerSec, start);
    WindowIsCovered(rate, b, times, from, to, opens, closes);
    assert from < to - 1 ==> times[from] <= times[to - 1];
    EarnedAt(rate, opens, closes);
  }
}
