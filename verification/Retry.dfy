/** Trying again: how often, and how long to wait in between. Times are whole nanoseconds, factors are reals. */
module Retry {
  import opened GoStrings

  datatype Policy = Policy(maxRetries: int, baseDelay: int, maxDelay: int, multiplier: real, jitter: bool)

  /** A failed attempt; the kind of error says whether it may be retried, the server may say when. */
  datatype Failure = Failure(cancelled: bool, retryable: bool, retryAfter: Option<int>)

  datatype Attempt<T> = Success(value: T) | Failed(failure: Failure)

  /** How a retry loop ends: with a value, with the error of the last attempt, or because its context did. */
  datatype Outcome<T> = Value(value: T) | LastError(failure: Failure) | ContextEnded | SleepEnded | FellThrough

  function Retries(p: Policy): nat { if p.maxRetries < 0 then 0 else p.maxRetries }

  /** Errors of a cancelled or expired context are never retried, whatever they say. */
  predicate Retryable(f: Failure) { !f.cancelled && f.retryable }

  function Factor(p: Policy): (m: real)
    ensures 1.0 < m
  {
    if p.multiplier <= 1.0 then 2.0 else p.multiplier
  }

  function Pow(m: real, n: nat): real { if n == 0 then 1.0 else m * Pow(m, n - 1) }

  /** The wait before retry n without jitter: growing by the factor, cut off at the maximum. */
  function Backoff(p: Policy, n: nat): int {
    var base := if p.baseDelay < 0 then 0 else p.baseDelay;
    var d := (base as real * Pow(Factor(p), n)).Floor;
    if p.maxDelay > 0 && d > p.maxDelay then p.maxDelay else d
  }

  lemma {:induction false} PowGrows(m: real, n: nat)
    requires 1.0 <= m
    ensures 1.0 <= Pow(m, n) <= Pow(m, n + 1)
  {
    if n != 0 {
      PowGrows(m, n - 1);
      Stretch(Pow(m, n - 1), m);
    }
    Stretch(Pow(m, n), m);
  }

  lemma Stretch(x: real, m: real)
    requires 1.0 <= x && 1.0 <= m
    ensures x <= m * x
  {
    assert (m - 1.0) * x >= 0.0;
  }

  lemma Scale(b: real, x: real, y: real)
    requires 0.0 <= b && x <= y
    ensures b * x <= b * y
  {
    assert b * (y - x) >= 0.0;
  }

  /** Without jitter the waits never get shorter, and none is longer than the maximum. */
  lemma BackoffGrows(p: Policy, n: nat)
    ensures 0 <= Backoff(p, n) <= Backoff(p, n + 1)
    ensures p.maxDelay > 0 ==> Backoff(p, n) <= p.maxDelay
  {
    var base := if p.baseDelay < 0 then 0 else p.baseDelay;
    PowGrows(Factor(p), n);
    Scale(base as real, 0.0, Pow(Factor(p), n));
    Scale(base as real, Pow(Factor(p), n), Pow(Factor(p), n + 1));
    FloorGrows(base as real * Pow(Factor(p), n), base as real * Pow(Factor(p), n + 1));
    hide Pow, Factor;
  }

  /**
   * With a whole factor every wait is that many times the one before, starting from the base delay, up to the maximum;
   * a factor of one or less stands for doubling.
   */
  lemma BackoffMultiplies(p: Policy, k: int, n: nat)
    requires k as real == if p.multiplier <= 1.0 then 2.0 else p.multiplier
    ensures
      var base := if p.baseDelay < 0 then 0 else p.baseDelay;
      Backoff(p, 0) == if p.maxDelay > 0 && base > p.maxDelay then p.maxDelay else base
    ensures
      var next := k * Backoff(p, n);
      Backoff(p, n + 1) == if p.maxDelay > 0 && next > p.maxDelay then p.maxDelay else next
  {
    hide Pow, Backoff, Times;
    BackoffIsWhole(p, k, 0);
    BackoffIsWhole(p, k, n);
    BackoffIsWhole(p, k, n + 1);
    var base := if p.baseDelay < 0 then 0 else p.baseDelay;
    OnceMore(k, base, n);
    Multiplied(k, Times(k, base, n), p.maxDelay);
  }

  lemma OnceMore(k: int, base: int, n: nat)
    ensures Times(k, base, 0) == base && Times(k, base, n + 1) == k * Times(k, base, n)
  {
  }

  lemma BackoffIsWhole(p: Policy, k: int, n: nat)
    requires k as real == Factor(p)
    ensures
      var x := Times(k, if p.baseDelay < 0 then 0 else p.baseDelay, n);
      0 <= x && Backoff(p, n) == if p.maxDelay > 0 && x > p.maxDelay then p.maxDelay else x
  {
    hide Pow, Factor;
    WholePow(k, if p.baseDelay < 0 then 0 else p.baseDelay, n);
  }

  /** A whole base, multiplied n times. */
  function Times(k: int, base: int, n: nat): int { if n == 0 then base else k * Times(k, base, n - 1) }

  lemma Multiplied(k: int, x: int, y: int)
    requires 2 <= k && 0 <= x
    ensures k * x >= x && (0 < y ==> k * y > y)
  {
    assert (k - 1) * x >= 0;
  }

  lemma {:induction false} WholePow(k: int, base: int, n: nat)
    requires 2 <= k && 0 <= base
    ensures 0 <= Times(k, base, n) && base as real * Pow(k as real, n) == Times(k, base, n) as real
  {
    if n != 0 {
      WholePow(k, base, n - 1);
      Shuffled(base as real, k as real, Pow(k as real, n - 1));
      WholeProduct(k, Times(k, base, n - 1));
    }
  }

  lemma Shuffled(a: real, b: real, c: real)
    ensures a * (b * c) == b * (a * c)
  {
  }

  lemma WholeProduct(k: int, x: int)
    requires 0 <= k && 0 <= x
    ensures 0 <= k * x && (k * x) as real == k as real * x as real
  {
  }

  /** A wait made up to half shorter or longer. */
  function Jittered(full: int, factor: real): int { (full as real * factor).Floor }

  lemma JitterBounds(full: int, factor: real)
    requires 0 <= full && 0.5 <= factor <= 1.5
    ensures 0 <= Jittered(full, factor)
    ensures full as real * 0.5 - 1.0 <= Jittered(full, factor) as real <= full as real * 1.5
  {
    var b := full as real;
    assert b * (factor - 0.5) >= 0.0 && b * (1.5 - factor) >= 0.0;
    FloorBounds(b * factor, b * 0.5, b * 1.5);
  }

  lemma FloorBounds(x: real, low: real, high: real)
    requires 0.0 <= low <= x <= high
    ensures 0 <= x.Floor && low - 1.0 <= x.Floor as real <= high
  {
  }

  lemma FloorGrows(x: real, y: real)
    requires 0.0 <= x <= y
    ensures 0 <= x.Floor <= y.Floor
  {
  }

  /** The wait is the one the server asks for, and otherwise the computed one, times the random factor if there is jitter. */
  predicate IsDelay(p: Policy, rand: real, f: Failure, n: nat, d: int) {
    if f.retryAfter.Some? then d == if f.retryAfter.value < 0 then 0 else f.retryAfter.value
    else if p.jitter then d == (Backoff(p, n) as real * (0.5 + rand)).Floor
    else d == Backoff(p, n)
  }

  /** The wait before a retry, or none if the server asks for more than the maximum. */
  method RetryDelay(p: Policy, rand: real, f: Failure, n: nat) returns (d: int, ok: bool)
    requires 0.0 <= rand <= 1.0
    ensures ok == !(f.retryAfter.Some? && p.maxDelay > 0 && f.retryAfter.value > p.maxDelay)
    ensures ok ==> 0 <= d && IsDelay(p, rand, f, n, d)
    ensures ok && f.retryAfter.Some? ==> d == if f.retryAfter.value < 0 then 0 else f.retryAfter.value
    ensures ok && f.retryAfter.Some? && p.maxDelay > 0 ==> d <= p.maxDelay
    ensures ok && f.retryAfter.None? && !p.jitter ==> d == Backoff(p, n)
    ensures ok && f.retryAfter.None? ==> Backoff(p, n) as real * 0.5 - 1.0 <= d as real <= Backoff(p, n) as real * 1.5
    ensures ok && f.retryAfter.None? && p.maxDelay > 0 ==> d as real <= p.maxDelay as real * 1.5
  {
    if f.retryAfter.Some? {
      d := f.retryAfter.value;
      if d < 0 {
        d := 0;
      }
      return d, !(p.maxDelay > 0 && d > p.maxDelay);
    }
    BackoffGrows(p, n);
    var full := Backoff(p, n);
    hide Backoff, Jittered;
    d := full;
    if p.jitter && d > 0 {
      JitterBounds(full, 0.5 + rand);
      d := Jittered(full, 0.5 + rand);
    }
    ok := true;
  }

  /** What the loop has to do with: attempts, whether the context has ended after each, random numbers, interrupted sleeps. */
  datatype World<!T> = World(attempt: nat -> Attempt<T>, ended: nat -> bool, rand: nat -> real, interrupted: nat -> bool)

  /** Attempt n fails in a way that is retried, as far as the error and the context go. */
  predicate GoesOn<T>(w: World<T>, n: nat) { w.attempt(n).Failed? && !w.ended(n) && Retryable(w.attempt(n).failure) }

  /** The server does not ask for a longer wait than allowed. */
  predicate InTime(p: Policy, f: Failure) { f.retryAfter.Some? && p.maxDelay > 0 ==> f.retryAfter.value <= p.maxDelay }

  /**
   * Attempt n is followed by a wait: it failed, the context goes on, the error is no cancellation and may be retried,
   * a retry is left, and the server does not ask for too much.
   */
  predicate Waits<T>(p: Policy, w: World<T>, n: nat) {
    var a := w.attempt(n);
    a.Failed? && !w.ended(n) && !a.failure.cancelled && a.failure.retryable && n < p.maxRetries && InTime(p, a.failure)
  }

  /** The retry loop: the calls it made, how it ended, and the waits in between. */
  method Retry<T>(p: Policy, w: World<T>) returns (out: Outcome<T>, calls: nat, sleeps: seq<int>)
    requires forall n: nat :: 0.0 <= w.rand(n) <= 1.0
    ensures 1 <= calls <= Retries(p) + 1 && calls - 1 <= |sleeps| <= calls
    ensures out != FellThrough
    ensures forall n :: 0 <= n < calls - 1 ==> GoesOn(w, n)
    ensures forall n :: 0 <= n < calls - 1 ==> Waits(p, w, n) && !w.interrupted(n)
    ensures !(Waits(p, w, calls - 1) && !w.interrupted(calls - 1))
    ensures out.ContextEnded? <==> w.attempt(calls - 1).Failed? && w.ended(calls - 1)
    ensures out.SleepEnded? <==> Waits(p, w, calls - 1)
    ensures out.LastError? <==> w.attempt(calls - 1).Failed? && !w.ended(calls - 1) && !Waits(p, w, calls - 1)
    ensures |sleeps| == if out.SleepEnded? then calls else calls - 1
    ensures forall k :: 0 <= k < |sleeps| ==> w.attempt(k).Failed? && IsDelay(p, w.rand(k), w.attempt(k).failure, k, sleeps[k])
    ensures out.Value? <==> w.attempt(calls - 1).Success?
    ensures out.Value? ==> out.value == w.attempt(calls - 1).value
    ensures out.LastError? ==> w.attempt(calls - 1) == Failed(out.failure)
    ensures out.LastError? && GoesOn(w, calls - 1) && calls <= Retries(p) ==>
      p.maxDelay > 0 && out.failure.retryAfter.Some? && out.failure.retryAfter.value > p.maxDelay
    ensures p.maxDelay > 0 ==> forall k :: 0 <= k < |sleeps| ==>
      0 <= sleeps[k] && sleeps[k] as real <= p.maxDelay as real * 1.5
      && (w.attempt(k).Failed? && w.attempt(k).failure.retryAfter.Some? ==> sleeps[k] <= p.maxDelay)
    ensures !p.jitter ==> forall k :: 0 <= k < |sleeps| && w.attempt(k).Failed? && w.attempt(k).failure.retryAfter.None? ==>
      sleeps[k] == Backoff(p, k)
  {
    hide Backoff, IsDelay;
    var maxRetries := Retries(p);
    calls, sleeps := 0, [];
    var attempt := 0;
    while attempt <= maxRetries
      invariant 0 <= attempt <= maxRetries && calls == attempt == |sleeps|
      invariant forall n :: 0 <= n < calls ==> GoesOn(w, n)
      invariant forall n :: 0 <= n < calls ==> Waits(p, w, n) && !w.interrupted(n)
      invariant forall k :: 0 <= k < |sleeps| ==> w.attempt(k).Failed? && IsDelay(p, w.rand(k), w.attempt(k).failure, k, sleeps[k])
      invariant p.maxDelay > 0 ==> forall k :: 0 <= k < |sleeps| ==>
        0 <= sleeps[k] && sleeps[k] as real <= p.maxDelay as real * 1.5
        && (w.attempt(k).Failed? && w.attempt(k).failure.retryAfter.Some? ==> sleeps[k] <= p.maxDelay)
      invariant !p.jitter ==> forall k :: 0 <= k < |sleeps| && w.attempt(k).Failed? && w.attempt(k).failure.retryAfter.None? ==>
        sleeps[k] == Backoff(p, k)
    {
      var r := w.attempt(attempt);
      calls := calls + 1;
      if r.Success? {
        return Value(r.value), calls, sleeps;
      }
      if w.ended(attempt) {
        return ContextEnded, calls, sleeps;
      }
      if !Retryable(r.failure) || attempt == maxRetries {
        return LastError(r.failure), calls, sleeps;
      }
      var delay, ok := RetryDelay(p, w.rand(attempt), r.failure, attempt);
      if !ok {
        return LastError(r.failure), calls, sleeps;
      }
      sleeps := sleeps + [delay];
      if w.interrupted(attempt) {
        return SleepEnded, calls, sleeps;
      }
      attempt := attempt + 1;
    }
    out := FellThrough;
  }
}
