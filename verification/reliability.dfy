/** The reliability primitives: a sliding-window rate limiter, a three-state
    circuit breaker and a bounded retry loop with capped exponential backoff.
    The clock is a parameter (`now`), a sleep is returned as its duration
    instead of being taken, and `random.random()` is an oracle. */
module Reliability {
  import opened Common

  // ---------------------------------------------------------------------------
  // RateLimiter
  // ---------------------------------------------------------------------------

  ghost predicate Sorted(q: seq<real>) {
    forall i, j :: 0 <= i < j < |q| ==> q[i] <= q[j]
  }

  /** How many timestamps `acquire` pops from the front of the queue: the
      leading run of entries at or before `cutoff` (`now - time_window`). */
  function ExpiredPrefix(q: seq<real>, cutoff: real): (k: nat)
    ensures k <= |q|
    ensures forall i :: 0 <= i < k ==> q[i] <= cutoff
    ensures k < |q| ==> q[k] > cutoff
  {
    if |q| > 0 && q[0] <= cutoff then 1 + ExpiredPrefix(q[1..], cutoff) else 0
  }

  /** The queue once the expired entries are gone: a suffix of it, whose
      dropped entries all lie at or before `now - window` and whose first kept
      entry lies after it. */
  function Live(q: seq<real>, now: real, window: real): (live: seq<real>)
    ensures |live| <= |q| && live == q[|q| - |live|..]
    ensures forall i :: 0 <= i < |q| - |live| ==> q[i] <= now - window
    ensures |live| > 0 ==> live[0] > now - window
  {
    q[ExpiredPrefix(q, now - window)..]
  }

  /** What `acquire` does after eviction, given the surviving queue `live`: the
      duration it sleeps (0.0 when it does not), or the IndexError that
      `self.requests[0]` raises on an empty deque when `max_requests <= 0`. */
  function AcquireSleep(live: seq<real>, now: real, window: real, maxRequests: int): (r: Result<real, Error>)
    ensures maxRequests >= 1 ==> r.Success?
    ensures r.Failure? <==> |live| >= maxRequests && live == []
    ensures r.Failure? ==> r.error.kind == IndexError
    ensures |live| < maxRequests ==> r == Success(0.0)
    ensures r.Success? ==> r.value >= 0.0
    ensures r.Success? && r.value > 0.0 ==> |live| >= maxRequests && now + r.value == live[0] + window
    ensures r.Success? && |live| >= maxRequests ==> now + r.value >= live[0] + window
  {
    if |live| >= maxRequests then
      if live == [] then
        Failure(Error(IndexError, "deque index out of range", None))
      else
        var sleepTime := window - (now - live[0]);
        Success(if sleepTime > 0.0 then sleepTime else 0.0)
    else
      Success(0.0)
  }

  /** The queue after one `acquire` that did not raise. */
  function Acquired(q: seq<real>, now: real, window: real): (q': seq<real>)
    ensures 1 <= |q'| <= |q| + 1
    ensures q'[|q'| - 1] == now
    ensures q'[..|q'| - 1] == Live(q, now, window)
  {
    Live(q, now, window) + [now]
  }

  /** Eviction leaves an ordered queue ordered, and then every entry it keeps
      lies strictly inside the window. */
  lemma EvictionKeepsOrder(q: seq<real>, now: real, window: real)
    requires Sorted(q)
    ensures Sorted(Live(q, now, window))
    ensures forall x :: x in Live(q, now, window) ==> x > now - window
  {
    var k := ExpiredPrefix(q, now - window);
    forall x | x in q[k..] ensures x > now - window {
      var j :| k <= j < |q| && q[j] == x;
      assert q[k] <= q[j];
    }
  }

  /** With a clock that does not run backwards, the queue stays ordered. */
  lemma AcquireKeepsOrder(q: seq<real>, now: real, window: real)
    requires Sorted(q)
    requires forall x :: x in q ==> x <= now
    ensures Sorted(Acquired(q, now, window))
  {
    EvictionKeepsOrder(q, now, window);
    var live := Live(q, now, window);
    forall i, j | 0 <= i < j < |live| + 1 ensures (live + [now])[i] <= (live + [now])[j] {
      if j == |live| {
        assert live[i] in q;
      }
    }
  }

  /** The queue after a burst of acquisitions at the given instants. */
  function AcquireAll(q: seq<real>, times: seq<real>, window: real): seq<real>
    decreases |times|
  {
    if times == [] then q else AcquireAll(Acquired(q, times[0], window), times[1..], window)
  }

  /** Acquisitions that all fall inside one window keep every timestamp
      they record: nothing recorded before `horizon - window` is evicted. */
  lemma {:induction false} BurstKeepsAll(q: seq<real>, times: seq<real>, window: real, horizon: real)
    requires Sorted(q + times)
    requires forall x :: x in q + times ==> x > horizon - window
    requires forall t :: t in times ==> t <= horizon
    ensures AcquireAll(q, times, window) == q + times
    decreases |times|
  {
    if times != [] {
      var t := times[0];
      assert t in times;
      forall i | 0 <= i < |q| ensures q[i] > t - window {
        assert (q + times)[i] == q[i];
        assert (q + times)[i] in q + times;
      }
      assert ExpiredPrefix(q, t - window) == 0 by {
        if |q| > 0 { assert q[0] > t - window; }
      }
      assert Acquired(q, t, window) == q + [t];
      assert (q + [t]) + times[1..] == q + times;
      forall t' | t' in times[1..] ensures t' <= horizon {
        assert t' in times;
      }
      BurstKeepsAll(q + [t], times[1..], window, horizon);
    }
  }

  /** The limiter's promise: after `max_requests` acquisitions inside one window,
      the next one, taken within that window, does not return before the
      window that opened at the first acquisition has closed. */
  lemma BurstThenWait(times: seq<real>, now: real, window: real)
    requires |times| >= 1
    requires Sorted(times + [now])
    requires now - window < times[0]
    ensures Live(AcquireAll([], times, window), now, window) == times
    ensures var r := AcquireSleep(times, now, window, |times|);
            r.Success? && now + r.value == times[0] + window
  {
    forall x | x in [] + times ensures x > now - window {
      var j :| 0 <= j < |times| && times[j] == x;
      assert (times + [now])[0] <= (times + [now])[j];
    }
    forall t | t in times ensures t <= now {
      var j :| 0 <= j < |times| && times[j] == t;
      assert (times + [now])[j] <= (times + [now])[|times|];
    }
    assert Sorted([] + times) by {
      forall i, j | 0 <= i < j < |times| ensures times[i] <= times[j] {
        assert (times + [now])[i] <= (times + [now])[j];
      }
    }
    BurstKeepsAll([], times, window, now);
    assert [] + times == times;
    assert ExpiredPrefix(times, now - window) == 0;
  }

  /** Because `acquire` records the instant it was entered and not the instant
      its sleep ends, more than `max_requests` calls can return inside one
      window: with one request per 10 seconds, calls entered at 0, 1 and 10.5
      return at 0, 10 and 11. */
  lemma EntryTimeStampsAdmitTwoInOneWindow()
    ensures Acquired([], 0.0, 10.0) == [0.0]
    ensures AcquireSleep(Live([0.0], 1.0, 10.0), 1.0, 10.0, 1) == Success(9.0)
    ensures Acquired([0.0], 1.0, 10.0) == [0.0, 1.0]
    ensures AcquireSleep(Live([0.0, 1.0], 10.5, 10.0), 10.5, 10.0, 1) == Success(0.5)
  {
    assert ExpiredPrefix([0.0], 1.0 - 10.0) == 0;
    assert ExpiredPrefix([1.0], 10.5 - 10.0) == 0;
    assert ExpiredPrefix([0.0, 1.0], 10.5 - 10.0) == 1;
    assert [0.0, 1.0][1..] == [1.0];
  }

  class RateLimiter {
    const maxRequests: int
    const timeWindow: real
    /** Entry instants of the acquisitions still inside the window, oldest first. */
    var requests: seq<real>

    constructor (maxRequests: int, timeWindow: real)
      ensures this.maxRequests == maxRequests && this.timeWindow == timeWindow
      ensures requests == []
    {
      this.maxRequests := maxRequests;
      this.timeWindow := timeWindow;
      requests := [];
    }

    /** Drops the expired entries from the front, works out the wait, and
        records `now` (the entry instant, also when it sleeps). Returns the
        duration it sleeps. */
    method Acquire(now: real) returns (r: Result<real, Error>)
      modifies this
      ensures r == AcquireSleep(Live(old(requests), now, timeWindow), now, timeWindow, maxRequests)
      ensures requests == if r.Success? then Acquired(old(requests), now, timeWindow)
                          else Live(old(requests), now, timeWindow)
    {
      ghost var popped := 0;
      while |requests| > 0 && requests[0] <= now - timeWindow
        invariant popped <= |old(requests)|
        invariant requests == old(requests)[popped..]
        invariant forall i :: 0 <= i < popped ==> old(requests)[i] <= now - timeWindow
        decreases |requests|
      {
        requests := requests[1..];
        popped := popped + 1;
      }
      assert popped == ExpiredPrefix(old(requests), now - timeWindow);

      if |requests| >= maxRequests {
        if |requests| == 0 {
          return Failure(Error(IndexError, "deque index out of range", None));
        }
        var sleepTime := timeWindow - (now - requests[0]);
        if sleepTime > 0.0 {
          r := Success(sleepTime);
        } else {
          r := Success(0.0);
        }
      } else {
        r := Success(0.0);
      }
      requests := requests + [now];
    }
  }

  // ---------------------------------------------------------------------------
  // CircuitBreaker
  // ---------------------------------------------------------------------------

  datatype BreakerState = Closed | Open | HalfOpen

  /** The breaker's fields at one moment. */
  datatype Breaker = Breaker(
    failureThreshold: int,
    recoveryTimeout: real,
    failureCount: int,
    lastFailureTime: Option<real>,
    state: BreakerState)

  function NewBreaker(failureThreshold: int, recoveryTimeout: real): Breaker {
    Breaker(failureThreshold, recoveryTimeout, 0, None, Closed)
  }

  /** The breaker's invariant: it is open or half-open only once the count has
      reached the threshold, and the count is never negative. */
  predicate Consistent(b: Breaker) {
    && b.failureCount >= 0
    && (b.state != Closed ==> b.failureCount >= b.failureThreshold)
  }

  /** `self.last_failure_time and now - self.last_failure_time >= self.recovery_timeout`:
      a failure time of 0.0 is falsy, like None. */
  function RecoveryDue(b: Breaker, now: real): (due: bool)
    ensures due ==> b.lastFailureTime.Some? && now >= b.lastFailureTime.value + b.recoveryTimeout
    ensures b.lastFailureTime == None || b.lastFailureTime == Some(0.0) ==> !due
    ensures b.lastFailureTime.Some? && b.lastFailureTime.value != 0.0 ==>
              (due <==> now >= b.lastFailureTime.value + b.recoveryTimeout)
  {
    b.lastFailureTime.Some? && b.lastFailureTime.value != 0.0
    && now - b.lastFailureTime.value >= b.recoveryTimeout
  }

  /** `can_execute`: whether a call may go ahead, and the breaker afterwards. */
  function Admit(b: Breaker, now: real): (r: (bool, Breaker))
    ensures b.state != Open ==> r == (true, b)
    ensures b.state == Open ==> r == if RecoveryDue(b, now) then (true, b.(state := HalfOpen)) else (false, b)
    ensures Consistent(b) ==> Consistent(r.1)
  {
    match b.state
    case Closed => (true, b)
    case Open => if RecoveryDue(b, now) then (true, b.(state := HalfOpen)) else (false, b)
    case HalfOpen => (true, b)
  }

  /** `on_success`: closed, count reset, whatever the state was. */
  function RecordSuccess(b: Breaker): (r: Breaker)
    ensures r.state == Closed && r.failureCount == 0
    ensures r.lastFailureTime == b.lastFailureTime
    ensures r.failureThreshold == b.failureThreshold && r.recoveryTimeout == b.recoveryTimeout
    ensures Consistent(r)
  {
    b.(failureCount := 0, state := Closed)
  }

  /** `on_failure`: one more failure, stamped `now`; open iff the count has
      reached the threshold, otherwise the state is left as it was. */
  function RecordFailure(b: Breaker, now: real): (r: Breaker)
    ensures r.failureCount == b.failureCount + 1
    ensures r.lastFailureTime == Some(now)
    ensures r.state == (if r.failureCount >= b.failureThreshold then Open else b.state)
    ensures r.failureThreshold == b.failureThreshold && r.recoveryTimeout == b.recoveryTimeout
    ensures Consistent(b) ==> Consistent(r)
  {
    var count := b.failureCount + 1;
    b.(failureCount := count, lastFailureTime := Some(now),
       state := if count >= b.failureThreshold then Open else b.state)
  }

  /** A failure while half-open re-opens the breaker. */
  lemma HalfOpenFailureReopens(b: Breaker, now: real)
    requires Consistent(b) && b.state == HalfOpen
    ensures RecordFailure(b, now).state == Open
    ensures RecordFailure(b, now).lastFailureTime == Some(now)
  {
  }

  /** A sequence of failures, one per instant. */
  function FailAll(b: Breaker, times: seq<real>): (r: Breaker)
    ensures r.failureThreshold == b.failureThreshold && r.recoveryTimeout == b.recoveryTimeout
    decreases |times|
  {
    if times == [] then b else FailAll(RecordFailure(b, times[0]), times[1..])
  }

  /** From any closed breaker, `k` failures add `k` to its count; it is open
      afterwards exactly when at least one failure brought the count to
      `failure_threshold`, and the last failure's instant is recorded. */
  lemma {:induction false} FailuresTrip(b: Breaker, times: seq<real>)
    requires b.state == Closed && b.failureCount >= 0
    ensures FailAll(b, times).failureCount == b.failureCount + |times|
    ensures FailAll(b, times).state == (if times != [] && b.failureCount + |times| >= b.failureThreshold then Open
                                       else Closed)
    ensures times != [] ==> FailAll(b, times).lastFailureTime == Some(times[|times| - 1])
    decreases |times|
  {
    if times != [] {
      var b' := RecordFailure(b, times[0]);
      if b'.state == Open {
        OpenStaysOpen(b', times[1..]);
      } else {
        FailuresTrip(b', times[1..]);
      }
      if |times| > 1 {
        assert times[1..][|times[1..]| - 1] == times[|times| - 1];
      }
    }
  }

  /** Further failures keep an open breaker open. */
  lemma {:induction false} OpenStaysOpen(b: Breaker, times: seq<real>)
    requires b.state == Open && b.failureCount >= 0
    ensures FailAll(b, times).state == Open
    ensures FailAll(b, times).failureCount == b.failureCount + |times|
    ensures times != [] ==> FailAll(b, times).lastFailureTime == Some(times[|times| - 1])
    ensures times == [] ==> FailAll(b, times).lastFailureTime == b.lastFailureTime
    decreases |times|
  {
    if times != [] {
      OpenStaysOpen(RecordFailure(b, times[0]), times[1..]);
      if |times| > 1 {
        assert times[1..][|times[1..]| - 1] == times[|times| - 1];
      }
    }
  }

  /** Once tripped at a non-zero instant, the breaker refuses every call until
      `recovery_timeout` has elapsed; the first call after that is admitted
      and leaves it half-open, and then every further call is admitted too. */
  lemma TrippedBreakerRecovers(th: int, rt: real, times: seq<real>, now: real, later: real)
    requires th >= 1 && |times| == th
    requires times[th - 1] != 0.0
    ensures FailAll(NewBreaker(th, rt), times).state == Open
    ensures now - times[th - 1] < rt ==>
              Admit(FailAll(NewBreaker(th, rt), times), now) == (false, FailAll(NewBreaker(th, rt), times))
    ensures now - times[th - 1] >= rt ==>
              var (ok, b) := Admit(FailAll(NewBreaker(th, rt), times), now);
              ok && b.state == HalfOpen && Admit(b, later) == (true, b)
  {
    var b := NewBreaker(th, rt);
    FailuresTrip(b, times);
    assert FailAll(b, times).lastFailureTime == Some(times[th - 1]);
    assert FailAll(b, times).state == Open;
  }

  /** A failure stamped 0.0 is falsy, so a breaker opened by it never admits
      another call until a success closes it. */
  lemma ZeroFailureTimeNeverRecovers(b: Breaker, now: real)
    requires b.state == Open && b.lastFailureTime == Some(0.0)
    ensures Admit(b, now) == (false, b)
  {
  }

  class CircuitBreaker {
    const failureThreshold: int
    const recoveryTimeout: real
    var failureCount: int
    var lastFailureTime: Option<real>
    var state: BreakerState

    function Snapshot(): Breaker
      reads this
    {
      Breaker(failureThreshold, recoveryTimeout, failureCount, lastFailureTime, state)
    }

    ghost predicate Valid()
      reads this
    {
      Consistent(Snapshot())
    }

    /** Closed, no failures counted, no failure time. The Python class's
        defaults are a threshold of 5 and a timeout of 60 seconds. */
    constructor (failureThreshold: int := 5, recoveryTimeout: real := 60.0)
      ensures Snapshot() == NewBreaker(failureThreshold, recoveryTimeout)
      ensures Valid()
    {
      this.failureThreshold := failureThreshold;
      this.recoveryTimeout := recoveryTimeout;
      failureCount := 0;
      lastFailureTime := None;
      state := Closed;
    }

    method CanExecute(now: real) returns (ok: bool)
      requires Valid()
      modifies this
      ensures Valid()
      ensures (ok, Snapshot()) == Admit(old(Snapshot()), now)
    {
      if state == Closed {
        return true;
      } else if state == Open {
        if lastFailureTime.Some? && lastFailureTime.value != 0.0
           && now - lastFailureTime.value >= recoveryTimeout {
          state := HalfOpen;
          return true;
        }
        return false;
      } else {
        return true;
      }
    }

    method OnSuccess()
      requires Valid()
      modifies this
      ensures Valid()
      ensures Snapshot() == RecordSuccess(old(Snapshot()))
    {
      failureCount := 0;
      state := Closed;
    }

    method OnFailure(now: real)
      requires Valid()
      modifies this
      ensures Valid()
      ensures Snapshot() == RecordFailure(old(Snapshot()), now)
    {
      failureCount := failureCount + 1;
      lastFailureTime := Some(now);
      if failureCount >= failureThreshold {
        state := Open;
      }
    }

    function IsOpen(): (r: bool)
      reads this
      ensures r <==> Snapshot().state == Open
    {
      state == Open
    }
  }

  // ---------------------------------------------------------------------------
  // retry_with_backoff
  // ---------------------------------------------------------------------------

  /** `b ** n` for a natural exponent. */
  function Pow(b: real, n: nat): real {
    if n == 0 then 1.0 else b * Pow(b, n - 1)
  }

  lemma {:induction false} PowNonNegative(b: real, n: nat)
    ensures b >= 0.0 ==> Pow(b, n) >= 0.0
  {
    if n > 0 {
      PowNonNegative(b, n - 1);
    }
  }

  lemma {:induction false} PowGrows(b: real, n: nat)
    requires b >= 1.0
    ensures 1.0 <= Pow(b, n) <= Pow(b, n + 1)
  {
    if n > 0 {
      PowGrows(b, n - 1);
    }
    assert Pow(b, n + 1) == b * Pow(b, n);
    assert Pow(b, n) * 1.0 <= Pow(b, n) * b;
  }

  function Min(x: real, y: real): real {
    if x <= y then x else y
  }

  /** `min(base_delay * exponential_base ** attempt, max_delay)`: the delay
      before the retry that follows failed attempt `attempt`, before jitter.
      It is the smaller of the two, and non-negative for non-negative
      parameters. */
  function BackoffCap(attempt: nat, baseDelay: real, maxDelay: real, exponentialBase: real): (cap: real)
    ensures cap <= maxDelay && cap <= baseDelay * Pow(exponentialBase, attempt)
    ensures cap == maxDelay || cap == baseDelay * Pow(exponentialBase, attempt)
    ensures baseDelay >= 0.0 && maxDelay >= 0.0 && exponentialBase >= 0.0 ==> cap >= 0.0
  {
    PowNonNegative(exponentialBase, attempt);
    Min(baseDelay * Pow(exponentialBase, attempt), maxDelay)
  }

  /** The delay actually slept: the cap, scaled by `0.5 + u * 0.5` with
      `u = random.random()` when jitter is on. */
  function BackoffDelay(attempt: nat, baseDelay: real, maxDelay: real, exponentialBase: real,
                        jitter: bool, u: real): (d: real)
    requires 0.0 <= u < 1.0
    ensures var cap := BackoffCap(attempt, baseDelay, maxDelay, exponentialBase);
            baseDelay >= 0.0 && maxDelay >= 0.0 && exponentialBase >= 0.0 ==>
              0.0 <= d <= maxDelay && d <= cap && (jitter ==> d >= cap / 2.0) && (!jitter ==> d == cap)
  {
    var cap := BackoffCap(attempt, baseDelay, maxDelay, exponentialBase);
    if jitter then Jittered(cap, u) else cap
  }

  /** `delay *= 0.5 + random.random() * 0.5`: a factor in [0.5, 1.0) keeps a
      non-negative delay between half of it and all of it. */
  function Jittered(delay: real, u: real): (d: real)
    ensures delay >= 0.0 && 0.0 <= u < 1.0 ==> delay / 2.0 <= d <= delay
  {
    var factor := 0.5 + u * 0.5;
    assert delay >= 0.0 && 0.0 <= u ==> delay * u >= 0.0;
    assert delay >= 0.0 && u < 1.0 ==> delay * u <= delay;
    delay * factor
  }

  /** With a growing base (at least 1) and a non-negative base delay, the caps
      never decrease from one retry to the next. */
  lemma BackoffCapMonotone(attempt: nat, baseDelay: real, maxDelay: real, exponentialBase: real)
    requires baseDelay >= 0.0 && exponentialBase >= 1.0
    ensures BackoffCap(attempt, baseDelay, maxDelay, exponentialBase)
            <= BackoffCap(attempt + 1, baseDelay, maxDelay, exponentialBase)
  {
    PowGrows(exponentialBase, attempt);
    assert baseDelay * Pow(exponentialBase, attempt) <= baseDelay * Pow(exponentialBase, attempt + 1);
  }

  function RetryExhausted(maxRetries: int, last: string): (e: Error)
    ensures e.kind == LLMError && e.code == Some("RETRY_EXHAUSTED")
    ensures e.message == "Operation failed after " + IntToString(maxRetries) + " retries: " + last
  {
    Error(LLMError, "Operation failed after " + IntToString(maxRetries) + " retries: " + last,
          Some("RETRY_EXHAUSTED"))
  }

  const RetryUnknown := Error(PlainException, "Retry failed for unknown reasons", None)

  /** `retry_with_backoff`: calls `func` (attempt `a` gives `func(a)`; a
      Failure carries the exception's text) until one attempt succeeds or
      `max_retries + 1` attempts have failed, and returns the sleeps it took
      between attempts. */
  method RetryWithBackoff<T>(func: nat -> Result<T, string>, random: nat -> real, maxRetries: int := 3,
                             baseDelay: real := 1.0, maxDelay: real := 60.0, exponentialBase: real := 2.0,
                             jitter: bool := true)
    returns (r: Result<T, Error>, sleeps: seq<real>)
    requires forall a :: 0.0 <= random(a) < 1.0
    ensures maxRetries < 0 ==> r == Failure(RetryUnknown) && sleeps == []
    ensures r.Success? <==> exists a :: 0 <= a <= maxRetries && func(a).Success?
    ensures r.Success? ==> |sleeps| <= maxRetries && func(|sleeps|) == Success(r.value)
                           && forall a :: 0 <= a < |sleeps| ==> func(a).Failure?
    ensures r.Failure? && maxRetries >= 0 ==>
              |sleeps| == maxRetries && r.error == RetryExhausted(maxRetries, func(maxRetries).error)
    ensures forall a :: 0 <= a < |sleeps| ==>
              sleeps[a] == BackoffDelay(a, baseDelay, maxDelay, exponentialBase, jitter, random(a))
  {
    sleeps := [];
    var attempt := 0;
    while attempt < maxRetries + 1
      invariant 0 <= attempt
      invariant maxRetries >= 0 ==> attempt <= maxRetries
      invariant maxRetries < 0 ==> attempt == 0
      invariant |sleeps| == attempt
      invariant forall a :: 0 <= a < attempt ==> func(a).Failure?
      invariant forall a :: 0 <= a < attempt ==>
                  sleeps[a] == BackoffDelay(a, baseDelay, maxDelay, exponentialBase, jitter, random(a))
      decreases maxRetries + 1 - attempt
    {
      var outcome := func(attempt);
      if outcome.Success? {
        return Success(outcome.value), sleeps;
      }
      if attempt == maxRetries {
        return Failure(RetryExhausted(maxRetries, outcome.error)), sleeps;
      }
      var delay := Min(baseDelay * Pow(exponentialBase, attempt), maxDelay);
      if jitter {
        delay := Jittered(delay, random(attempt));
      }
      sleeps := sleeps + [delay];
      attempt := attempt + 1;
    }
    r := Failure(RetryUnknown);
  }
}
