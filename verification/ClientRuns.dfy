/** Bounds on one call, and the breaker over whole runs of calls. */
module ClientRuns {
  import opened Outcomes
  import opened Reliability
  import opened Client

  /** Each attempt sends one request, or two on a kept-alive connection found broken. */
  lemma {:induction false} RequestsAreBounded(keepAlive: bool, wire: nat -> Wire, n: nat)
    ensures n <= RequestsBefore(keepAlive, wire, n) <= (if keepAlive then 2 * n else n)
  {
    if n > 0 {
      RequestsAreBounded(keepAlive, wire, n - 1);
    }
  }

  function Scaled(n: nat, x: real): real
  {
    if n == 0 then 0.0 else Scaled(n - 1, x) + x
  }

  lemma {:induction false} ScaledIsProduct(n: nat, x: real)
    ensures Scaled(n, x) == n as real * x
  {
    if n > 0 { ScaledIsProduct(n - 1, x); }
  }

  /** The capped base with the most jitter. */
  function LongestDelay(p: RetryPolicy): real
  {
    p.maximum * (1.0 + p.jitterRatio)
  }

  lemma DelayAtMostLongest(p: RetryPolicy, attempt: nat, draw: real)
    requires ValidPolicy(p) && FairDraw(p, attempt, draw)
    ensures 0.0 <= Delay(p, attempt, draw) <= LongestDelay(p)
  {
    DelayIsBounded(p, attempt, draw);
  }

  lemma SleepInCall(p: RetryPolicy, net: Network, attempts: nat)
    requires ValidPolicy(p) && 1 <= attempts <= p.maxAttempts
    requires forall i | 1 <= i < p.maxAttempts :: FairDraw(p, i, net.draw(i))
    ensures 0.0 <= SleptAfter(p, net, attempts - 1) <= Scaled(p.maxAttempts - 1, LongestDelay(p))
  {
    SleepIsBounded(p, net, attempts - 1);
    ScaledMonotone(attempts - 1, p.maxAttempts - 1, LongestDelay(p));
  }

  lemma {:induction false} SleepIsBounded(p: RetryPolicy, net: Network, n: nat)
    requires ValidPolicy(p) && forall i | 1 <= i <= n :: FairDraw(p, i, net.draw(i))
    ensures 0.0 <= SleptAfter(p, net, n) <= Scaled(n, LongestDelay(p))
  {
    if n > 0 {
      SleepIsBounded(p, net, n - 1);
      DelayAtMostLongest(p, n, net.draw(n));
    }
  }

  lemma {:induction false} ScaledMonotone(m: nat, n: nat, x: real)
    requires m <= n && x >= 0.0
    ensures 0.0 <= Scaled(m, x) <= Scaled(n, x)
    decreases n
  {
    if m < n {
      ScaledMonotone(m, n - 1, x);
    } else if m > 0 {
      ScaledMonotone(m - 1, n - 1, x);
    }
  }

  /** One call makes between one and `maxAttempts` attempts, of at most two requests each. */
  lemma CallIsBounded(c: Settings, call: CallInput)
    requires ValidPolicy(c.policy)
    ensures var t := TraceOf(c.policy, c.keepAlive, call);
            && 1 <= t.attempts <= c.policy.maxAttempts
            && (if call.encodable then t.attempts else 0) <= t.requests <= if c.keepAlive then 2 * t.attempts else t.attempts
  {
    RequestsAreBounded(c.keepAlive, call.net.wire, FinalAttempt(c.policy, c.keepAlive, call.net, 1));
  }

  lemma {:induction false} SleepAtLeast(p: RetryPolicy, net: Network, n: nat, x: real)
    requires ValidPolicy(p) && p.jitterRatio <= 1.0 && x == p.initial * (1.0 - p.jitterRatio)
    requires forall i | 1 <= i <= n :: FairDraw(p, i, net.draw(i))
    ensures Scaled(n, x) <= SleptAfter(p, net, n)
  {
    if n > 0 {
      SleepAtLeast(p, net, n - 1, x);
      OneSleepAtLeast(p, n, net.draw(n));
    }
  }

  lemma OneSleepAtLeast(p: RetryPolicy, attempt: nat, draw: real)
    requires ValidPolicy(p) && p.jitterRatio <= 1.0 && attempt >= 1 && FairDraw(p, attempt, draw)
    ensures p.initial * (1.0 - p.jitterRatio) <= Slept(p, attempt, draw)
  {
    BaseAtLeastInitial(p, attempt);
    DelayAtLeast(p, attempt, draw);
    ScaledDown(p.initial, BaseDelay(p, attempt), 1.0 - p.jitterRatio, Slept(p, attempt, draw));
  }

  lemma BaseAtLeastInitial(p: RetryPolicy, attempt: nat)
    requires ValidPolicy(p) && attempt >= 1
    ensures p.initial <= BaseDelay(p, attempt)
  {
    BaseIsMultiplied(p, attempt);
    BaseIsMonotoneAndCapped(p, 1, attempt);
  }

  lemma DelayAtLeast(p: RetryPolicy, attempt: nat, draw: real)
    requires ValidPolicy(p) && FairDraw(p, attempt, draw)
    ensures BaseDelay(p, attempt) * (1.0 - p.jitterRatio) <= Slept(p, attempt, draw)
  {
    DelayIsBounded(p, attempt, draw);
  }

  lemma ScaledDown(a: real, b: real, x: real, s: real)
    requires a <= b && x >= 0.0 && b * x <= s
    ensures a * x <= s
  {
  }

  /** One call sleeps at most `maxAttempts - 1` of the longest delays, and one of the shortest at least between any two attempts. */
  lemma CallSleepsBoundedly(c: Settings, call: CallInput)
    requires ValidPolicy(c.policy)
    requires forall i | 1 <= i < c.policy.maxAttempts :: FairDraw(c.policy, i, call.net.draw(i))
    ensures 0.0 <= TraceOf(c.policy, c.keepAlive, call).slept <= Scaled(c.policy.maxAttempts - 1, LongestDelay(c.policy))
    ensures c.policy.jitterRatio <= 1.0 ==>
              var t := TraceOf(c.policy, c.keepAlive, call);
              Scaled(t.attempts - 1, c.policy.initial * (1.0 - c.policy.jitterRatio)) <= t.slept
  {
    if c.policy.jitterRatio <= 1.0 && call.encodable {
      SleepAtLeast(c.policy, call.net, TraceOf(c.policy, c.keepAlive, call).attempts - 1, c.policy.initial * (1.0 - c.policy.jitterRatio));
    }
    SleepInCall(c.policy, call.net, TraceOf(c.policy, c.keepAlive, call).attempts);
    SleepInCall(c.policy, call.net, 1);
  }

  function RunCalls(c: Settings, j: Journal, calls: seq<CallInput>): Journal
    requires ValidPolicy(c.policy)
    decreases |calls|
  {
    if calls == [] then j else RunCalls(c, OneCall(c, j, calls[0]), calls[1..])
  }

  const UNUSED: Journal := Journal(BreakerState(0, None), [], [])

  /** The failures since the last success. */
  function TrailingFailures(records: seq<Record>): nat
  {
    if records == [] || records[|records| - 1].Succeeded? then 0 else 1 + TrailingFailures(records[..|records| - 1])
  }

  /** The count is the trailing run of failures; the breaker is open if and only if it reaches the threshold, since the last failure. */
  ghost predicate Tracks(c: BreakerConfig, j: Journal)
  {
    && j.breaker.failureCount == TrailingFailures(j.records)
    && (j.breaker.openedAt.Some? <==> j.breaker.failureCount >= c.threshold)
    && (j.breaker.openedAt.Some? ==>
          j.records != [] && j.records[|j.records| - 1] == FailedAt(j.breaker.openedAt.value))
  }

  lemma RecordTracks(c: BreakerConfig, j: Journal, ending: Ending, now: real)
    requires ValidConfig(c) && Tracks(c, j)
    ensures Tracks(c, Journal(RecordedBy(c, j.breaker, ending, now), j.records + RecordOf(ending, now), j.admittedAt))
  {
    if ending.Escaped? {
      assert j.records + [] == j.records;
    } else {
      var next := j.records + RecordOf(ending, now);
      assert next[..|next| - 1] == j.records;
    }
  }

  lemma OneCallTracks(c: Settings, j: Journal, call: CallInput)
    requires ValidSettings(c) && Tracks(c.breaker, j)
    ensures Tracks(c.breaker, OneCall(c, j, call))
  {
    RecordTracks(c.breaker, j, TraceOf(c.policy, c.keepAlive, call).ending, call.net.endsAt);
  }

  /** Over every run of calls on any networks, from an unused breaker or one in step with its records. */
  lemma {:induction false} BreakerTracksRuns(c: Settings, j: Journal, calls: seq<CallInput>)
    requires ValidSettings(c) && Tracks(c.breaker, j)
    ensures Tracks(c.breaker, RunCalls(c, j, calls))
    decreases |calls|
  {
    if calls != [] {
      OneCallTracks(c, j, calls[0]);
      BreakerTracksRuns(c, OneCall(c, j, calls[0]), calls[1..]);
    }
  }

  /** After any run, a call is admitted while the breaker is open only once the recovery time has passed since the last failure. */
  lemma NothingSentDuringRecovery(c: Settings, calls: seq<CallInput>, call: CallInput)
    requires ValidSettings(c)
    ensures var j := RunCalls(c, UNUSED, calls);
            && (Admits(c.breaker, j.breaker, call.net.startsAt) <==>
                  (TrailingFailures(j.records) >= c.breaker.threshold ==>
                     j.records[|j.records| - 1].FailedAt? && call.net.startsAt - j.records[|j.records| - 1].time >= c.breaker.recovery))
            && (!Admits(c.breaker, j.breaker, call.net.startsAt) ==> OneCall(c, j, call) == j)
  {
    assert Tracks(c.breaker, UNUSED);
    BreakerTracksRuns(c, UNUSED, calls);
  }

  /** How many calls of a run were admitted and ended with an error nothing handles. */
  function EscapedIn(c: Settings, j: Journal, calls: seq<CallInput>): nat
    requires ValidPolicy(c.policy)
    decreases |calls|
  {
    if calls == [] then 0 else
      (if Admits(c.breaker, j.breaker, calls[0].net.startsAt) && Escapes(c, calls[0]) then 1 else 0)
      + EscapedIn(c, OneCall(c, j, calls[0]), calls[1..])
  }

  /** Over any run, every admitted call is recorded once, save those that escaped. */
  lemma {:induction false} RecordsAccountForCalls(c: Settings, j: Journal, calls: seq<CallInput>)
    requires ValidPolicy(c.policy)
    ensures var end := RunCalls(c, j, calls);
            |end.records| - |j.records| + EscapedIn(c, j, calls) == |end.admittedAt| - |j.admittedAt|
    decreases |calls|
  {
    if calls != [] {
      if Admits(c.breaker, j.breaker, calls[0].net.startsAt) {
        OneOutcomeUnlessEscaped(c, j, calls[0]);
      }
      RecordsAccountForCalls(c, OneCall(c, j, calls[0]), calls[1..]);
    }
  }
}
