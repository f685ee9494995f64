/** The HTTP client's call: attempts, retries, and what it records at the breaker. The network is an input. */
module Client {
  import opened Outcomes
  import opened Reliability

  /**
   What becomes of one request: it cannot be formed, so that the library raises a `ValueError` or
   `OverflowError` (a header value outside Latin-1 or with a line break, a port out of range, a
   negative timeout); the connection fails before it is sent, or is lost while the response is awaited
   or read (`begun` is the status if that arrived; `tls` tells a TLS error); or an answer comes.
   */
  datatype Wire =
    | Unformed
    | Unsent
    | Lost(begun: Option<int>, tls: bool)
    | Answer(status: int, body: Body)

  /**
   A response body, as far as the client tells bodies apart. `Undecodable` is one on which decoding
   raises anything but a JSON syntax error, such as bytes that are not UTF-8. `BadDetails` is an
   error with a known code whose `details` are no mapping, such as null.
   */
  datatype Body =
    | Nothing
    | NotJson
    | NotObject
    | ErrorBody(retryable: bool)
    | BadDetails
    | ResultBody(result: string)
    | Undecodable

  /** How a post ends: a body, one of the two errors the call handles, or one it does not. */
  datatype Reply = Received(body: Body) | HttpStatus(status: int) | Unreachable | Unhandled

  /** A status raised as an error: from 400 on over a kept-alive connection, and all but 2xx by the library's opener. */
  predicate RaisedStatus(keepAlive: bool, status: int)
  {
    if keepAlive then status >= 400 else !(200 <= status < 300)
  }

  /**
   Over a kept-alive connection every broken connection is reported as unreachable. The library's
   opener reports only what fails before the request is sent; of later errors the call handles TLS
   errors, unless they occur while it reads the body of an error status.
   */
  function ReplyOf(keepAlive: bool, w: Wire): Reply
  {
    match w
    case Unformed => Unhandled
    case Unsent => Unreachable
    case Lost(status, tls) =>
      if keepAlive || (tls && (status.Some? ==> !RaisedStatus(keepAlive, status.value))) then Unreachable else Unhandled
    case Answer(status, body) => if RaisedStatus(keepAlive, status) then HttpStatus(status) else Received(body)
  }

  predicate ConnectionBroken(w: Wire)
  {
    w.Unsent? || w.Lost?
  }

  /** A keep-alive post sends again once when the connection turns out broken; without keep-alive it sends once. */
  function Posted(keepAlive: bool, wire: nat -> Wire, at: nat): (Reply, nat)
  {
    if keepAlive && ConnectionBroken(wire(at)) then (ReplyOf(keepAlive, wire(at + 1)), at + 2) else (ReplyOf(keepAlive, wire(at)), at + 1)
  }

  /** Everything a call meets outside the client: what each request gets, each jitter draw, and the times it starts and ends. */
  datatype Network = Network(startsAt: real, wire: nat -> Wire, draw: nat -> real, endsAt: real)

  /** `encodable` says that the call's parameters are JSON values. */
  datatype CallInput = CallInput(encodable: bool, net: Network)

  datatype Ending =
    | Returned(value: Option<string>)
    | Failed(code: ErrorCode)
    | Escaped

  /** A reply the client may retry. */
  predicate Retryable(p: RetryPolicy, r: Reply)
  {
    match r
    case HttpStatus(status) => status in p.retryableStatus
    case Unreachable => true
    case Received(ErrorBody(retryable)) => retryable
    case _ => false
  }

  /** Attempt `n` is to be retried, if waiting does not raise. */
  predicate WantsRetry(p: RetryPolicy, keepAlive: bool, net: Network, n: nat)
    requires n >= 1
  {
    n < p.maxAttempts && Retryable(p, ReplyTo(keepAlive, net.wire, n))
  }

  predicate Retries(p: RetryPolicy, keepAlive: bool, net: Network, n: nat)
    requires n >= 1
  {
    WantsRetry(p, keepAlive, net, n) && !CannotWait(p, n, net.draw(n))
  }

  /** What the call ends with if attempt `n` is its last. */
  function EndingAt(p: RetryPolicy, keepAlive: bool, net: Network, n: nat): Ending
    requires n >= 1
  {
    if WantsRetry(p, keepAlive, net, n) then Escaped else EndingOf(ReplyTo(keepAlive, net.wire, n))
  }

  /** What the call ends with if this reply is its last, and is not to be retried. */
  function EndingOf(r: Reply): Ending
  {
    match r
    case Received(Nothing) => Returned(None)
    case Received(ResultBody(result)) => Returned(Some(result))
    case Received(Undecodable) => Escaped
    case Received(BadDetails) => Escaped
    case Unhandled => Escaped
    case _ => Failed(InternalError)
  }

  function RecordedBy(c: BreakerConfig, b: BreakerState, e: Ending, now: real): BreakerState
  {
    match e
    case Returned(_) => AfterSuccess(b)
    case Failed(_) => AfterFailure(c, b, now)
    case Escaped => b
  }

  function RecordOf(e: Ending, now: real): seq<Record>
  {
    match e
    case Returned(_) => [Succeeded]
    case Failed(_) => [FailedAt(now)]
    case Escaped => []
  }

  datatype Trace = Trace(ending: Ending, attempts: nat, requests: nat, slept: real)

  /** The requests sent by the first `n` attempts of a call that keeps retrying. */
  function RequestsBefore(keepAlive: bool, wire: nat -> Wire, n: nat): nat
  {
    if n == 0 then 0 else Posted(keepAlive, wire, RequestsBefore(keepAlive, wire, n - 1)).1
  }

  /** Reply `n` (from 1) of a call that keeps retrying. */
  function ReplyTo(keepAlive: bool, wire: nat -> Wire, n: nat): Reply
    requires n >= 1
  {
    Posted(keepAlive, wire, RequestsBefore(keepAlive, wire, n - 1)).0
  }

  function Slept(p: RetryPolicy, n: nat, draw: real): real
  {
    var d := Delay(p, n, draw);
    if d > 0.0 then d else 0.0
  }

  /** The sleep before attempt `n + 1`. */
  function SleepAfter(p: RetryPolicy, net: Network, n: nat): real
  {
    Slept(p, n, net.draw(n))
  }

  function SleptAfter(p: RetryPolicy, net: Network, n: nat): real
  {
    if n == 0 then 0.0 else SleptAfter(p, net, n - 1) + SleepAfter(p, net, n)
  }

  /** The attempt a call ends with: the first it does not retry, because of its reply, because it is the last, or because waiting raises. */
  predicate EndsAt(p: RetryPolicy, keepAlive: bool, net: Network, n: nat)
  {
    && 1 <= n <= p.maxAttempts
    && !Retries(p, keepAlive, net, n)
    && forall i | 1 <= i < n :: Retries(p, keepAlive, net, i)
  }

  /** Looking for that attempt from attempt `n` on. */
  function FinalAttempt(p: RetryPolicy, keepAlive: bool, net: Network, n: nat): (last: nat)
    requires 1 <= n <= p.maxAttempts
    ensures n <= last <= p.maxAttempts
    decreases p.maxAttempts - n
  {
    if Retries(p, keepAlive, net, n) then FinalAttempt(p, keepAlive, net, n + 1) else n
  }

  lemma {:induction false} FinalAttemptEnds(p: RetryPolicy, keepAlive: bool, net: Network, n: nat)
    requires 1 <= n <= p.maxAttempts
    requires forall i | 1 <= i < n :: Retries(p, keepAlive, net, i)
    ensures EndsAt(p, keepAlive, net, FinalAttempt(p, keepAlive, net, n))
    decreases p.maxAttempts - n
  {
    if Retries(p, keepAlive, net, n) {
      FinalAttemptEnds(p, keepAlive, net, n + 1);
    }
  }

  /** Whatever the network does, there is exactly one attempt a call ends with. */
  lemma CallEndsOnce(p: RetryPolicy, keepAlive: bool, net: Network, n: nat)
    requires ValidPolicy(p)
    ensures EndsAt(p, keepAlive, net, n) <==> n == FinalAttempt(p, keepAlive, net, 1)
  {
    FinalAttemptEnds(p, keepAlive, net, 1);
  }

  /** The trace of an admitted call. Parameters that are no JSON raise in the first attempt, before anything is sent. */
  function TraceOf(p: RetryPolicy, keepAlive: bool, call: CallInput): Trace
    requires ValidPolicy(p)
  {
    if !call.encodable then Trace(Escaped, 1, 0, 0.0) else
      var n := FinalAttempt(p, keepAlive, call.net, 1);
      Trace(EndingAt(p, keepAlive, call.net, n), n, RequestsBefore(keepAlive, call.net.wire, n), SleptAfter(p, call.net, n - 1))
  }

  /** A call that has retried `n` attempts, with what it has sent and slept so far. */
  ghost predicate Retrying(p: RetryPolicy, keepAlive: bool, net: Network, n: nat, sent: nat, slept: real)
  {
    && sent == RequestsBefore(keepAlive, net.wire, n) && slept == SleptAfter(p, net, n)
    && forall i | 1 <= i <= n :: Retries(p, keepAlive, net, i)
  }

  lemma NextPost(keepAlive: bool, wire: nat -> Wire, n: nat)
    ensures Posted(keepAlive, wire, RequestsBefore(keepAlive, wire, n))
            == (ReplyTo(keepAlive, wire, n + 1), RequestsBefore(keepAlive, wire, n + 1))
  {
  }

  /** The next attempt of such a call is retried ... */
  lemma RetriedAttempt(p: RetryPolicy, keepAlive: bool, net: Network, n: nat, sent: nat, slept: real)
    requires Retrying(p, keepAlive, net, n, sent, slept) && Retries(p, keepAlive, net, n + 1)
    ensures Retrying(p, keepAlive, net, n + 1, Posted(keepAlive, net.wire, sent).1, slept + SleepAfter(p, net, n + 1))
  {
    NextPost(keepAlive, net.wire, n);
  }

  /** ... or its trace is the trace of the call. */
  lemma LastAttempt(p: RetryPolicy, keepAlive: bool, net: Network, n: nat, sent: nat, slept: real)
    requires ValidPolicy(p) && n < p.maxAttempts && Retrying(p, keepAlive, net, n, sent, slept) && !Retries(p, keepAlive, net, n + 1)
    ensures TraceOf(p, keepAlive, CallInput(true, net))
            == Trace(EndingAt(p, keepAlive, net, n + 1), n + 1, Posted(keepAlive, net.wire, sent).1, slept)
  {
    NextPost(keepAlive, net.wire, n);
    assert EndsAt(p, keepAlive, net, n + 1);
    CallEndsOnce(p, keepAlive, net, n + 1);
  }

  /** Which fates of a request the call has no handler for. */
  predicate EscapesOn(keepAlive: bool, w: Wire)
  {
    match w
    case Unformed => true
    case Unsent => false
    case Lost(status, tls) => !keepAlive && !(tls && (status.None? || 200 <= status.value < 300))
    case Answer(status, body) => !RaisedStatus(keepAlive, status) && (body.Undecodable? || body.BadDetails?)
  }

  /** A client's settings. */
  datatype Settings = Settings(policy: RetryPolicy, breaker: BreakerConfig, keepAlive: bool)

  predicate ValidSettings(c: Settings)
  {
    ValidPolicy(c.policy) && ValidConfig(c.breaker)
  }

  /** The breaker, everything recorded at it, and when calls were admitted. */
  datatype Journal = Journal(breaker: BreakerState, records: seq<Record>, admittedAt: seq<real>)

  /** One call in a run: an open breaker refuses it before anything is sent. */
  function OneCall(c: Settings, j: Journal, call: CallInput): Journal
    requires ValidPolicy(c.policy)
  {
    if !Admits(c.breaker, j.breaker, call.net.startsAt) then j else
      var ending := TraceOf(c.policy, c.keepAlive, call).ending;
      Journal(RecordedBy(c.breaker, j.breaker, ending, call.net.endsAt), j.records + RecordOf(ending, call.net.endsAt),
              j.admittedAt + [call.net.startsAt])
  }

  /**
   The call ends with an error nothing handles: its parameters are no JSON, its last request met such
   a fate, or it was to be retried but waiting raises.
   */
  predicate Escapes(c: Settings, call: CallInput)
    requires ValidPolicy(c.policy)
  {
    !call.encodable ||
    (var n := FinalAttempt(c.policy, c.keepAlive, call.net, 1);
     || EscapesOn(c.keepAlive, call.net.wire(RequestsBefore(c.keepAlive, call.net.wire, n) - 1))
     || WantsRetry(c.policy, c.keepAlive, call.net, n))
  }

  /** An admitted call records exactly one outcome if and only if it does not escape, and none otherwise. */
  lemma OneOutcomeUnlessEscaped(c: Settings, j: Journal, call: CallInput)
    requires ValidPolicy(c.policy) && Admits(c.breaker, j.breaker, call.net.startsAt)
    ensures |OneCall(c, j, call).records| == |j.records| + if Escapes(c, call) then 0 else 1
    ensures Escapes(c, call) ==> OneCall(c, j, call).breaker == j.breaker
  {
  }

  /** The fates after which the client may try again. */
  predicate Trouble(p: RetryPolicy, keepAlive: bool, w: Wire)
  {
    match w
    case Unformed => false
    case Unsent => true
    case Lost(begun, tls) => keepAlive || (tls && (begun.None? || 200 <= begun.value < 300))
    case Answer(status, body) =>
      if (if keepAlive then status < 400 else 200 <= status < 300) then body == ErrorBody(true) else status in p.retryableStatus
  }

  /** The request that settled attempt `n` of a call. */
  function LastOf(keepAlive: bool, net: Network, n: nat): Wire
    requires n >= 1
  {
    net.wire(RequestsBefore(keepAlive, net.wire, n) - 1)
  }

  lemma TroubleIsRetryable(p: RetryPolicy, keepAlive: bool, net: Network, n: nat)
    requires n >= 1
    ensures Retryable(p, ReplyTo(keepAlive, net.wire, n)) <==> Trouble(p, keepAlive, LastOf(keepAlive, net, n))
  {
  }

  /** An attempt is followed by another if and only if its last request met trouble, attempts are left, and the wait can be computed. */
  lemma AttemptsFollowTrouble(c: Settings, net: Network, n: nat)
    requires ValidPolicy(c.policy) && 1 <= n <= TraceOf(c.policy, c.keepAlive, CallInput(true, net)).attempts
    ensures n < TraceOf(c.policy, c.keepAlive, CallInput(true, net)).attempts <==>
              n < c.policy.maxAttempts && Trouble(c.policy, c.keepAlive, LastOf(c.keepAlive, net, n)) && !CannotWait(c.policy, n, net.draw(n))
  {
    var last := FinalAttempt(c.policy, c.keepAlive, net, 1);
    FinalAttemptEnds(c.policy, c.keepAlive, net, 1);
    assert n < last ==> Retries(c.policy, c.keepAlive, net, n);
    assert n == last ==> !Retries(c.policy, c.keepAlive, net, n);
    TroubleIsRetryable(c.policy, c.keepAlive, net, n);
  }

  /** The body of an answer that is not raised as an error. */
  function BodyOf(keepAlive: bool, w: Wire): Option<Body>
  {
    if w.Answer? && (if keepAlive then w.status < 400 else 200 <= w.status < 300) then Some(w.body) else None
  }

  /**
   A call returns exactly what its last request was answered: a result, or nothing for an empty
   body. Whatever else does not escape fails.
   */
  lemma CallReturnsItsAnswer(c: Settings, call: CallInput, x: string)
    requires ValidPolicy(c.policy) && call.encodable
    ensures var t := TraceOf(c.policy, c.keepAlive, call);
            && t.requests > 0
            && var last := BodyOf(c.keepAlive, call.net.wire(t.requests - 1));
               && (t.ending == Returned(Some(x)) <==> last == Some(ResultBody(x)))
               && (t.ending == Returned(None) <==> last == Some(Nothing))
               && (t.ending.Failed? <==> !Escapes(c, call) && last != Some(Nothing) && !(last.Some? && last.value.ResultBody?))
  {
    var n := FinalAttempt(c.policy, c.keepAlive, call.net, 1);
    EndingFits(c, call.net, n, x);
  }

  lemma EndingFits(c: Settings, net: Network, n: nat, x: string)
    requires n >= 1
    ensures RequestsBefore(c.keepAlive, net.wire, n) > 0
    ensures var w, e := LastOf(c.keepAlive, net, n), EndingAt(c.policy, c.keepAlive, net, n);
            Fits(c.keepAlive, w, e, x) && (e.Escaped? <==> EscapesOn(c.keepAlive, w) || WantsRetry(c.policy, c.keepAlive, net, n))
  {
    var w := LastOf(c.keepAlive, net, n);
    assert ReplyTo(c.keepAlive, net.wire, n) == ReplyOf(c.keepAlive, w);
    ReplyFits(c.keepAlive, w, x);
    TroubleIsRetryable(c.policy, c.keepAlive, net, n);
    if WantsRetry(c.policy, c.keepAlive, net, n) {
      assert Trouble(c.policy, c.keepAlive, w);
    }
  }

  /** The ending returns what the body says, if it says anything to return. */
  predicate Fits(keepAlive: bool, w: Wire, e: Ending, x: string)
  {
    var last := BodyOf(keepAlive, w);
    && (e == Returned(Some(x)) <==> last == Some(ResultBody(x)))
    && (e == Returned(None) <==> last == Some(Nothing))
    && (e.Returned? <==> last == Some(Nothing) || (last.Some? && last.value.ResultBody?))
  }

  lemma ReplyFits(keepAlive: bool, w: Wire, x: string)
    ensures var e := EndingOf(ReplyOf(keepAlive, w));
            Fits(keepAlive, w, e, x) && (e.Escaped? <==> EscapesOn(keepAlive, w))
  {
  }

  /** Every fate without handler happens: when each request meets it, the first attempt ends the call unrecorded. */
  lemma EveryEscapeHappens(c: Settings, j: Journal, w: Wire, time: real)
    requires ValidPolicy(c.policy) && j.breaker.openedAt.None? && EscapesOn(c.keepAlive, w)
    ensures var call := CallInput(true, Network(time, _ => w, _ => 0.0, time));
            && TraceOf(c.policy, c.keepAlive, call).attempts == 1 && Escapes(c, call)
            && OneCall(c, j, call) == j.(admittedAt := j.admittedAt + [time])
  {
    var call := CallInput(true, Network(time, _ => w, _ => 0.0, time));
    assert ReplyOf(c.keepAlive, w).Unhandled? || ReplyOf(c.keepAlive, w).Received?;
    assert j.records + [] == j.records;
  }

  lemma {:induction false} StopsWhereWaitingRaises(c: Settings, net: Network, from: nat, n: nat)
    requires ValidPolicy(c.policy) && 1 <= from <= n < c.policy.maxAttempts && CannotWait(c.policy, n, net.draw(n))
    requires forall i | 1 <= i <= n :: Retryable(c.policy, ReplyTo(c.keepAlive, net.wire, i))
    ensures from <= FinalAttempt(c.policy, c.keepAlive, net, from) <= n
    decreases n - from
  {
    if from < n && Retries(c.policy, c.keepAlive, net, from) {
      StopsWhereWaitingRaises(c, net, from + 1, n);
    }
  }

  /** So does the other escape: a call allowed more attempts than its backoff can count is lost where every reply asks for a retry. */
  lemma BackoffOverflowEscapes(c: Settings, net: Network, n: nat)
    requires ValidPolicy(c.policy) && 1 <= n < c.policy.maxAttempts && CannotWait(c.policy, n, net.draw(n))
    requires forall i | 1 <= i <= n :: Retryable(c.policy, ReplyTo(c.keepAlive, net.wire, i))
    ensures Escapes(c, CallInput(true, net)) && TraceOf(c.policy, c.keepAlive, CallInput(true, net)).attempts <= n
  {
    StopsWhereWaitingRaises(c, net, 1, n);
  }

  /** With the default multiplier 2 that is the case from attempt 1025 on. */
  lemma DefaultBackoffOverflows(p: RetryPolicy, draw: real)
    requires p.multiplier == 2.0
    ensures CannotWait(p, 1025, draw)
  {
    PowGrows(2.0, 970);
    assert Exponent(1025) == 1024;
  }

  /** `_KeepAliveConnection.post`, or the single request without keep-alive. */
  method Post(keepAlive: bool, wire: nat -> Wire, at: nat) returns (r: Reply, next: nat)
    ensures (r, next) == Posted(keepAlive, wire, at)
    ensures next == if keepAlive && (wire(at).Unsent? || wire(at).Lost?) then at + 2 else at + 1
  {
    next := at;
    var tries := if keepAlive then 2 else 1;
    for attempt := 0 to tries
      invariant next == at + attempt
      invariant attempt == 1 ==> keepAlive && ConnectionBroken(wire(at))
      invariant attempt < tries
    {
      var w := wire(next);
      next := next + 1;
      if ConnectionBroken(w) && attempt + 1 < tries {
        continue;
      }
      return ReplyOf(keepAlive, w), next;
    }
    r := Unreachable;
  }

  class Transport {
    const policy: RetryPolicy
    const breaker: CircuitBreaker
    const keepAlive: bool

    constructor (policy: RetryPolicy, breaker: CircuitBreaker, keepAlive: bool)
      ensures this.policy == policy && this.breaker == breaker && this.keepAlive == keepAlive
    {
      this.policy, this.breaker, this.keepAlive := policy, breaker, keepAlive;
    }

    function Configured(): Settings
    {
      Settings(policy, breaker.config, keepAlive)
    }

    /** `_record_success` or `_record_failure`, by how the call ends. */
    method RecordEnding(ending: Ending, now: real)
      modifies breaker
      ensures breaker.State() == RecordedBy(breaker.config, old(breaker.State()), ending, now)
      ensures breaker.records == old(breaker.records) + RecordOf(ending, now)
    {
      match ending {
        case Returned(_) => breaker.RecordSuccess();
        case Failed(_) => breaker.RecordFailure(now);
        case Escaped => assert breaker.records + [] == breaker.records;
      }
    }

    /** `_maybe_retry`: whether to try again, after a sleep, or the wait raises. */
    method MaybeRetry(attempt: nat, retryable: bool, draw: real) returns (again: bool, raised: bool, slept: real)
      ensures raised <==> retryable && attempt < policy.maxAttempts && CannotWait(policy, attempt, draw)
      ensures again <==> retryable && attempt < policy.maxAttempts && !CannotWait(policy, attempt, draw)
      ensures again ==> slept == Slept(policy, attempt, draw)
    {
      if !retryable || attempt >= policy.maxAttempts {
        return false, false, 0.0;
      }
      if CannotWait(policy, attempt, draw) {
        return false, true, 0.0;
      }
      var delay := Delay(policy, attempt, draw);
      again, raised, slept := true, false, if delay > 0.0 then delay else 0.0;
    }

    /** One turn of the loop: attempt `n + 1`, of a call that has sent and slept as given. */
    method OneAttempt(net: Network, n: nat, sent: nat, slept: real) returns (last: Option<Trace>, next: nat, rested: real)
      requires ValidPolicy(policy) && n < policy.maxAttempts && Retrying(policy, keepAlive, net, n, sent, slept)
      ensures last.Some? ==> last.value == TraceOf(policy, keepAlive, CallInput(true, net))
      ensures last.None? ==> n + 1 < policy.maxAttempts && Retrying(policy, keepAlive, net, n + 1, next, rested)
    {
      var reply;
      reply, next := Post(keepAlive, net.wire, sent);
      NextPost(keepAlive, net.wire, n);
      var again, raised, pause := MaybeRetry(n + 1, Retryable(policy, reply), net.draw(n + 1));
      rested := slept;
      if again {
        RetriedAttempt(policy, keepAlive, net, n, sent, slept);
        return None, next, slept + pause;
      }
      LastAttempt(policy, keepAlive, net, n, sent, slept);
      last := Some(Trace(if raised then Escaped else EndingOf(reply), n + 1, next, slept));
    }

    /** The attempts of an admitted call, up to the one that ends it. */
    method Attempt(net: Network) returns (t: Trace)
      requires ValidPolicy(policy)
      ensures t == TraceOf(policy, keepAlive, CallInput(true, net))
    {
      var attempt, sent, slept := 0, 0, 0.0;
      while attempt < policy.maxAttempts
        invariant 0 <= attempt < policy.maxAttempts
        invariant Retrying(policy, keepAlive, net, attempt, sent, slept)
      {
        var last;
        last, sent, slept := OneAttempt(net, attempt, sent, slept);
        if last.Some? {
          return last.value;
        }
        attempt := attempt + 1;
      }
      assert false;
    }

    /** An open breaker refuses the call before anything is sent. An admitted call ends at its final attempt, and records once unless it escapes. */
    method Call(call: CallInput) returns (r: Result<Trace>)
      requires ValidPolicy(policy)
      modifies breaker
      ensures r.Ok? <==> Admits(breaker.config, old(breaker.State()), call.net.startsAt)
      ensures r.Err? ==> r.code == RateLimited
      ensures r.Ok? ==> r.value == TraceOf(policy, keepAlive, call)
      ensures r.Ok? ==> |breaker.records| == |old(breaker.records)| + if Escapes(Configured(), call) then 0 else 1
      ensures var j := OneCall(Configured(), Journal(old(breaker.State()), old(breaker.records), []), call);
              breaker.State() == j.breaker && breaker.records == j.records
    {
      var admitted := breaker.BeforeCall(call.net.startsAt);
      if admitted.Err? {
        return Err(admitted.code);
      }
      var trace;
      if call.encodable {
        trace := Attempt(call.net);
        assert CallInput(true, call.net) == call;
      } else {
        trace := Trace(Escaped, 1, 0, 0.0);
      }
      RecordEnding(trace.ending, call.net.endsAt);
      r := Ok(trace);
    }
  }
}
