/** The fetch governor of the client store: the bounded error log, the
    rate limiter and the retrying fetch wrapper with its circuit breaker.
    Everything here is a function of the governor's state, the clock and
    the answers the network gives; the store class runs the same steps on
    its own fields and is proved to agree with these definitions.

    Time is an integer count of milliseconds. A wait of `d` milliseconds
    moves the clock forward by exactly `d`; the time the request itself
    takes is not modelled. The network is a function from the attempt
    number (the retry count, 0 for the first call) to what that attempt
    receives, and the random part of a back-off is an input bounded as
    `Math.random() * 2000` is. */
module Governor {
  import opened Wrappers
  import opened Incidents

  const MaxErrors: nat := 10
  const MinApiInterval: int := 500
  const BreakerThreshold: nat := 5
  const BreakerStep: nat := 2000
  const BreakerCap: nat := 30000
  const MaxRetries: nat := 2

  /** A status other than 2xx, the codes for which `response.ok` is false. */
  type FailStatus = c: int | !(200 <= c < 300) witness 500

  /** What one `fetch` yields: a 2xx response with its body, a response whose
      status is not 2xx, a fetch rejected with the `TypeError` 'Failed to
      fetch', a fetch rejected with any other error (another browser's
      network message, an abort), or a 2xx response whose body is not valid
      JSON. */
  datatype NetResult = Ok(body: Payload) | HttpStatus(code: FailStatus) | NetworkFailure | Rejected | BadBody

  /** The errors the store raises and logs: `APIError` with its status,
      `NetworkError`, a `StopSearchError` with code UNEXPECTED_ERROR, and
      the FORCE_SEARCH_ERROR wrapper of the force query. */
  datatype StoreError = ApiError(status: int) | NetworkError | UnexpectedError | ForceSearchError

  /** The random part of a back-off delay. */
  type Jitter = j: int | 0 <= j < 2000

  /** The fields the governor reads and writes. */
  datatype Gov = Gov(failures: nat, lastCall: int, errors: seq<StoreError>)

  /** The result of one call of the fetch wrapper: what it returns or throws,
      the governor state afterwards, the clock when it settles, and the times
      at which it issued requests. */
  datatype Trace = Trace(outcome: Result<Payload, StoreError>, gov: Gov, clock: int, calls: seq<int>)

  /** The newest `MaxErrors` entries of a log kept newest first. */
  function Newest(log: seq<StoreError>): (r: seq<StoreError>)
    ensures |r| <= MaxErrors && r <= log
    ensures |log| <= MaxErrors ==> r == log
  {
    if |log| <= MaxErrors then log else log[..MaxErrors]
  }

  /** `_addError`: put the error in front and drop the last entry when the log
      has grown beyond its bound. */
  function PushError(log: seq<StoreError>, e: StoreError): (r: seq<StoreError>)
    ensures |r| > 0 && r[0] == e
    ensures |log| < MaxErrors ==> r == [e] + log
    ensures |log| >= MaxErrors ==> |r| == |log| && r[1..] == log[..|log| - 1]
    ensures |log| <= MaxErrors ==> r == Newest([e] + log)
  {
    var grown := [e] + log;
    if |grown| > MaxErrors then grown[..|grown| - 1] else grown
  }

  /** Logging errors one after the other, oldest first. */
  function PushAll(log: seq<StoreError>, es: seq<StoreError>): seq<StoreError>
    decreases |es|
  {
    if es == [] then log else PushAll(PushError(log, es[0]), es[1..])
  }

  function Reversed(es: seq<StoreError>): (r: seq<StoreError>)
    ensures |r| == |es|
    ensures forall i :: 0 <= i < |es| ==> r[i] == es[|es| - 1 - i]
  {
    if es == [] then [] else Reversed(es[1..]) + [es[0]]
  }

  lemma NewestOfNewest(e: StoreError, log: seq<StoreError>)
    ensures Newest([e] + Newest(log)) == Newest([e] + log)
  {
    if |log| > MaxErrors {
      assert ([e] + log[..MaxErrors])[..MaxErrors] == ([e] + log)[..MaxErrors];
    }
  }

  /** Whatever errors are logged, starting from a log within its bound, the
      log holds the most recent ones, newest first, and never more than
      `MaxErrors` of them. */
  lemma {:induction false} PushAllKeepsNewest(log: seq<StoreError>, es: seq<StoreError>)
    requires |log| <= MaxErrors
    ensures PushAll(log, es) == Newest(Reversed(es) + log)
    ensures |PushAll(log, es)| <= MaxErrors
    decreases |es|
  {
    if es != [] {
      var next := PushError(log, es[0]);
      PushAllKeepsNewest(next, es[1..]);
      assert next == Newest([es[0]] + log);
      assert Reversed(es) == Reversed(es[1..]) + [es[0]];
      NewestOfNewest2(Reversed(es[1..]), es[0], log);
    }
  }

  lemma NewestOfNewest2(front: seq<StoreError>, e: StoreError, log: seq<StoreError>)
    ensures Newest(front + Newest([e] + log)) == Newest(front + [e] + log)
  {
    var whole := front + [e] + log;
    var cut := front + Newest([e] + log);
    assert whole == front + ([e] + log);
    if |[e] + log| > MaxErrors {
      assert |cut| >= MaxErrors && |whole| > MaxErrors;
      assert forall i :: 0 <= i < MaxErrors ==> cut[i] == whole[i];
      assert Newest(cut) == cut[..MaxErrors];
      assert cut[..MaxErrors] == whole[..MaxErrors];
    }
  }

  /** `_rateLimit`: the wait before the next request, given the time elapsed
      since the previous one. */
  function RateDelay(elapsed: int): (d: nat)
    ensures elapsed + d >= MinApiInterval
    ensures d == 0 || elapsed + d == MinApiInterval
    ensures elapsed >= MinApiInterval <==> d == 0
  {
    if elapsed < MinApiInterval then MinApiInterval - elapsed else 0
  }

  /** The circuit breaker's wait before a request, given the number of
      consecutive failures so far. */
  function BreakerDelay(failures: nat): (d: nat)
    ensures d <= BreakerCap
    ensures failures <= BreakerThreshold ==> d == 0
    ensures failures > BreakerThreshold && failures * BreakerStep <= BreakerCap ==> d == failures * BreakerStep
    ensures failures * BreakerStep >= BreakerCap ==> failures <= BreakerThreshold || d == BreakerCap
  {
    if failures <= BreakerThreshold then 0
    else if failures * BreakerStep < BreakerCap then failures * BreakerStep
    else BreakerCap
  }

  function Pow3(n: nat): (r: nat)
    ensures r >= 1
  {
    if n == 0 then 1 else 3 * Pow3(n - 1)
  }

  /** The wait before retrying a rate-limited request: `3^(retry+1)` seconds
      plus up to two seconds of jitter. */
  function Backoff(retry: nat, j: Jitter): (d: nat)
    ensures d >= 3000
    ensures retry == 0 ==> 3000 <= d < 5000
    ensures retry == 1 ==> 9000 <= d < 11000
  {
    assert Pow3(1) == 3 && Pow3(2) == 9;
    Pow3(retry + 1) * 1000 + j
  }

  /** The catch block of the wrapper: one more failure, and the error logged. */
  function Caught(g: Gov, e: StoreError): Gov {
    g.(failures := g.failures + 1, errors := PushError(g.errors, e))
  }

  /** When a request goes out: after the circuit breaker's wait, if any, and
      then the rate limiter's. */
  function SentAt(g: Gov, clock: int): (sent: int)
    ensures sent >= clock + BreakerDelay(g.failures)
    ensures sent >= g.lastCall + MinApiInterval
  {
    var woke := clock + BreakerDelay(g.failures);
    woke + RateDelay(woke - g.lastCall)
  }

  /** The answers that make the wrapper wait and call itself again. */
  predicate Retried(r: NetResult, retry: nat) {
    r == HttpStatus(429) && retry < MaxRetries
  }

  /** How a request sent at `sent` settles when it is not retried. A 2xx
      response resets the failure count and returns the body (a body that
      does not parse is an unexpected error, counted once after the reset);
      a non-2xx response is counted, thrown as an `APIError`, and counted
      again and logged by the catch block; a fetch rejected with 'Failed to
      fetch' is counted and logged as a network error, and one rejected with
      any other error as an unexpected error. */
  function Settle(g: Gov, sent: int, r: NetResult): (t: Trace)
    ensures t.calls == [sent] && t.clock == sent && t.gov.lastCall == g.lastCall
    ensures t.outcome.Success? <==> r.Ok?
    ensures t.outcome.Success? ==> t.outcome.value == r.body && t.gov.failures == 0 && t.gov.errors == g.errors
    ensures t.outcome.Failure? ==> t.gov.errors == PushError(g.errors, t.outcome.error)
    ensures t.outcome.Failure? ==> !t.outcome.error.ForceSearchError?
    ensures r.HttpStatus? ==> t.outcome == Failure(ApiError(r.code)) && t.gov.failures == g.failures + 2
    ensures r.NetworkFailure? ==> t.outcome == Failure(NetworkError) && t.gov.failures == g.failures + 1
    ensures r.Rejected? ==> t.outcome == Failure(UnexpectedError) && t.gov.failures == g.failures + 1
    ensures r.BadBody? ==> t.outcome == Failure(UnexpectedError) && t.gov.failures == 1
  {
    match r
    case Ok(body) => Trace(Success(body), g.(failures := 0), sent, [sent])
    case BadBody => Trace(Failure(UnexpectedError), Caught(g.(failures := 0), UnexpectedError), sent, [sent])
    case NetworkFailure => Trace(Failure(NetworkError), Caught(g, NetworkError), sent, [sent])
    case Rejected => Trace(Failure(UnexpectedError), Caught(g, UnexpectedError), sent, [sent])
    case HttpStatus(code) =>
      Trace(Failure(ApiError(code)), Caught(g.(failures := g.failures + 1), ApiError(code)), sent, [sent])
  }

  /** `_fetchWithErrorHandling(url, options, retry)` started at time `clock`.
      A non-2xx response counts a failure; a 429 while `retry < 2` waits the
      back-off and returns the retried call, whose failure this call's catch
      block does not see (the recursive call is returned, not awaited); every
      other answer settles as `Settle` says. */
  function Attempt(g: Gov, clock: int, retry: nat, net: nat -> NetResult, jitter: nat -> Jitter): Trace
    decreases if retry < MaxRetries then MaxRetries - retry else 0
  {
    var sent := SentAt(g, clock);
    if Retried(net(retry), retry) then
      var inner := Attempt(g.(lastCall := sent, failures := g.failures + 1),
                           sent + Backoff(retry, jitter(retry)), retry + 1, net, jitter);
      inner.(calls := [sent] + inner.calls)
    else
      Settle(g.(lastCall := sent), sent, net(retry))
  }

  /** A retried 429: the call ends as the retry it starts after counting
      the failure and backing off. */
  lemma AttemptRetried(g: Gov, clock: int, retry: nat, net: nat -> NetResult, jitter: nat -> Jitter,
                       sent: int, o: Result<Payload, StoreError>, g2: Gov, c2: int)
    requires Retried(net(retry), retry) && sent == SentAt(g, clock)
    requires var inner := Attempt(g.(lastCall := sent, failures := g.failures + 1),
                                  sent + Backoff(retry, jitter(retry)), retry + 1, net, jitter);
      inner.outcome == o && inner.gov == g2 && inner.clock == c2
    ensures var t := Attempt(g, clock, retry, net, jitter); t.outcome == o && t.gov == g2 && t.clock == c2
  {
    var inner := Attempt(g.(lastCall := sent, failures := g.failures + 1),
                         sent + Backoff(retry, jitter(retry)), retry + 1, net, jitter);
    assert Attempt(g, clock, retry, net, jitter) == inner.(calls := [sent] + inner.calls);
  }

  /** Any other answer: the call ends as `Settle` of that answer. */
  lemma AttemptSettled(g: Gov, clock: int, retry: nat, net: nat -> NetResult, jitter: nat -> Jitter)
    requires !Retried(net(retry), retry)
    ensures Attempt(g, clock, retry, net, jitter) == Settle(g.(lastCall := SentAt(g, clock)), SentAt(g, clock), net(retry))
  {
  }

  /** How many requests a call starting at attempt `retry` makes: one, plus
      the retried call's when this one is answered by a retried 429. */
  function Attempts(retry: nat, net: nat -> NetResult): (n: nat)
    ensures n >= 1
    decreases if retry < MaxRetries then MaxRetries - retry else 0
  {
    if Retried(net(retry), retry) then 1 + Attempts(retry + 1, net) else 1
  }

  /** Only a 429 on an attempt before the last is retried: every answer but
      the last was a retried 429, the last was not, and no call makes more
      than `MaxRetries + 1` requests. */
  lemma {:induction false} AttemptsOnly429(retry: nat, net: nat -> NetResult)
    ensures var last := retry + Attempts(retry, net) - 1;
      (forall j :: retry <= j < last ==> Retried(net(j), j))
      && !Retried(net(last), last)
      && (retry <= MaxRetries ==> Attempts(retry, net) <= MaxRetries + 1 - retry)
    decreases if retry < MaxRetries then MaxRetries - retry else 0
  {
    if Retried(net(retry), retry) {
      AttemptsOnly429(retry + 1, net);
    }
  }

  /** A call issues one request per attempt, the last request's time is what
      `lastApiCall` holds afterwards, and the call returns a body exactly
      when the last answer was a 2xx response. */
  lemma {:induction false} AttemptCalls(g: Gov, clock: int, retry: nat, net: nat -> NetResult, jitter: nat -> Jitter)
    ensures var t := Attempt(g, clock, retry, net, jitter);
      |t.calls| == Attempts(retry, net)
      && t.gov.lastCall == t.calls[|t.calls| - 1] == t.clock
      && (t.outcome.Success? <==> net(retry + Attempts(retry, net) - 1).Ok?)
    decreases if retry < MaxRetries then MaxRetries - retry else 0
  {
    var sent := SentAt(g, clock);
    if Retried(net(retry), retry) {
      AttemptCalls(g.(lastCall := sent, failures := g.failures + 1),
                   sent + Backoff(retry, jitter(retry)), retry + 1, net, jitter);
    }
  }

  /** Requests are spaced by at least the minimum interval: the first one
      comes at least `MinApiInterval` after the previous call and never
      before the circuit breaker's wait is over, and each retry at least the
      back-off after the request it repeats. */
  lemma {:induction false} AttemptSpacing(g: Gov, clock: int, retry: nat, net: nat -> NetResult, jitter: nat -> Jitter)
    ensures var t := Attempt(g, clock, retry, net, jitter);
      |t.calls| >= 1
      && t.calls[0] >= g.lastCall + MinApiInterval
      && t.calls[0] >= clock + BreakerDelay(g.failures)
      && forall i :: 0 <= i < |t.calls| - 1 ==> t.calls[i + 1] >= t.calls[i] + 3000
    decreases if retry < MaxRetries then MaxRetries - retry else 0
  {
    var sent := SentAt(g, clock);
    var g2 := g.(lastCall := sent, failures := g.failures + 1);
    if Retried(net(retry), retry) {
      var back := sent + Backoff(retry, jitter(retry));
      AttemptSpacing(g2, back, retry + 1, net, jitter);
      var inner := Attempt(g2, back, retry + 1, net, jitter);
      assert inner.calls[0] >= back;
    }
  }

  /** A call that returns a body leaves no consecutive failures and logs
      nothing. */
  lemma {:induction false} AttemptSuccessResets(g: Gov, clock: int, retry: nat, net: nat -> NetResult, jitter: nat -> Jitter)
    ensures var t := Attempt(g, clock, retry, net, jitter);
      t.outcome.Success? ==> t.gov.failures == 0 && t.gov.errors == g.errors
    decreases if retry < MaxRetries then MaxRetries - retry else 0
  {
    var sent := SentAt(g, clock);
    var g2 := g.(lastCall := sent, failures := g.failures + 1);
    if Retried(net(retry), retry) {
      AttemptSuccessResets(g2, sent + Backoff(retry, jitter(retry)), retry + 1, net, jitter);
    }
  }

  /** A call that throws logs exactly the error it throws, once, and the
      error is one the wrapper raises itself. */
  lemma {:induction false} AttemptFailureLogsOnce(g: Gov, clock: int, retry: nat, net: nat -> NetResult, jitter: nat -> Jitter)
    ensures var t := Attempt(g, clock, retry, net, jitter);
      t.outcome.Failure? ==>
        t.gov.errors == PushError(g.errors, t.outcome.error) && !t.outcome.error.ForceSearchError?
    decreases if retry < MaxRetries then MaxRetries - retry else 0
  {
    var sent := SentAt(g, clock);
    var g2 := g.(lastCall := sent, failures := g.failures + 1);
    if Retried(net(retry), retry) {
      AttemptFailureLogsOnce(g2, sent + Backoff(retry, jitter(retry)), retry + 1, net, jitter);
    }
  }

  /** Three rate-limited answers in a row: two back-offs, three requests, and
      a final `APIError(429)`; the failure count grows by four (one for each
      of the first two answers, two for the last). */
  lemma ThreeRateLimits(g: Gov, clock: int, net: nat -> NetResult, jitter: nat -> Jitter)
    requires net(0) == HttpStatus(429) && net(1) == HttpStatus(429) && net(2) == HttpStatus(429)
    ensures var t := Attempt(g, clock, 0, net, jitter);
      t.outcome == Failure(ApiError(429)) && |t.calls| == 3 && t.gov.failures == g.failures + 4
      && t.gov.errors == PushError(g.errors, ApiError(429))
  {
    var s0 := SentAt(g, clock);
    var g1 := g.(lastCall := s0, failures := g.failures + 1);
    var c1 := s0 + Backoff(0, jitter(0));
    var s1 := SentAt(g1, c1);
    var g2 := g1.(lastCall := s1, failures := g1.failures + 1);
    var c2 := s1 + Backoff(1, jitter(1));
    assert Attempt(g1, c1, 1, net, jitter).calls == [s1] + Attempt(g2, c2, 2, net, jitter).calls;
  }
}
