/**
 * `AdaptiveRateLimiter` and `APIServiceManager`: per-service request
 * spacing, a sixty-second burst window, an adaptive minimum interval and a
 * circuit breaker (CLOSED / OPEN / HALF_OPEN). The clock is a parameter
 * (`now`, in seconds); intervals and response times are reals.
 */
module RateLimiting {
  import opened Wrappers
  import Text

  datatype Circuit = Closed | Open | HalfOpen

  /** `RateLimitConfig`. */
  datatype Config = Config(
    requestsPerMinute: int,
    burstLimit: int,
    backoffMultiplier: real,
    maxBackoff: real,
    failureThreshold: int,
    circuitTimeout: real,
    adaptiveScaling: bool)

  /** `RateLimitConfig()` with every field at its default. */
  const DefaultConfig := Config(60, 10, 1.5, 300.0, 5, 60.0, true)
  const CoinGecko := DefaultConfig.(requestsPerMinute := 50, burstLimit := 5, failureThreshold := 3)
  const Taapi := DefaultConfig.(requestsPerMinute := 1, burstLimit := 1, backoffMultiplier := 2.0, failureThreshold := 2)
  const AlternativeMe := DefaultConfig.(requestsPerMinute := 30, burstLimit := 3, failureThreshold := 3)

  /** The services `APIServiceManager` configures up front. */
  const Configured: map<string, Config> :=
    map["coingecko" := CoinGecko, "taapi" := Taapi, "alternative_me" := AlternativeMe]

  /** Length of the burst window, in seconds. */
  const Window: real := 60.0
  /** Response times kept for adaptation. */
  const KeptResponses := 10
  /** Adaptation runs on every tenth success. */
  const AdaptEvery := 10

  /** The floor of the interval: one request per `60 / requests_per_minute` seconds. */
  function MinInterval(c: Config): real
    requires c.requestsPerMinute > 0
  {
    60.0 / c.requestsPerMinute as real
  }

  /**
   * A configuration the limiter can run on without raising: a positive rate
   * (the initial interval divides by it), a positive burst limit (`min` of
   * an empty window raises), a multiplier that never shrinks the interval and
   * a backoff cap above the floor. Every configuration the source builds is one.
   */
  predicate Sane(c: Config) {
    c.requestsPerMinute > 0 && c.burstLimit > 0 && c.backoffMultiplier >= 1.0
    && MinInterval(c) <= c.maxBackoff
  }

  lemma ConfigsSane()
    ensures Sane(DefaultConfig) && Sane(CoinGecko) && Sane(Taapi) && Sane(AlternativeMe)
    ensures forall name :: name in Configured ==> Sane(Configured[name])
  {
  }

  lemma NamesDistinct()
    ensures "coingecko" != "taapi" && "coingecko" != "alternative_me" && "taapi" != "alternative_me"
  {
    assert |"coingecko"| == 9 && |"taapi"| == 5 && |"alternative_me"| == 14;
  }

  /** The limiter's fields, as one value. */
  datatype Limiter = Limiter(
    requests: seq<real>,
    lastRequest: real,
    interval: real,
    circuit: Circuit,
    failures: nat,
    lastFailure: Option<real>,
    nextAttempt: Option<real>,
    successes: nat,
    responseTimes: seq<real>)

  /** The state `__init__` leaves. */
  function Initial(c: Config): Limiter
    requires c.requestsPerMinute > 0
  {
    Limiter([], 0.0, MinInterval(c), Closed, 0, None, None, 0, [])
  }

  /**
   * What every operation keeps: the interval between the floor and the
   * backoff cap, a circuit that is only ever away from CLOSED with the
   * failure count at the threshold and a reopening time set, and at most ten
   * response times.
   */
  predicate Consistent(c: Config, l: Limiter) {
    Sane(c)
    && MinInterval(c) <= l.interval <= c.maxBackoff
    && (l.circuit != Closed ==> l.failures >= c.failureThreshold && l.nextAttempt.Some?)
    && |l.responseTimes| <= KeptResponses
  }

  lemma InitialValid(c: Config)
    requires Sane(c)
    ensures Consistent(c, Initial(c)) && Initial(c).circuit == Closed
  {
  }

  // ---------------------------------------------------------------------------
  // can_make_request

  /** Answer of `can_make_request`: whether to go ahead, and how long to wait otherwise. */
  datatype Decision = Decision(allowed: bool, wait: real)

  /** The request times strictly newer than `since`, in their order. */
  function Recent(requests: seq<real>, since: real): (r: seq<real>)
    ensures |r| <= |requests|
    ensures forall t :: t in r <==> t in requests && t > since
  {
    if requests == [] then []
    else (if requests[0] > since then [requests[0]] else []) + Recent(requests[1..], since)
  }

  /** Python's `min` of a non-empty list. */
  function Min(s: seq<real>): (m: real)
    requires s != []
    ensures m in s && forall t :: t in s ==> m <= t
  {
    if |s| == 1 then s[0]
    else
      assert forall t :: t in s ==> t == s[0] || t in s[1..];
      var rest := Min(s[1..]);
      if s[0] <= rest then s[0] else rest
  }

  function Max0(x: real): real {
    if x > 0.0 then x else 0.0
  }

  /** The spacing and burst checks, which run once the circuit lets a request through. */
  function Spaced(l: Limiter, c: Config, now: real): (Limiter, Decision)
    requires c.burstLimit > 0
  {
    var since := now - l.lastRequest;
    if since < l.interval then (l, Decision(false, l.interval - since))
    else
      var recent := Recent(l.requests, now - Window);
      if |recent| >= c.burstLimit then
        (l.(requests := recent), Decision(false, Max0(Min(recent) + Window - now)))
      else (l.(requests := recent), Decision(true, 0.0))
  }

  /**
   * `can_make_request`: an OPEN circuit refuses until its reopening time and
   * then turns HALF_OPEN; after that the spacing and burst checks decide.
   */
  function Checked(l: Limiter, c: Config, now: real): (Limiter, Decision)
    requires Consistent(c, l)
  {
    if l.circuit == Open && now < l.nextAttempt.value then
      (l, Decision(false, l.nextAttempt.value - now))
    else
      Spaced(if l.circuit == Open then l.(circuit := HalfOpen) else l, c, now)
  }

  /** While OPEN and before the reopening time, the request is refused with the remaining time and nothing changes. */
  lemma OpenRefuses(l: Limiter, c: Config, now: real)
    requires Consistent(c, l) && l.circuit == Open && now < l.nextAttempt.value
    ensures var (l', d) := Checked(l, c, now);
      l' == l && !d.allowed && d.wait == l.nextAttempt.value - now && d.wait > 0.0
  {
  }

  /**
   * From the reopening time on, an OPEN circuit turns HALF_OPEN whatever
   * the answer, and the answer is the one the spacing and burst checks give.
   */
  lemma OpenTurnsHalfOpen(l: Limiter, c: Config, now: real)
    requires Consistent(c, l) && l.circuit == Open && now >= l.nextAttempt.value
    ensures Checked(l, c, now).0.circuit == HalfOpen
    ensures Checked(l, c, now) == Spaced(l.(circuit := HalfOpen), c, now)
  {
  }

  /** Every time in the pruned window is newer than a minute ago, so the oldest one is too. */
  lemma BurstWaitPositive(requests: seq<real>, now: real)
    requires Recent(requests, now - Window) != []
    ensures Min(Recent(requests, now - Window)) + Window - now > 0.0
  {
    var recent := Recent(requests, now - Window);
    assert Min(recent) in recent;
  }

  /**
   * The answer, both ways: a request is allowed exactly when the circuit is
   * not holding it back, at least one interval has passed since the last
   * request, and fewer than `burst_limit` requests fall in the last minute.
   * An allowed request waits 0; every refusal carries a positive wait.
   */
  lemma DecisionMeaning(l: Limiter, c: Config, now: real)
    requires Consistent(c, l)
    ensures var d := Checked(l, c, now).1;
      (d.allowed <==>
        !(l.circuit == Open && now < l.nextAttempt.value)
        && now - l.lastRequest >= l.interval
        && |Recent(l.requests, now - Window)| < c.burstLimit)
      && (d.allowed ==> d.wait == 0.0)
      && (!d.allowed ==> d.wait > 0.0)
  {
    var recent := Recent(l.requests, now - Window);
    if |recent| >= c.burstLimit {
      BurstWaitPositive(l.requests, now);
    }
  }

  /** HALF_OPEN puts no cap on trial requests: spacing and the burst window are all that limit them. */
  lemma HalfOpenAdmitsTrials(l: Limiter, c: Config, now: real)
    requires Consistent(c, l) && l.circuit == HalfOpen
    requires now - l.lastRequest >= l.interval && |Recent(l.requests, now - Window)| < c.burstLimit
    ensures Checked(l, c, now).1 == Decision(true, 0.0)
    ensures Checked(l, c, now).0.circuit == HalfOpen
  {
  }

  /** `can_make_request` changes nothing but the circuit and the pruned window. */
  lemma CheckedChangesLittle(l: Limiter, c: Config, now: real)
    requires Consistent(c, l)
    ensures var l' := Checked(l, c, now).0;
      l' == l.(circuit := l'.circuit, requests := l'.requests)
      && (l'.circuit == l.circuit || (l.circuit == Open && l'.circuit == HalfOpen))
      && (forall t :: t in l'.requests ==> t in l.requests)
      && Consistent(c, l')
  {
  }

  // ---------------------------------------------------------------------------
  // record_request, _adapt_rate_limit, record_failure

  function Sum(s: seq<real>): real {
    if s == [] then 0.0 else s[0] + Sum(s[1..])
  }

  /** The response-time window after appending `t`: the ten newest. */
  function Windowed(times: seq<real>, t: real): (r: seq<real>)
    requires |times| <= KeptResponses
    ensures |r| <= KeptResponses && r != [] && r[|r| - 1] == t
    ensures r == (if |times| < KeptResponses then times + [t] else times[1..] + [t])
  {
    var grown := times + [t];
    if |grown| > KeptResponses then grown[1..] else grown
  }

  /**
   * `_adapt_rate_limit`: with an average response under a second the
   * interval shrinks by a tenth (not below the floor); over three seconds it
   * grows by a fifth (not above the cap); otherwise, or with no response
   * times, it stays.
   */
  function Adapted(l: Limiter, c: Config): Limiter
    requires c.requestsPerMinute > 0
  {
    if l.responseTimes == [] then l
    else
      var avg := Sum(l.responseTimes) / |l.responseTimes| as real;
      if avg < 1.0 then
        var shrunk := l.interval * 0.9;
        l.(interval := if shrunk >= MinInterval(c) then shrunk else MinInterval(c))
      else if avg > 3.0 then
        var grown := l.interval * 1.2;
        l.(interval := if grown <= c.maxBackoff then grown else c.maxBackoff)
      else l
  }

  /** The circuit after a success: HALF_OPEN closes and forgets its failures. */
  function Succeeded(l: Limiter): Limiter {
    if l.circuit == HalfOpen then l.(circuit := Closed, failures := 0) else l
  }

  /** The response-time window after a success; `if response_time:` skips None and 0. */
  function Timed(l: Limiter, responseTime: Option<real>): Limiter
    requires |l.responseTimes| <= KeptResponses
  {
    if responseTime.Some? && responseTime.value != 0.0 then
      l.(responseTimes := Windowed(l.responseTimes, responseTime.value))
    else l
  }

  /** `record_request(response_time)` at time `now`. */
  function Recorded(l: Limiter, c: Config, now: real, responseTime: Option<real>): Limiter
    requires Consistent(c, l)
  {
    var counted := Succeeded(l.(lastRequest := now, requests := l.requests + [now]));
    var timed := Timed(counted.(successes := counted.successes + 1), responseTime);
    if c.adaptiveScaling && timed.successes % AdaptEvery == 0 then Adapted(timed, c) else timed
  }

  /** `record_failure(error_code)` at time `now`. */
  function Failed(l: Limiter, c: Config, now: real, errorCode: Option<int>): Limiter {
    var counted := l.(failures := l.failures + 1, lastFailure := Some(now));
    var backedOff :=
      if errorCode == Some(429) then
        var grown := counted.interval * c.backoffMultiplier;
        counted.(interval := if grown <= c.maxBackoff then grown else c.maxBackoff)
      else counted;
    if backedOff.failures >= c.failureThreshold && backedOff.circuit != Open then
      backedOff.(circuit := Open, nextAttempt := Some(now + c.circuitTimeout))
    else backedOff
  }

  lemma GrowsBy(x: real, m: real)
    requires x >= 0.0 && m >= 1.0
    ensures x * m >= x
  {
    assert x * m - x == x * (m - 1.0);
  }

  /** Adaptation keeps the interval between the floor and the cap. */
  lemma AdaptedKeepsBounds(l: Limiter, c: Config)
    requires Sane(c) && MinInterval(c) <= l.interval <= c.maxBackoff
    ensures MinInterval(c) <= Adapted(l, c).interval <= c.maxBackoff
    ensures Adapted(l, c) == l.(interval := Adapted(l, c).interval)
  {
    if l.responseTimes != [] {
      GrowsBy(l.interval, 1.2);
    }
  }

  /**
   * A success stamps `now`, appends it to the window, closes a HALF_OPEN
   * circuit with its failures cleared and leaves CLOSED and OPEN as they
   * were, failure count included; it counts one more success.
   */
  lemma RecordedCircuit(l: Limiter, c: Config, now: real, responseTime: Option<real>)
    requires Consistent(c, l)
    ensures var r := Recorded(l, c, now, responseTime);
      r.lastRequest == now && r.requests == l.requests + [now]
      && r.successes == l.successes + 1
      && (l.circuit == HalfOpen ==> r.circuit == Closed && r.failures == 0)
      && (l.circuit != HalfOpen ==> r.circuit == l.circuit && r.failures == l.failures)
      && r.nextAttempt == l.nextAttempt && r.lastFailure == l.lastFailure
  {
    var counted := Succeeded(l.(lastRequest := now, requests := l.requests + [now]));
    var timed := Timed(counted.(successes := counted.successes + 1), responseTime);
    AdaptedKeepsBounds(timed, c);
  }

  /**
   * The response-time window: a None or zero response time is not recorded;
   * any other is appended, and the window keeps the ten newest.
   */
  lemma RecordedResponseTimes(l: Limiter, c: Config, now: real, responseTime: Option<real>)
    requires Consistent(c, l)
    ensures var r := Recorded(l, c, now, responseTime);
      |r.responseTimes| <= KeptResponses
      && (responseTime == None || responseTime == Some(0.0) ==> r.responseTimes == l.responseTimes)
      && (responseTime.Some? && responseTime.value != 0.0 ==>
            r.responseTimes == Windowed(l.responseTimes, responseTime.value))
  {
    var counted := Succeeded(l.(lastRequest := now, requests := l.requests + [now]));
    var timed := Timed(counted.(successes := counted.successes + 1), responseTime);
    AdaptedKeepsBounds(timed, c);
  }

  /** The interval only adapts on every tenth success. */
  lemma AdaptsOnTenth(l: Limiter, c: Config, now: real, responseTime: Option<real>)
    requires Consistent(c, l)
    requires !c.adaptiveScaling || (l.successes + 1) % AdaptEvery != 0
    ensures Recorded(l, c, now, responseTime).interval == l.interval
  {
  }

  /**
   * A failure counts one more failure and stamps its time; a 429 multiplies
   * the interval up to the cap and nothing else touches it; reaching the
   * threshold opens a circuit that was not already open, until `now` plus
   * the circuit timeout; an open circuit keeps its reopening time.
   */
  lemma FailedMeaning(l: Limiter, c: Config, now: real, errorCode: Option<int>)
    ensures var r := Failed(l, c, now, errorCode);
      r.failures == l.failures + 1 && r.lastFailure == Some(now)
      && (errorCode != Some(429) ==> r.interval == l.interval)
      && (errorCode == Some(429) ==>
            r.interval == if l.interval * c.backoffMultiplier <= c.maxBackoff
                          then l.interval * c.backoffMultiplier else c.maxBackoff)
      && (r.circuit == Open <==> l.circuit == Open || l.failures + 1 >= c.failureThreshold)
      && (l.circuit != Open && l.failures + 1 >= c.failureThreshold ==>
            r.nextAttempt == Some(now + c.circuitTimeout))
      && (l.circuit == Open ==> r.nextAttempt == l.nextAttempt)
      && r.requests == l.requests && r.successes == l.successes && r.responseTimes == l.responseTimes
  {
  }

  /**
   * A failure during the HALF_OPEN trial reopens the circuit at once: the
   * success that would have reset the count has not happened, so the count
   * is still at the threshold.
   */
  lemma HalfOpenFailureReopens(l: Limiter, c: Config, now: real, errorCode: Option<int>)
    requires Consistent(c, l) && l.circuit == HalfOpen
    ensures Failed(l, c, now, errorCode).circuit == Open
    ensures Failed(l, c, now, errorCode).nextAttempt == Some(now + c.circuitTimeout)
  {
  }

  /** A success keeps the limiter consistent; in particular the interval stays between the floor and the cap. */
  lemma RecordedKeepsConsistent(l: Limiter, c: Config, now: real, responseTime: Option<real>)
    requires Consistent(c, l)
    ensures Consistent(c, Recorded(l, c, now, responseTime))
  {
    var counted := Succeeded(l.(lastRequest := now, requests := l.requests + [now]));
    var timed := Timed(counted.(successes := counted.successes + 1), responseTime);
    assert Consistent(c, timed);
    AdaptedKeepsBounds(timed, c);
  }

  /** A failure keeps the limiter consistent: the backoff multiplies up, but never past the cap. */
  lemma FailedKeepsConsistent(l: Limiter, c: Config, now: real, errorCode: Option<int>)
    requires Consistent(c, l)
    ensures Consistent(c, Failed(l, c, now, errorCode))
  {
    GrowsBy(l.interval, c.backoffMultiplier);
  }

  // ---------------------------------------------------------------------------
  // get_stats

  /** `get_stats`, without the service name and without rounding. */
  datatype Stats = Stats(
    circuit: Circuit,
    interval: real,
    requestsLastMinute: nat,
    failures: nat,
    successes: nat,
    avgResponseTime: Option<real>,
    untilNextRequest: real)

  function StatsOf(l: Limiter, now: real): Stats {
    var avg := if l.responseTimes == [] then None else Some(Sum(l.responseTimes) / |l.responseTimes| as real);
    Stats(l.circuit, l.interval, |Recent(l.requests, now - Window)|, l.failures, l.successes,
          if avg == Some(0.0) then None else avg,
          Max0(l.interval - (now - l.lastRequest)))
  }

  /**
   * The statistics predict the next answer of a CLOSED limiter: a request
   * is allowed exactly when the time until the next request is 0 and the
   * requests of the last minute are under the burst limit.
   */
  lemma StatsPredictDecision(l: Limiter, c: Config, now: real)
    requires Consistent(c, l) && l.circuit == Closed
    ensures var s := StatsOf(l, now);
      s.untilNextRequest >= 0.0
      && (Checked(l, c, now).1.allowed <==> s.untilNextRequest == 0.0 && s.requestsLastMinute < c.burstLimit)
  {
  }

  // ---------------------------------------------------------------------------
  // rate_limited_api_call

  /** What the wrapped function does when called: returns a value or raises with a message. */
  datatype CallOutcome<T> = Returns(value: T) | Raises(error: string)

  /**
   * What the wrapper gives back: `(None, "Rate limited, wait …s", 429)` when
   * refused, the function's value, or the function's exception re-raised.
   */
  datatype Wrapped<T> = Limited(wait: real) | Returned(value: T) | Reraised(error: string)

  /** The status the wrapper reports for a refused call. */
  const LimitedStatus := 429

  /** The error code a raised message is recorded with. */
  function ErrorCode(message: string): (code: int)
    ensures code in {429, 408, 500}
  {
    if Text.Contains(message, "429") || Text.Contains(Text.Lower(message), "rate limit") then 429
    else if Text.Contains(Text.Lower(message), "timeout") then 408
    else 500
  }

  /**
   * The wrapper around one call: checked at `now`, the function runs and
   * finishes at `done`, and its outcome is recorded with the elapsed time.
   */
  function Guarded<T>(l: Limiter, c: Config, now: real, done: real, call: CallOutcome<T>): (Limiter, Wrapped<T>)
    requires Consistent(c, l)
  {
    var (checked, d) := Checked(l, c, now);
    CheckedChangesLittle(l, c, now);
    if !d.allowed then (checked, Limited(d.wait))
    else match call
      case Returns(v) => (Recorded(checked, c, done, Some(done - now)), Returned(v))
      case Raises(e) => (Failed(checked, c, done, Some(ErrorCode(e))), Reraised(e))
  }

  /**
   * A refused call never runs the function: the answer and the new state are
   * the same whatever the function would have done.
   */
  lemma RefusedSkipsCall<T>(l: Limiter, c: Config, now: real, done: real, call1: CallOutcome<T>, call2: CallOutcome<T>)
    requires Consistent(c, l) && !Checked(l, c, now).1.allowed
    ensures Guarded(l, c, now, done, call1) == Guarded(l, c, now, done, call2)
    ensures Guarded(l, c, now, done, call1).1.Limited? && Guarded(l, c, now, done, call1).1.wait > 0.0
  {
    DecisionMeaning(l, c, now);
  }

  /** A raised message that mentions 429 backs the interval off, and a timeout or other error does not. */
  lemma RateLimitErrorBacksOff<T>(l: Limiter, c: Config, now: real, done: real, pre: string, post: string)
    requires Consistent(c, l) && Checked(l, c, now).1.allowed
    ensures var checked := Checked(l, c, now).0;
      var r := Guarded<T>(l, c, now, done, Raises(pre + "429" + post));
      r.1 == Reraised(pre + "429" + post)
      && r.0.interval == if checked.interval * c.backoffMultiplier <= c.maxBackoff
                         then checked.interval * c.backoffMultiplier else c.maxBackoff
  {
    var e := pre + "429" + post;
    Text.ContainsInfix(e, |pre|, |pre| + 3, "429");
    assert ErrorCode(e) == 429;
  }

  // ---------------------------------------------------------------------------
  // The objects

  class AdaptiveRateLimiter {
    const serviceName: string
    const config: Config
    var requests: seq<real>
    var lastRequest: real
    var interval: real
    var circuit: Circuit
    var failures: nat
    var lastFailure: Option<real>
    var nextAttempt: Option<real>
    var successes: nat
    var responseTimes: seq<real>

    function View(): Limiter
      reads this
    {
      Limiter(requests, lastRequest, interval, circuit, failures, lastFailure, nextAttempt, successes, responseTimes)
    }

    predicate Valid()
      reads this
    {
      Consistent(config, View())
    }

    constructor (serviceName: string, config: Config)
      requires Sane(config)
      ensures this.serviceName == serviceName && this.config == config
      ensures View() == Initial(config) && Valid()
    {
      this.serviceName := serviceName;
      this.config := config;
      requests := [];
      lastRequest := 0.0;
      interval := 60.0 / config.requestsPerMinute as real;
      circuit := Closed;
      failures := 0;
      lastFailure := None;
      nextAttempt := None;
      successes := 0;
      responseTimes := [];
    }

    method CanMakeRequest(now: real) returns (allowed: bool, wait: real)
      requires Valid()
      modifies this
      ensures (View(), Decision(allowed, wait)) == Checked(old(View()), config, now)
      ensures Valid()
    {
      CheckedChangesLittle(View(), config, now);
      if circuit == Open {
        if now < nextAttempt.value {
          return false, nextAttempt.value - now;
        }
        circuit := HalfOpen;
      }
      var since := now - lastRequest;
      if since < interval {
        return false, interval - since;
      }
      requests := Recent(requests, now - Window);
      if |requests| >= config.burstLimit {
        var oldest := Min(requests);
        return false, Max0(oldest + Window - now);
      }
      return true, 0.0;
    }

    method RecordRequest(now: real, responseTime: Option<real>)
      requires Valid()
      modifies this
      ensures View() == Recorded(old(View()), config, now, responseTime)
      ensures Valid()
    {
      RecordedKeepsConsistent(View(), config, now, responseTime);
      Stamp(now);
      successes := successes + 1;
      if responseTime.Some? && responseTime.value != 0.0 {
        KeepResponseTime(responseTime.value);
      }
      if config.adaptiveScaling && successes % AdaptEvery == 0 {
        AdaptRateLimit();
      }
    }

    /** The first half of `record_request`: the timestamps, and the circuit a success closes. */
    method Stamp(now: real)
      modifies this
      ensures View() == Succeeded(old(View()).(lastRequest := now, requests := old(View()).requests + [now]))
    {
      lastRequest := now;
      requests := requests + [now];
      if circuit == HalfOpen {
        circuit := Closed;
        failures := 0;
      }
    }

    method KeepResponseTime(t: real)
      requires |responseTimes| <= KeptResponses
      modifies this
      ensures View() == old(View()).(responseTimes := Windowed(old(responseTimes), t))
    {
      responseTimes := responseTimes + [t];
      if |responseTimes| > KeptResponses {
        responseTimes := responseTimes[1..];
      }
    }

    method AdaptRateLimit()
      requires config.requestsPerMinute > 0
      modifies this
      ensures View() == Adapted(old(View()), config)
    {
      if responseTimes == [] {
        return;
      }
      var avg := Sum(responseTimes) / |responseTimes| as real;
      if avg < 1.0 {
        var shrunk := interval * 0.9;
        var floor := 60.0 / config.requestsPerMinute as real;
        interval := if shrunk >= floor then shrunk else floor;
      } else if avg > 3.0 {
        var grown := interval * 1.2;
        interval := if grown <= config.maxBackoff then grown else config.maxBackoff;
      }
    }

    method RecordFailure(now: real, errorCode: Option<int>)
      requires Valid()
      modifies this
      ensures View() == Failed(old(View()), config, now, errorCode)
      ensures Valid()
    {
      FailedKeepsConsistent(View(), config, now, errorCode);
      failures := failures + 1;
      lastFailure := Some(now);
      if errorCode == Some(429) {
        var grown := interval * config.backoffMultiplier;
        interval := if grown <= config.maxBackoff then grown else config.maxBackoff;
      }
      if failures >= config.failureThreshold && circuit != Open {
        circuit := Open;
        nextAttempt := Some(now + config.circuitTimeout);
      }
    }

    /** The body of the `rate_limited_api_call` wrapper, on this limiter. */
    method Guard<T>(now: real, done: real, call: CallOutcome<T>) returns (r: Wrapped<T>)
      requires Valid()
      modifies this
      ensures (View(), r) == Guarded(old(View()), config, now, done, call)
      ensures Valid()
    {
      var allowed, wait := CanMakeRequest(now);
      if !allowed {
        return Limited(wait);
      }
      match call {
        case Returns(v) =>
          RecordRequest(done, Some(done - now));
          r := Returned(v);
        case Raises(e) =>
          RecordFailure(done, Some(ErrorCode(e)));
          r := Reraised(e);
      }
    }

    method GetStats(now: real) returns (s: Stats)
      ensures s == StatsOf(View(), now)
    {
      var recent := Recent(requests, now - Window);
      var avg: Option<real> := None;
      if responseTimes != [] {
        avg := Some(Sum(responseTimes) / |responseTimes| as real);
      }
      s := Stats(circuit, interval, |recent|, failures, successes,
                 if avg == Some(0.0) then None else avg,
                 Max0(interval - (now - lastRequest)));
    }
  }

  /** The branch of `record_api_call`: a success or a failure, recorded on `l`. */
  method Report(l: AdaptiveRateLimiter, success: bool, now: real, responseTime: Option<real>, errorCode: Option<int>)
    requires l.Valid()
    modifies l
    ensures l.Valid()
    ensures l.View() ==
      if success then Recorded(old(l.View()), l.config, now, responseTime)
      else Failed(old(l.View()), l.config, now, errorCode)
  {
    if success {
      l.RecordRequest(now, responseTime);
    } else {
      l.RecordFailure(now, errorCode);
    }
  }

  /** `APIServiceManager`: one limiter per service name, created on first use. */
  class ServiceManager {
    var limiters: map<string, AdaptiveRateLimiter>

    /** Every limiter is valid, and no two names share one. */
    predicate Valid()
      reads this, limiters.Values
    {
      (forall n :: n in limiters ==> limiters[n].Valid())
      && (forall n, m :: n in limiters && m in limiters && n != m ==> limiters[n] != limiters[m])
    }

    /** The state a service's limiter is in before a call: its current one, or a fresh default. */
    function Before(name: string): Limiter
      reads this, limiters.Values
    {
      if name in limiters then limiters[name].View() else Initial(DefaultConfig)
    }

    function ConfigOf(name: string): Config
      reads this
    {
      if name in limiters then limiters[name].config else DefaultConfig
    }

    constructor ()
      ensures Valid() && limiters.Keys == Configured.Keys
      ensures forall n :: n in limiters ==> limiters[n].config == Configured[n] && limiters[n].View() == Initial(Configured[n])
    {
      ConfigsSane();
      NamesDistinct();
      var coingecko := new AdaptiveRateLimiter("coingecko", CoinGecko);
      var taapi := new AdaptiveRateLimiter("taapi", Taapi);
      var alternative := new AdaptiveRateLimiter("alternative_me", AlternativeMe);
      limiters := map["coingecko" := coingecko, "taapi" := taapi, "alternative_me" := alternative];
      new;
      forall n | n in limiters
        ensures limiters[n].Valid() && limiters[n].config == Configured[n] && limiters[n].View() == Initial(Configured[n])
      {
        if n == "coingecko" {
        } else if n == "taapi" {
        } else {
          assert n == "alternative_me";
        }
      }
    }

    /** A new limiter for `name`, registered under it. */
    method Register(name: string, config: Config) returns (l: AdaptiveRateLimiter)
      requires Valid() && name !in limiters && Sane(config)
      modifies this
      ensures Valid() && fresh(l) && limiters == old(limiters)[name := l]
      ensures l.config == config && l.View() == Initial(config)
    {
      l := new AdaptiveRateLimiter(name, config);
      limiters := limiters[name := l];
    }

    /** `get_limiter`: the service's own limiter, or a new default one registered under the name. */
    method GetLimiter(name: string) returns (l: AdaptiveRateLimiter)
      requires Valid()
      modifies this
      ensures Valid() && name in limiters && l == limiters[name]
      ensures name in old(limiters) ==> limiters == old(limiters)
      ensures name !in old(limiters) ==>
        fresh(l) && limiters == old(limiters)[name := l] && l.config == DefaultConfig && l.View() == Initial(DefaultConfig)
    {
      if name in limiters {
        l := limiters[name];
      } else {
        ConfigsSane();
        l := Register(name, DefaultConfig);
      }
    }

    /** `can_call_api`. */
    method CanCallApi(name: string, now: real) returns (allowed: bool, wait: real)
      requires Valid()
      modifies this, limiters.Values
      ensures Valid() && name in limiters
      ensures (limiters[name].View(), Decision(allowed, wait)) == Checked(old(Before(name)), old(ConfigOf(name)), now)
      ensures forall n :: n in old(limiters) && n != name ==> n in limiters && limiters[n] == old(limiters[n]) && limiters[n].View() == old(limiters[n].View())
    {
      var l := GetLimiter(name);
      allowed, wait := l.CanMakeRequest(now);
    }

    /** `record_api_call`: a success or a failure, on the service's limiter only. */
    method RecordApiCall(name: string, success: bool, now: real, responseTime: Option<real>, errorCode: Option<int>)
      requires Valid()
      modifies this, limiters.Values
      ensures Valid() && name in limiters
      ensures limiters[name].View() ==
        if success then Recorded(old(Before(name)), old(ConfigOf(name)), now, responseTime)
        else Failed(old(Before(name)), old(ConfigOf(name)), now, errorCode)
      ensures forall n :: n in old(limiters) && n != name ==> n in limiters && limiters[n] == old(limiters[n]) && limiters[n].View() == old(limiters[n].View())
    {
      var l := GetLimiter(name);
      Report(l, success, now, responseTime, errorCode);
    }

    /** `rate_limited_api_call(name)` around a function that behaves as `call`. */
    method Call<T>(name: string, now: real, done: real, call: CallOutcome<T>) returns (r: Wrapped<T>)
      requires Valid()
      modifies this, limiters.Values
      ensures Valid() && name in limiters
      ensures (limiters[name].View(), r) == Guarded(old(Before(name)), old(ConfigOf(name)), now, done, call)
      ensures forall n :: n in old(limiters) && n != name ==> n in limiters && limiters[n] == old(limiters[n]) && limiters[n].View() == old(limiters[n].View())
    {
      var l := GetLimiter(name);
      r := l.Guard(now, done, call);
    }
  }
}
