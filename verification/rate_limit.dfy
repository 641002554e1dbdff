/** The three rate limiters of `PrivTasks`: one for printing throwables, one for log
    lines and one for notifications sent to the client app. Each keeps only the
    timestamp of its last emission; the current time is a parameter. */
module RateLimit {
  import opened Effects

  const THROWABLE_SPACING_MS: int := 1000
  const LOG_SPACING_MS: int := 1000
  const REQUEST_SPACING_MS: int := 60000

  /** The three "last emitted" timestamps, in milliseconds; all start at 0. */
  datatype Clocks = Clocks(lastThrowable: int, lastLog: int, lastRequest: int)

  const Start: Clocks := Clocks(0, 0, 0)

  /** The limiter state after one call, and what the call emitted. */
  datatype Emission = Emission(clocks: Clocks, effects: seq<Effect>)

  /** `rateLimitThrowable`: prints when debugging or when a second has passed since
      the last print, and records the time of every print. */
  function RateLimitThrowable(c: Clocks, debug: bool, now: int): (e: Emission)
    ensures e.effects == [StackTrace] || e.effects == []
    ensures e.effects != [] <==> debug || now - c.lastThrowable >= THROWABLE_SPACING_MS
    ensures e.clocks.lastLog == c.lastLog && e.clocks.lastRequest == c.lastRequest
    ensures e.effects != [] ==> e.clocks.lastThrowable == now
    ensures e.effects == [] ==> e.clocks == c
  {
    if !debug && now - c.lastThrowable < THROWABLE_SPACING_MS then Emission(c, [])
    else Emission(c.(lastThrowable := now), [StackTrace])
  }

  /** `rateLimitLog`: logs when debugging (leaving the timestamp alone), otherwise
      only when a second has passed since the last non-debug log. */
  function RateLimitLog(c: Clocks, debug: bool, now: int): (e: Emission)
    ensures e.effects == [LogE] || e.effects == []
    ensures e.effects != [] <==> debug || now - c.lastLog >= LOG_SPACING_MS
    ensures e.clocks.lastThrowable == c.lastThrowable && e.clocks.lastRequest == c.lastRequest
    ensures e.effects != [] && !debug ==> e.clocks.lastLog == now
    ensures e.effects == [] || debug ==> e.clocks == c
  {
    if debug then Emission(c, [LogE])
    else if now - c.lastLog >= LOG_SPACING_MS then Emission(c.(lastLog := now), [LogE])
    else Emission(c, [])
  }

  /** `rateLimitSendRequest`: sends when a minute has passed since the last send;
      there is no debug bypass. */
  function RateLimitSendRequest(c: Clocks, now: int, notice: Notice): (e: Emission)
    ensures e.effects == [Notify(notice)] || e.effects == []
    ensures e.effects != [] <==> now - c.lastRequest >= REQUEST_SPACING_MS
    ensures e.clocks.lastThrowable == c.lastThrowable && e.clocks.lastLog == c.lastLog
    ensures e.effects != [] ==> e.clocks.lastRequest == now
    ensures e.effects == [] ==> e.clocks == c
  {
    if now - c.lastRequest >= REQUEST_SPACING_MS then Emission(c.(lastRequest := now), [Notify(notice)])
    else Emission(c, [])
  }

  /** One of the three limiters, named so that properties can be stated once for all. */
  datatype Limiter = Throwables | Logs | Requests(notice: Notice)

  function Spacing(l: Limiter): int {
    match l
    case Throwables => THROWABLE_SPACING_MS
    case Logs => LOG_SPACING_MS
    case Requests(_) => REQUEST_SPACING_MS
  }

  function Last(c: Clocks, l: Limiter): int {
    match l
    case Throwables => c.lastThrowable
    case Logs => c.lastLog
    case Requests(_) => c.lastRequest
  }

  function Fire(c: Clocks, debug: bool, l: Limiter, now: int): Emission {
    match l
    case Throwables => RateLimitThrowable(c, debug, now)
    case Logs => RateLimitLog(c, debug, now)
    case Requests(n) => RateLimitSendRequest(c, now, n)
  }

  /** The same limiter asked once per entry of `times`, in order. */
  function Replay(c: Clocks, debug: bool, l: Limiter, times: seq<int>): Emission
    decreases |times|
  {
    if |times| == 0 then Emission(c, [])
    else
      var first := Fire(c, debug, l, times[0]);
      var rest := Replay(first.clocks, debug, l, times[1..]);
      Emission(rest.clocks, first.effects + rest.effects)
  }

  /** Whether the debug flag can lift this limiter. */
  predicate Bypassed(debug: bool, l: Limiter) {
    debug && !l.Requests?
  }

  /** A limiter whose last emission is not before `t0` stays silent for every
      request that comes before `t0` plus its spacing. */
  lemma {:induction false} QuietAfterEmission(c: Clocks, debug: bool, l: Limiter, times: seq<int>, t0: int)
    requires !Bypassed(debug, l)
    requires Last(c, l) >= t0
    requires forall i :: 0 <= i < |times| ==> times[i] < t0 + Spacing(l)
    ensures Replay(c, debug, l, times).effects == []
    decreases |times|
  {
    if |times| > 0 {
      var first := Fire(c, debug, l, times[0]);
      assert first.clocks == c;
      QuietAfterEmission(first.clocks, debug, l, times[1..], t0);
    }
  }

  /** Outside debug mode (and always, for notifications), at most one emission
      happens among requests that all fall in one window shorter than the spacing. */
  lemma {:induction false} AtMostOnePerWindow(c: Clocks, debug: bool, l: Limiter, times: seq<int>, t0: int)
    requires !Bypassed(debug, l)
    requires forall i :: 0 <= i < |times| ==> t0 <= times[i] < t0 + Spacing(l)
    ensures |Replay(c, debug, l, times).effects| <= 1
    decreases |times|
  {
    if |times| > 0 {
      var first := Fire(c, debug, l, times[0]);
      if first.effects == [] {
        AtMostOnePerWindow(first.clocks, debug, l, times[1..], t0);
      } else {
        assert Last(first.clocks, l) == times[0];
        QuietAfterEmission(first.clocks, debug, l, times[1..], times[0]);
      }
    }
  }

  /** In debug mode the throwable and log limiters emit on every request. */
  lemma {:induction false} DebugEmitsEveryTime(c: Clocks, l: Limiter, times: seq<int>)
    requires Bypassed(true, l)
    ensures |Replay(c, true, l, times).effects| == |times|
    decreases |times|
  {
    if |times| > 0 {
      DebugEmitsEveryTime(Fire(c, true, l, times[0]).clocks, l, times[1..]);
    }
  }

  /** The notification limiter ignores the debug flag altogether. */
  lemma {:induction false} RequestsIgnoreDebug(c: Clocks, n: Notice, times: seq<int>)
    ensures Replay(c, true, Requests(n), times) == Replay(c, false, Requests(n), times)
    decreases |times|
  {
    if |times| > 0 {
      RequestsIgnoreDebug(Fire(c, true, Requests(n), times[0]).clocks, n, times[1..]);
    }
  }

  /** A debug-mode log leaves the log timestamp as it was, while a debug-mode
      throwable moves the throwable timestamp to the time of the print. */
  lemma DebugTimestamps(c: Clocks, now: int)
    ensures RateLimitLog(c, true, now).clocks == c
    ensures RateLimitThrowable(c, true, now).clocks == c.(lastThrowable := now)
  {
  }
}
