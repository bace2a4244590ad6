/**
 The retry policy of relay/delivery/retry.py: what counts as terminal, how long to wait,
 and what that means for one whole cycle of failing attempts.

 Time is `real`; the random draw of `rng.uniform` is the argument `jitter`; a Retry-After
 header is taken after its number has been parsed.
 */
module Retry {
  import opened Wrappers

  const JITTER_MIN := 0.8
  const JITTER_MAX := 1.2
  const TERMINAL_4XX_MAX_ATTEMPTS := 3
  const RETRY_AFTER_CAP_SECONDS := 3600.0

  predicate IsJitter(jitter: real) {
    JITTER_MIN <= jitter <= JITTER_MAX
  }

  // BACKOFF_SCHEDULE.get(attempt)
  function Backoff(attempt: int): Option<real> {
    if attempt == 1 then Some(5.0)
    else if attempt == 2 then Some(30.0)
    else if attempt == 3 then Some(120.0)
    else if attempt == 4 then Some(600.0)
    else if attempt == 5 then Some(1800.0)
    else if attempt == 6 then Some(7200.0)
    else if attempt == 7 then Some(18000.0)
    else None
  }

  predicate IsTerminalStatus(status: Option<int>) {
    status.Some? && 400 <= status.value < 500 && status.value !in {408, 429}
  }

  function MaxAttemptsFor(status: Option<int>, configuredMax: int): int {
    if IsTerminalStatus(status) && TERMINAL_4XX_MAX_ATTEMPTS < configuredMax
    then TERMINAL_4XX_MAX_ATTEMPTS
    else configuredMax
  }

  function ApplyJitter(delay: real, jitter: real): real {
    delay * jitter
  }

  function ParseRetryAfter(seconds: Option<real>): Option<real> {
    if seconds.None? || seconds.value < 0.0 then None
    else if seconds.value <= RETRY_AFTER_CAP_SECONDS then seconds
    else Some(RETRY_AFTER_CAP_SECONDS)
  }

  // A 429 whose Retry-After replaces the schedule.
  predicate Honoured(status: Option<int>, retryAfter: Option<real>) {
    status == Some(429) && ParseRetryAfter(retryAfter).Some?
  }

  function NextDelaySeconds(attempt: int, status: Option<int>, retryAfter: Option<real>,
                            configuredMax: int, jitter: real): Option<real>
  {
    if attempt >= MaxAttemptsFor(status, configuredMax) then None
    else if Honoured(status, retryAfter) then ParseRetryAfter(retryAfter)
    else match Backoff(attempt)
      case None => None
      case Some(base) => Some(ApplyJitter(base, jitter))
  }

  /** One failed attempt of a cycle, with the jitter that would be drawn for it. */
  datatype Failure = Failure(status: Option<int>, retryAfter: Option<real>, jitter: real)

  ghost predicate Draws(fs: seq<Failure>) {
    forall i | 0 <= i < |fs| :: IsJitter(fs[i].jitter)
  }

  ghost predicate NoneHonoured(fs: seq<Failure>) {
    forall i | 0 <= i < |fs| :: !Honoured(fs[i].status, fs[i].retryAfter)
  }

  ghost predicate NoneTerminal(fs: seq<Failure>) {
    forall i | 0 <= i < |fs| :: !IsTerminalStatus(fs[i].status)
  }

  /** The waits the policy grants when the attempts `attempt, attempt + 1, ...` fail as `fs` says.
      The cycle is dead once there are fewer waits than failures. */
  function Delays(fs: seq<Failure>, attempt: int, configuredMax: int): seq<real> {
    if fs == [] then []
    else
      match NextDelaySeconds(attempt, fs[0].status, fs[0].retryAfter, configuredMax, fs[0].jitter)
      case None => []
      case Some(delay) => [delay] + Delays(fs[1..], attempt + 1, configuredMax)
  }

  function Sum(xs: seq<real>): real {
    if xs == [] then 0.0 else xs[0] + Sum(xs[1..])
  }

  function Max(a: int, b: int): int { if a < b then b else a }

  function Min(a: int, b: int): int { if a < b then a else b }

  /** However the receiver fails, a cycle that starts at attempt 1 is granted fewer than
      max(1, configuredMax) waits, so it is dead by attempt max(1, configuredMax); and never more
      than seven waits (eight attempts) unless some Retry-After was honoured. */
  lemma CycleDies(fs: seq<Failure>, configuredMax: int)
    ensures |Delays(fs, 1, configuredMax)| < Max(1, configuredMax)
    ensures NoneHonoured(fs) ==> |Delays(fs, 1, configuredMax)| <= 7
  {
    DelaysAreFew(fs, 1, configuredMax);
  }

  lemma {:induction false} DelaysAreFew(fs: seq<Failure>, attempt: int, configuredMax: int)
    requires 1 <= attempt
    ensures |Delays(fs, attempt, configuredMax)| <= Max(0, configuredMax - attempt)
    ensures NoneHonoured(fs) ==> |Delays(fs, attempt, configuredMax)| <= Max(0, 8 - attempt)
  {
    if fs != [] {
      DelaysAreFew(fs[1..], attempt + 1, configuredMax);
    }
  }

  /** The budget is not cut short either: when no status is terminal and no Retry-After is honoured,
      exactly min(configuredMax - 1, 7) of the failures are followed by another attempt. */
  lemma {:induction false} RetryableFailuresUseWholeBudget(fs: seq<Failure>, attempt: int, configuredMax: int)
    requires 1 <= attempt && NoneTerminal(fs) && NoneHonoured(fs)
    ensures |Delays(fs, attempt, configuredMax)| == Min(|fs|, Max(0, Min(configuredMax, 8) - attempt))
  {
    if fs != [] {
      RetryableFailuresUseWholeBudget(fs[1..], attempt + 1, configuredMax);
    }
  }

  // ---- The waits by value ----

  // The documented schedule, in seconds.
  const SCHEDULE := [5.0, 30.0, 120.0, 600.0, 1800.0, 7200.0, 18000.0]

  // A 4xx other than 408 and 429.
  predicate IsClientError(f: Failure) {
    f.status.Some? && 400 <= f.status.value <= 499 && f.status.value != 408 && f.status.value != 429
  }

  // A 429 that says how long to wait.
  predicate AsksToWait(f: Failure) {
    f.status == Some(429) && f.retryAfter.Some? && f.retryAfter.value >= 0.0
  }

  /** Whether attempt number `attempt`, failing like f, is followed by another. */
  predicate IsRetried(f: Failure, attempt: int, configuredMax: int) {
    && attempt < configuredMax
    && if IsClientError(f) then 1 <= attempt < 3 else AsksToWait(f) || 1 <= attempt <= 7
  }

  predicate WaitsFor(f: Failure, attempt: int, wait: real) {
    if AsksToWait(f) then
      wait <= f.retryAfter.value && wait <= 3600.0 && (wait == f.retryAfter.value || wait == 3600.0)
    else
      1 <= attempt <= 7 && wait == SCHEDULE[attempt - 1] * f.jitter
  }

  /** The policy by value, for one failure: which are followed by another attempt, and after how long. */
  lemma NextDelayByValue(f: Failure, attempt: int, configuredMax: int)
    ensures var delay := NextDelaySeconds(attempt, f.status, f.retryAfter, configuredMax, f.jitter);
            && (delay.Some? <==> IsRetried(f, attempt, configuredMax))
            && (delay.Some? ==> WaitsFor(f, attempt, delay.value))
            && (delay.Some? && IsJitter(f.jitter) && !AsksToWait(f) ==>
                  0.8 * SCHEDULE[attempt - 1] <= delay.value <= 1.2 * SCHEDULE[attempt - 1])
  {
    if IsRetried(f, attempt, configuredMax) && !AsksToWait(f) {
      Stretches(SCHEDULE[attempt - 1], f.jitter);
    }
  }

  lemma Stretches(base: real, jitter: real)
    requires 0.0 <= base
    ensures IsJitter(jitter) ==> 0.8 * base <= base * jitter <= 1.2 * base
  {}

  /** And for whole cycles: the waits granted are those of the failures up to the first that is not retried, each the
      entry of the schedule for its attempt times its jitter, or the receiver's own number of seconds up to an hour. */
  lemma {:induction false} CycleByValue(fs: seq<Failure>, attempt: int, configuredMax: int)
    ensures var waits := Delays(fs, attempt, configuredMax);
            && |waits| <= |fs|
            && (forall i | 0 <= i < |waits| ::
                  IsRetried(fs[i], attempt + i, configuredMax) && WaitsFor(fs[i], attempt + i, waits[i]))
            && (|waits| < |fs| ==> !IsRetried(fs[|waits|], attempt + |waits|, configuredMax))
  {
    if fs != [] {
      NextDelayByValue(fs[0], attempt, configuredMax);
      CycleByValue(fs[1..], attempt + 1, configuredMax);
      if IsRetried(fs[0], attempt, configuredMax) {
        var waits, rest := Delays(fs, attempt, configuredMax), Delays(fs[1..], attempt + 1, configuredMax);
        assert waits[1..] == rest;
        forall i | 0 < i < |waits|
          ensures IsRetried(fs[i], attempt + i, configuredMax) && WaitsFor(fs[i], attempt + i, waits[i])
        {
          var j := i - 1;
          assert fs[i] == fs[1..][j] && waits[i] == rest[j] && attempt + i == attempt + 1 + j;
        }
      }
    }
  }

  // The longest wait that can follow `attempt`, and the most that waits from `attempt` on can add up to.
  function LongestWait(attempt: int, honoured: bool): real {
    var scheduled := if 1 <= attempt <= 7 then 1.2 * SCHEDULE[attempt - 1] else 0.0;
    if honoured && scheduled < 3600.0 then 3600.0 else scheduled
  }

  function LongestTotal(attempt: int, configuredMax: int, honoured: bool): real
    decreases configuredMax - attempt
  {
    if attempt >= configuredMax then 0.0
    else LongestWait(attempt, honoured) + LongestTotal(attempt + 1, configuredMax, honoured)
  }

  /** However a cycle fails, its waits add up to at most the longest wait of each attempt it may make. */
  lemma {:induction false} WaitsAddUpToAtMost(fs: seq<Failure>, attempt: int, configuredMax: int, honoured: bool)
    requires 1 <= attempt && Draws(fs) && (honoured || NoneHonoured(fs))
    ensures 0.0 <= Sum(Delays(fs, attempt, configuredMax)) <= LongestTotal(attempt, configuredMax, honoured)
    decreases |fs|
  {
    LongestTotalIsNonNegative(attempt, configuredMax, honoured);
    if fs != [] {
      WaitsAddUpToAtMost(fs[1..], attempt + 1, configuredMax, honoured);
      match NextDelaySeconds(attempt, fs[0].status, fs[0].retryAfter, configuredMax, fs[0].jitter) {
        case None =>
        case Some(delay) =>
          WaitIsBounded(fs[0], attempt, configuredMax);
          assert Delays(fs, attempt, configuredMax)[1..] == Delays(fs[1..], attempt + 1, configuredMax);
      }
    }
  }

  lemma {:induction false} LongestTotalIsNonNegative(attempt: int, configuredMax: int, honoured: bool)
    requires 1 <= attempt
    ensures 0.0 <= LongestTotal(attempt, configuredMax, honoured)
    decreases configuredMax - attempt
  {
    if attempt < configuredMax {
      LongestTotalIsNonNegative(attempt + 1, configuredMax, honoured);
    }
  }

  lemma WaitIsBounded(f: Failure, attempt: int, configuredMax: int)
    requires 1 <= attempt && IsJitter(f.jitter)
    requires NextDelaySeconds(attempt, f.status, f.retryAfter, configuredMax, f.jitter).Some?
    ensures 0.0 <= NextDelaySeconds(attempt, f.status, f.retryAfter, configuredMax, f.jitter).value
              <= LongestWait(attempt, Honoured(f.status, f.retryAfter))
    ensures attempt < configuredMax
  {
    if !Honoured(f.status, f.retryAfter) {
      var base := Backoff(attempt).value;
      assert 0.0 <= base * f.jitter <= base * JITTER_MAX;
    }
  }

  /** With the default of seven attempts one cycle waits at most 26640 s, and at most 11706 s
      when no Retry-After is honoured. */
  lemma CycleWaitBounds(fs: seq<Failure>)
    requires Draws(fs)
    ensures Sum(Delays(fs, 1, 7)) <= 26640.0
    ensures NoneHonoured(fs) ==> Sum(Delays(fs, 1, 7)) <= 11706.0
  {
    WaitsAddUpToAtMost(fs, 1, 7, true);
    TotalsUnrolled(true);
    if NoneHonoured(fs) {
      WaitsAddUpToAtMost(fs, 1, 7, false);
      TotalsUnrolled(false);
    }
  }

  lemma TotalsUnrolled(honoured: bool)
    ensures LongestTotal(1, 7, honoured) == if honoured then 26640.0 else 11706.0
  {
    assert LongestTotal(7, 7, honoured) == 0.0;
    assert LongestTotal(6, 7, honoured) == 8640.0;
    assert LongestTotal(5, 7, honoured) == LongestWait(5, honoured) + 8640.0;
    assert LongestTotal(4, 7, honoured) == LongestWait(4, honoured) + LongestTotal(5, 7, honoured);
    assert LongestTotal(3, 7, honoured) == LongestWait(3, honoured) + LongestTotal(4, 7, honoured);
    assert LongestTotal(2, 7, honoured) == LongestWait(2, honoured) + LongestTotal(3, 7, honoured);
  }

  /** Both bounds are reached: by six 500s with the largest jitter, and by five 429s that ask for more
      than an hour followed by one 500. */
  lemma CycleWaitBoundsAreTight()
    ensures exists fs :: Draws(fs) && NoneHonoured(fs) && Sum(Delays(fs, 1, 7)) == 11706.0
    ensures exists fs :: Draws(fs) && Sum(Delays(fs, 1, 7)) == 26640.0
  {
    var failing := Failure(Some(500), None, JITTER_MAX);
    var busy := Failure(Some(429), Some(86400.0), JITTER_MAX);
    var plain := Repeat(failing, 1);
    LongestRun(plain, 1, false);
    TotalsUnrolled(false);
    var polite := Repeat(busy, 2) + [failing];
    LongestRun(polite, 1, true);
    TotalsUnrolled(true);
  }

  function Repeat(f: Failure, from: int): (fs: seq<Failure>)
    requires from <= 7
    ensures |fs| == 7 - from && forall i | 0 <= i < |fs| :: fs[i] == f
    decreases 7 - from
  {
    if from == 7 then [] else [f] + Repeat(f, from + 1)
  }

  lemma {:induction false} LongestRun(fs: seq<Failure>, attempt: int, honoured: bool)
    requires 1 <= attempt <= 7 && |fs| == 7 - attempt
    requires forall i | 0 <= i < |fs| ::
      NextDelaySeconds(attempt + i, fs[i].status, fs[i].retryAfter, 7, fs[i].jitter)
      == Some(LongestWait(attempt + i, honoured))
    ensures Sum(Delays(fs, attempt, 7)) == LongestTotal(attempt, 7, honoured)
    decreases |fs|
  {
    if fs != [] {
      forall i | 0 <= i < |fs[1..]|
        ensures NextDelaySeconds(attempt + 1 + i, fs[1..][i].status, fs[1..][i].retryAfter, 7, fs[1..][i].jitter)
             == Some(LongestWait(attempt + 1 + i, honoured))
      {
        assert fs[1..][i] == fs[i + 1];
      }
      LongestRun(fs[1..], attempt + 1, honoured);
      assert Delays(fs, attempt, 7)[1..] == Delays(fs[1..], attempt + 1, 7);
    }
  }
}
