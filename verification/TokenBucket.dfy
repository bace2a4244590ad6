/**
 The per-tenant token bucket of relay/delivery/rate_limit.py (TOKEN_BUCKET_LUA, take_token).

 The script refills lazily from two stored numbers. What it is for is stated here without them:
 `Fits` says, from the times of the calls and the answers they were given, which call is within budget.
 */
module TokenBucket {
  import opened Wrappers

  const REQUESTED := 1.0
  const KEY_TTL := 60.0

  // How far the clock moved forward between call j and call n; steps backward count as no movement.
  function Forward(times: seq<real>, j: nat, n: nat): real
    requires j <= n < |times|
  {
    if j == n then 0.0 else Forward(times, j, n - 1) + Step(times, n)
  }

  function Step(times: seq<real>, n: nat): real
    requires 0 < n < |times|
  {
    if times[n] > times[n - 1] then times[n] - times[n - 1] else 0.0
  }

  // How many of the calls j..n-1 were granted.
  function Grants(answers: seq<bool>, j: nat, n: nat): nat
    requires j <= n <= |answers|
  {
    if j == n then 0 else Grants(answers, j, n - 1) + if answers[n - 1] then 1 else 0
  }

  // Call n fits the budget counted from call j: one burst, plus what the forward clock movement earned.
  ghost predicate FitsSince(rate: real, times: seq<real>, answers: seq<bool>, j: nat, n: nat)
    requires j <= n < |times| && n <= |answers|
  {
    Grants(answers, j, n) as real + REQUESTED <= rate + rate * Forward(times, j, n)
  }

  ghost predicate Fits(rate: real, times: seq<real>, answers: seq<bool>, n: nat)
    requires n < |times| && n <= |answers|
  {
    forall j: nat | j <= n :: FitsSince(rate, times, answers, j, n)
  }

  // ---- The script ----

  datatype Bucket = Bucket(tokens: real, updatedAt: real)

  // What the time since the last call adds; a clock that went back adds nothing.
  function Earned(rate: real, since: real, now: real): real {
    (if now > since then now - since else 0.0) * rate
  }

  function Refilled(rate: real, stored: Option<Bucket>, now: real): real {
    var b := stored.GetOr(Bucket(rate, now));
    var tokens := b.tokens + Earned(rate, b.updatedAt, now);
    if tokens < rate then tokens else rate
  }

  function Take(rate: real, stored: Option<Bucket>, now: real): (bool, Bucket) {
    var tokens := Refilled(rate, stored, now);
    if tokens >= REQUESTED then (true, Bucket(tokens - REQUESTED, now)) else (false, Bucket(tokens, now))
  }

  // What is stored, and what was answered, after calls at these times.
  function Run(rate: real, times: seq<real>): (r: (Option<Bucket>, seq<bool>))
    ensures |r.1| == |times|
  {
    if times == [] then (None, [])
    else
      var before := Run(rate, times[..|times| - 1]);
      var (granted, bucket) := Take(rate, before.0, times[|times| - 1]);
      (Some(bucket), before.1 + [granted])
  }

  lemma {:induction false} RunOfPrefix(rate: real, times: seq<real>, n: nat)
    requires n <= |times|
    ensures Run(rate, times[..n]).1 == Run(rate, times).1[..n]
    decreases |times|
  {
    if n == |times| {
      assert times[..n] == times;
    } else {
      var before := times[..|times| - 1];
      RunOfPrefix(rate, before, n);
      assert before[..n] == times[..n];
    }
  }

  // ---- Exactness ----

  // The budget left at the last call by the constraint that starts at call j.
  ghost function Allowance(rate: real, times: seq<real>, answers: seq<bool>, j: nat, n: nat): real
    requires j <= n < |times| && n <= |answers|
  {
    if j == n then rate
    else Allowance(rate, times, answers, j, n - 1) - (if answers[n - 1] then REQUESTED else 0.0)
         + Earned(rate, times[n - 1], times[n])
  }

  lemma {:induction false} AllowanceIsTheBudgetLeft(rate: real, times: seq<real>, answers: seq<bool>, j: nat, n: nat)
    requires j <= n < |times| && n <= |answers|
    ensures Allowance(rate, times, answers, j, n) == rate + rate * Forward(times, j, n) - Grants(answers, j, n) as real
    decreases n
  {
    if j < n {
      AllowanceIsTheBudgetLeft(rate, times, answers, j, n - 1);
      assert Earned(rate, times[n - 1], times[n]) == Step(times, n) * rate;
      Distribute(rate, Forward(times, j, n - 1), Step(times, n), Forward(times, j, n));
    }
  }

  lemma Distribute(rate: real, a: real, b: real, sum: real)
    requires sum == a + b
    ensures rate * sum == rate * a + b * rate
  {}

  lemma FitsSinceByAllowance(rate: real, times: seq<real>, answers: seq<bool>, j: nat, n: nat)
    requires j <= n < |times| && n <= |answers|
    ensures FitsSince(rate, times, answers, j, n) <==> Allowance(rate, times, answers, j, n) >= REQUESTED
  {
    AllowanceIsTheBudgetLeft(rate, times, answers, j, n);
  }

  lemma FitsByAllowance(rate: real, times: seq<real>, answers: seq<bool>, n: nat)
    requires n < |times| && n <= |answers|
    ensures Fits(rate, times, answers, n)
       <==> forall j: nat | j <= n :: Allowance(rate, times, answers, j, n) >= REQUESTED
  {
    if Fits(rate, times, answers, n) {
      forall j: nat | j <= n ensures Allowance(rate, times, answers, j, n) >= REQUESTED {
        assert FitsSince(rate, times, answers, j, n);
        FitsSinceByAllowance(rate, times, answers, j, n);
      }
    } else {
      var j: nat :| j <= n && !FitsSince(rate, times, answers, j, n);
      FitsSinceByAllowance(rate, times, answers, j, n);
    }
  }

  // The tokens call n sees after refilling.
  ghost function Level(rate: real, times: seq<real>, n: nat): real
    requires n < |times|
  {
    Refilled(rate, Run(rate, times[..n]).0, times[n])
  }

  // One call and the refill before the next.
  lemma TakeThenRefill(rate: real, stored: Option<Bucket>, now: real, next: real)
    ensures var (granted, b) := Take(rate, stored, now);
            var left := Refilled(rate, stored, now) - (if granted then REQUESTED else 0.0) + Earned(rate, now, next);
            Refilled(rate, Some(b), next) == if left < rate then left else rate
  {}

  lemma RunOfOneMore(rate: real, times: seq<real>, n: nat)
    requires n < |times|
    ensures var (granted, b) := Take(rate, Run(rate, times[..n]).0, times[n]);
            Run(rate, times[..n + 1]).0 == Some(b) && Run(rate, times).1[n] == granted
  {
    assert times[..n + 1][..n] == times[..n];
    RunOfPrefix(rate, times, n + 1);
    assert Run(rate, times[..n + 1]).1[n] == Run(rate, times).1[n];
  }

  lemma NextLevel(rate: real, times: seq<real>, n: nat)
    requires 0 < n < |times|
    ensures Run(rate, times).1[n - 1] <==> Level(rate, times, n - 1) >= REQUESTED
    ensures var left := Level(rate, times, n - 1) - (if Run(rate, times).1[n - 1] then REQUESTED else 0.0)
                        + Earned(rate, times[n - 1], times[n]);
            Level(rate, times, n) == if left < rate then left else rate
  {
    RunOfOneMore(rate, times, n - 1);
    TakeThenRefill(rate, Run(rate, times[..n - 1]).0, times[n - 1], times[n]);
  }

  /** The stored level is the tightest of the budget constraints, for any clock. */
  lemma {:induction false} LevelIsTightest(rate: real, times: seq<real>, n: nat) returns (tightest: nat)
    requires n < |times|
    ensures forall j: nat | j <= n :: Level(rate, times, n) <= Allowance(rate, times, Run(rate, times).1, j, n)
    ensures tightest <= n && Level(rate, times, n) == Allowance(rate, times, Run(rate, times).1, tightest, n)
  {
    if n == 0 {
      assert times[..0] == [];
      tightest := 0;
    } else {
      var k := LevelIsTightest(rate, times, n - 1);
      NextLevel(rate, times, n);
      tightest := if Level(rate, times, n) == rate then n else k;
    }
  }

  /** The bucket is exact: for every sequence of calls and any clock, even a backward one,
      call n is granted if and only if it fits. */
  lemma GrantedExactlyWhenFits(rate: real, times: seq<real>, n: nat)
    requires n < |times|
    ensures Run(rate, times).1[n] <==> Fits(rate, times, Run(rate, times).1, n)
  {
    var k := LevelIsTightest(rate, times, n);
    FitsByAllowance(rate, times, Run(rate, times).1, n);
    RunOfOneMore(rate, times, n);
  }

  lemma NextCall(rate: real, times: seq<real>, now: real)
    ensures var (stored, answers) := Run(rate, times);
            var (granted, bucket) := Take(rate, stored, now);
            && Run(rate, times + [now]) == (Some(bucket), answers + [granted])
            && (granted <==> Fits(rate, times + [now], answers + [granted], |times|))
  {
    assert (times + [now])[..|times|] == times;
    GrantedExactlyWhenFits(rate, times + [now], |times|);
  }

  /** And `Fits` leaves no choice: it is met by one sequence of answers only. */
  lemma {:induction false} FitsDeterminesTheAnswers(rate: real, times: seq<real>, answers: seq<bool>, n: nat)
    requires |answers| == |times| && n <= |times|
    requires forall i: nat | i < |times| :: answers[i] <==> Fits(rate, times, answers, i)
    ensures answers[..n] == Run(rate, times).1[..n]
  {
    if n > 0 {
      var last, run := n - 1, Run(rate, times).1;
      FitsDeterminesTheAnswers(rate, times, answers, last);
      GrantedExactlyWhenFits(rate, times, last);
      forall j: nat | j <= last
        ensures FitsSince(rate, times, answers, j, last) <==> FitsSince(rate, times, run, j, last)
      {
        GrantsOfPrefix(answers, run, j, last);
      }
      assert answers[last] == run[last];
    }
  }

  lemma {:induction false} GrantsOfPrefix(a: seq<bool>, b: seq<bool>, j: nat, n: nat)
    requires j <= n <= |a| && n <= |b| && a[..n] == b[..n]
    ensures Grants(a, j, n) == Grants(b, j, n)
    decreases n
  {
    if j < n {
      assert a[n - 1] == a[..n][n - 1] == b[n - 1];
      assert a[..n - 1] == a[..n][..n - 1] == b[..n - 1];
      GrantsOfPrefix(a, b, j, n - 1);
    }
  }

  // ---- The rate a tenant sees ----

  ghost predicate Nondecreasing(times: seq<real>) {
    forall i, j | 0 <= i <= j < |times| :: times[i] <= times[j]
  }

  /** One burst and the refill of an interval of that length. */
  function Budget(rate: real, span: real): real {
    rate * (1.0 + span)
  }

  /** Under a nondecreasing clock, the calls a..b-1, all made within [s, t], are granted
      at most rate * (1 + (t - s)) times. */
  lemma IntervalBound(rate: real, times: seq<real>, a: nat, b: nat, s: real, t: real)
    requires 0.0 <= rate && Nondecreasing(times)
    requires a <= b <= |times| && s <= t
    requires forall i | a <= i < b :: s <= times[i] <= t
    ensures Grants(Run(rate, times).1, a, b) as real <= Budget(rate, t - s)
  {
    SpanBound(rate, times, a, b, t - s);
  }

  lemma {:induction false} SpanBound(rate: real, times: seq<real>, a: nat, b: nat, span: real)
    requires 0.0 <= rate && Nondecreasing(times) && a <= b <= |times| && 0.0 <= span
    requires forall i | a <= i < b :: times[i] - times[a] <= span
    ensures Grants(Run(rate, times).1, a, b) as real <= Budget(rate, span)
    decreases b
  {
    if a == b {
      ProductIsMonotone(rate, 0.0, 1.0 + span);
    } else if Run(rate, times).1[b - 1] {
      GrantedCallFits(rate, times, a, b - 1, span);
    } else {
      SpanBound(rate, times, a, b - 1, span);
    }
  }

  lemma GrantedCallFits(rate: real, times: seq<real>, a: nat, n: nat, span: real)
    requires 0.0 <= rate && Nondecreasing(times) && a <= n < |times| && times[n] - times[a] <= span
    requires Run(rate, times).1[n]
    ensures Grants(Run(rate, times).1, a, n) as real + REQUESTED <= Budget(rate, span)
  {
    GrantedExactlyWhenFits(rate, times, n);
    ForwardIsElapsed(times, a, n);
    FittingCallIsPaid(rate, times, Run(rate, times).1, a, n, span);
  }

  lemma FittingCallIsPaid(rate: real, times: seq<real>, answers: seq<bool>, a: nat, n: nat, span: real)
    requires 0.0 <= rate && a <= n < |times| && n <= |answers| && FitsSince(rate, times, answers, a, n)
    requires 0.0 <= Forward(times, a, n) <= span
    ensures Grants(answers, a, n) as real + REQUESTED <= Budget(rate, span)
  {
    var grants, elapsed := Grants(answers, a, n) as real, Forward(times, a, n);
    OneBurstAndEarnings(rate, grants, elapsed, span);
  }

  lemma OneBurstAndEarnings(rate: real, grants: real, elapsed: real, span: real)
    requires 0.0 <= rate && 0.0 <= elapsed <= span && grants + REQUESTED <= rate + rate * elapsed
    ensures grants + REQUESTED <= Budget(rate, span)
  {
    ProductIsMonotone(rate, elapsed, span);
  }

  lemma ProductIsMonotone(rate: real, x: real, y: real)
    requires 0.0 <= rate && x <= y
    ensures rate * x <= rate * y
  {}

  lemma {:induction false} ForwardIsElapsed(times: seq<real>, j: nat, n: nat)
    requires j <= n < |times| && Nondecreasing(times)
    ensures Forward(times, j, n) == times[n] - times[j]
    decreases n
  {
    if j < n { ForwardIsElapsed(times, j, n - 1); }
  }

  // ---- The key's expiry ----

  // What Redis still has of a key last written at updatedAt.
  function Unexpired(stored: Option<Bucket>, now: real): Option<Bucket> {
    if stored.Some? && now >= stored.value.updatedAt + KEY_TTL then None else stored
  }

  function RunWithTtl(rate: real, times: seq<real>): (Option<Bucket>, seq<bool>) {
    if times == [] then (None, [])
    else
      var before := RunWithTtl(rate, times[..|times| - 1]);
      var now := times[|times| - 1];
      var (granted, bucket) := Take(rate, Unexpired(before.0, now), now);
      (Some(bucket), before.1 + [granted])
  }

  /** Expiry is unobservable: under a nondecreasing clock the expiring bucket gives the answers of the
      bucket that is kept forever. */
  lemma {:induction false} ExpiryIsUnobservable(rate: real, times: seq<real>)
    requires 1.0 <= rate && Nondecreasing(times)
    ensures RunWithTtl(rate, times) == Run(rate, times)
    decreases |times|
  {
    if times != [] {
      var before := times[..|times| - 1];
      ExpiryIsUnobservable(rate, before);
      StoredIsSane(rate, before);
      ExpiredIsFull(rate, Run(rate, before).0, times[|times| - 1]);
    }
  }

  ghost predicate Sane(stored: Option<Bucket>) {
    stored.Some? ==> 0.0 <= stored.value.tokens
  }

  // An expired bucket would have refilled to the burst anyway.
  lemma ExpiredIsFull(rate: real, stored: Option<Bucket>, now: real)
    requires 1.0 <= rate && Sane(stored)
    ensures Refilled(rate, Unexpired(stored, now), now) == Refilled(rate, stored, now)
  {
    if stored.Some? && now >= stored.value.updatedAt + KEY_TTL {
      assert Earned(rate, stored.value.updatedAt, now) == rate * (now - stored.value.updatedAt);
      ProductIsMonotone(rate, KEY_TTL, now - stored.value.updatedAt);
    }
  }

  lemma {:induction false} StoredIsSane(rate: real, times: seq<real>)
    requires 1.0 <= rate
    ensures Sane(Run(rate, times).0)
    decreases |times|
  {
    if times != [] {
      var before := times[..|times| - 1];
      StoredIsSane(rate, before);
      RefillIsNonNegative(rate, Run(rate, before).0, times[|times| - 1]);
    }
  }

  lemma RefillIsNonNegative(rate: real, stored: Option<Bucket>, now: real)
    requires 1.0 <= rate && Sane(stored)
    ensures 0.0 <= Refilled(rate, stored, now)
  {
    var b := stored.GetOr(Bucket(rate, now));
    if now > b.updatedAt { ProductIsMonotone(rate, 0.0, now - b.updatedAt); }
  }

  /** The Redis hash and its script. `times` and `answers` are the history the contract speaks about. */
  class TokenBucketKey {
    const rate: real
    var tokens: Option<real>
    var updatedAt: Option<real>
    ghost var times: seq<real>
    ghost var answers: seq<bool>

    function Stored(): Option<Bucket>
      reads this
    {
      if tokens.None? || updatedAt.None? then None else Some(Bucket(tokens.value, updatedAt.value))
    }

    ghost predicate Valid()
      reads this
    {
      && (tokens.None? <==> updatedAt.None?)
      && Run(rate, times) == (Stored(), answers)
    }

    constructor (rate: real)
      ensures Valid() && times == [] && answers == [] && this.rate == rate
    {
      this.rate := rate;
      tokens, updatedAt := None, None;
      times, answers := [], [];
    }

    // TOKEN_BUCKET_LUA
    method Script(now: real) returns (granted: bool)
      requires tokens.None? <==> updatedAt.None?
      modifies this`tokens, this`updatedAt
      ensures tokens.Some? && updatedAt.Some?
      ensures (granted, Stored().value) == Take(rate, old(Stored()), now)
    {
      var burst := rate;
      var level, since := burst, now;
      match tokens {
        case None =>
        case Some(stored) => level, since := stored, updatedAt.value;
      }
      var elapsed := if now > since then now - since else 0.0;
      level := level + elapsed * rate;
      if level > burst { level := burst; }
      assert level == Refilled(rate, Stored(), now);
      granted := false;
      if level >= REQUESTED {
        level := level - REQUESTED;
        granted := true;
      }
      tokens, updatedAt := Some(level), Some(now);
    }

    method TakeToken(now: real) returns (granted: bool)
      requires Valid()
      modifies this
      ensures Valid() && times == old(times) + [now] && answers == old(answers) + [granted]
      ensures |old(answers)| == |old(times)|
      ensures granted <==> Fits(rate, times, answers, |old(times)|)
    {
      NextCall(rate, times, now);
      granted := Script(now);
      times, answers := times + [now], answers + [granted];
    }
  }
}
