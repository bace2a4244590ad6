/**
 What the breaker keeps over whole histories, for any clock unless said otherwise: its timestamps, the exclusivity of
 probes, and when an endpoint is auto-disabled.
 */
module BreakerRuns {
  import opened Wrappers
  import opened Breaker

  // Event i neither left the breaker closed nor opened it.
  ghost predicate Quiet(ks: seq<Keys>, i: nat) {
    i + 1 < |ks| && !EndsIn(ks, i, Closed) && !Opens(ks, i)
  }

  ghost predicate QuietSince(ks: seq<Keys>, start: nat, end: nat) {
    forall i: nat | start < i < end :: Quiet(ks, i)
  }

  // Event k is the opening the breaker's timestamps speak about at point n.
  ghost predicate IsCurrentOpening(h: seq<Event>, ks: seq<Keys>, k: nat, n: nat)
    requires IsRun(h, ks) && n <= |h|
  {
    k < n && Opens(ks, k) && IsFailure(h, k) && QuietSince(ks, k, n)
  }

  /** A closed breaker carries no timestamps and fewer than ten consecutive failures. */
  lemma {:induction false} ClosedIsClean(h: seq<Event>, ks: seq<Keys>, n: nat)
    requires IsRun(h, ks) && n <= |h|
    ensures ks[n].state.Closed? ==>
              ks[n].openedAt.None? && ks[n].lastProbeAt.None?
              && ks[n].consecutive < 10
  {
    if n > 0 {
      ClosedIsClean(h, ks, n - 1);
      assert Leads(h, ks, n - 1);
    }
  }

  /** A breaker that is not closed remembers the failure that last opened it. While open, that is also its last probe
      time; in half_open the probe was admitted at least 600 s after it. */
  lemma {:induction false} TimestampsNameTheOpening(h: seq<Event>, ks: seq<Keys>, n: nat) returns (k: nat)
    requires IsRun(h, ks) && n <= |h| && !ks[n].state.Closed?
    ensures IsCurrentOpening(h, ks, k, n)
    ensures ks[n].openedAt == Some(h[k].attempt.at)
    ensures ks[n].state.Open? ==> ks[n].lastProbeAt == ks[n].openedAt
                                     && forall i: nat | k < i < n :: EndsIn(ks, i, Open)
    ensures ks[n].state.HalfOpen? ==>
              ks[n].lastProbeAt.Some? && ks[n].lastProbeAt.value >= h[k].attempt.at + 600.0
  {
    assert n > 0 && Leads(h, ks, n - 1);
    if Opens(ks, n - 1) {
      k := n - 1;
    } else {
      k := TimestampsNameTheOpening(h, ks, n - 1);
      assert Quiet(ks, n - 1);
    }
  }

  lemma OneCurrentOpening(h: seq<Event>, ks: seq<Keys>, j: nat, k: nat, n: nat)
    requires IsRun(h, ks) && n <= |h| && IsCurrentOpening(h, ks, j, n) && IsCurrentOpening(h, ks, k, n)
    ensures j == k
  {
    assert j < k ==> Quiet(ks, k);
    assert k < j ==> Quiet(ks, j);
  }

  lemma OpenedIsNotClosed(h: seq<Event>, ks: seq<Keys>, k: nat, n: nat)
    requires IsRun(h, ks) && n <= |h| && IsCurrentOpening(h, ks, k, n)
    ensures !ks[n].state.Closed?
  {
    assert k < n - 1 ==> Quiet(ks, n - 1);
  }

  /** Probes are exclusive over whole runs: between any two of them a failure opened the breaker, and the later probe
      came at least 600 s after that failure, whatever closes and resets lie between. */
  lemma ProbesAreSeparatedByAnOpening(h: seq<Event>, ks: seq<Keys>, i: nat, j: nat) returns (k: nat)
    requires IsRun(h, ks) && i < j && IsProbe(h, ks, i) && IsProbe(h, ks, j)
    ensures i < k < j && Opens(ks, k) && IsFailure(h, k)
    ensures h[j].at >= h[k].attempt.at + 600.0
  {
    assert Leads(h, ks, i) && EndsIn(ks, i, HalfOpen);
    assert ks[j].state.Open?;
    k := TimestampsNameTheOpening(h, ks, j);
    assert k < i ==> EndsIn(ks, i, Open);
  }

  /** So under one nondecreasing clock any two probes are at least 600 s apart. */
  lemma ProbesAreApart(h: seq<Event>, ks: seq<Keys>, i: nat, j: nat)
    requires IsRun(h, ks) && i < j && IsProbe(h, ks, i) && IsProbe(h, ks, j)
    requires forall a, b | i <= a < b <= j && !h[a].Reset? && !h[b].Reset? :: TimeOf(h[a]) <= TimeOf(h[b])
    ensures h[j].at >= h[i].at + 600.0
  {
    var k := ProbesAreSeparatedByAnOpening(h, ks, i, j);
    assert TimeOf(h[i]) <= TimeOf(h[k]);
  }

  function TimeOf(e: Event): real
    requires !e.Reset?
  {
    if e.Outcome? then e.attempt.at else e.at
  }

  // The requests admitted strictly between events k and n, in order.
  ghost function AdmittedBetween(h: seq<Event>, ks: seq<Keys>, k: nat, n: nat): seq<nat> {
    if n <= k + 1 then [] else AdmittedBetween(h, ks, k, n - 1) + if IsAdmitted(h, ks, n - 1) then [n - 1] else []
  }

  /** Between two consecutive openings with no close or reset, exactly one request is admitted, and it is a probe. */
  lemma OneAdmissionPerCooldown(h: seq<Event>, ks: seq<Keys>, k: nat, next: nat) returns (p: nat)
    requires IsRun(h, ks) && k < next && Opens(ks, k) && Opens(ks, next) && QuietSince(ks, k, next)
    ensures k < p < next && AdmittedBetween(h, ks, k, next) == [p] && IsProbe(h, ks, p)
  {
    p := AdmissionsSinceOpening(h, ks, k, next);
  }

  lemma {:induction false} AdmissionsSinceOpening(h: seq<Event>, ks: seq<Keys>, k: nat, n: nat) returns (p: nat)
    requires IsRun(h, ks) && k < n <= |h| && Opens(ks, k) && QuietSince(ks, k, n)
    ensures !ks[n].state.Closed?
    ensures ks[n].state.Open? ==> AdmittedBetween(h, ks, k, n) == []
    ensures ks[n].state.HalfOpen? ==> k < p < n && AdmittedBetween(h, ks, k, n) == [p] && IsProbe(h, ks, p)
    decreases n
  {
    p := n - 1;
    if k + 1 < n {
      assert Quiet(ks, n - 1);
      var q := AdmissionsSinceOpening(h, ks, k, n - 1);
      NotClosedAdmitsOnlyProbes(h, ks, n - 1);
      if !IsProbe(h, ks, n - 1) { p := q; }
    }
  }

  lemma NotClosedAdmitsOnlyProbes(h: seq<Event>, ks: seq<Keys>, n: nat)
    requires IsRun(h, ks) && n < |h| && !ks[n].state.Closed? && Quiet(ks, n)
    ensures IsAdmitted(h, ks, n) <==> IsProbe(h, ks, n)
    ensures IsProbe(h, ks, n) ==> ks[n].state.Open? && ks[n + 1].state.HalfOpen?
    ensures !IsProbe(h, ks, n) ==> ks[n + 1].state == ks[n].state
  {
    assert Leads(h, ks, n);
  }

  /** Auto-disable, exactly: it fires when the failure that last opened the breaker is at least 72 h old and nothing has
      closed, reset or re-opened the breaker since. In particular every failed probe starts the 72 h again. */
  lemma AutoDisablesExactlyWhen(h: seq<Event>, ks: seq<Keys>, n: nat, now: real)
    requires IsRun(h, ks) && n <= |h|
    ensures ShouldAutoDisable(ks[n], now)
       <==> exists k: nat :: IsCurrentOpening(h, ks, k, n) && h[k].attempt.at + 259200.0 <= now
  {
    if !ks[n].state.Closed? {
      var k := TimestampsNameTheOpening(h, ks, n);
      forall j: nat | IsCurrentOpening(h, ks, j, n) ensures j == k { OneCurrentOpening(h, ks, j, k, n); }
    } else {
      forall k: nat ensures !IsCurrentOpening(h, ks, k, n) {
        if IsCurrentOpening(h, ks, k, n) { OpenedIsNotClosed(h, ks, k, n); }
      }
    }
  }

  /** A worker asks for auto-disable only after a denial. When the denial and the test see the same keys and the same
      `now`, the test can hold only in half_open, never while the breaker is open. */
  lemma DeniedAndDisabledOnlyInHalfOpen(h: seq<Event>, ks: seq<Keys>, n: nat, now: real)
    requires IsRun(h, ks) && n <= |h| && Decide(ks[n], now).Deny? && ShouldAutoDisable(ks[n], now)
    ensures ks[n].state.HalfOpen?
  {
    var k := TimestampsNameTheOpening(h, ks, n);
  }

  // ---- The state, read off the history ----

  // What ends a streak of failures, and closes the breaker.
  ghost predicate EndsStreak(h: seq<Event>, n: nat) {
    n < |h| && (h[n].Reset? || (h[n].Outcome? && h[n].attempt.success))
  }

  /** A success, or a reset, closes the breaker, whatever state it is in; if that was not closed, no key is left. */
  lemma SuccessCloses(h: seq<Event>, ks: seq<Keys>, n: nat)
    requires IsRun(h, ks) && EndsStreak(h, n)
    ensures ks[n + 1].state.Closed? && ks[n + 1].consecutive == 0
    ensures !ks[n].state.Closed? || h[n].Reset? ==>
              && ks[n + 1].openedAt.None? && ks[n + 1].lastProbeAt.None?
              && ks[n + 1].attempts == ks[n + 1].failures == map[]
  {
    assert Leads(h, ks, n);
  }

  /** A failed probe opens the breaker again, from that moment; a failure that finds it open leaves that moment. */
  lemma FailureKeepsOut(h: seq<Event>, ks: seq<Keys>, n: nat)
    requires IsRun(h, ks) && IsFailure(h, n) && !ks[n].state.Closed?
    ensures ks[n + 1].state.Open? && ks[n + 1].consecutive == ks[n].consecutive + 1
    ensures var at := if ks[n].state.HalfOpen? then Some(h[n].attempt.at) else ks[n].openedAt;
            ks[n + 1].openedAt == at && (ks[n].state.HalfOpen? ==> ks[n + 1].lastProbeAt == at)
    ensures Opens(ks, n) <==> ks[n].state.HalfOpen?
  {
    assert Leads(h, ks, n);
  }

  /** A request is admitted exactly by a closed breaker, and by an open one, as a probe, from 600 s after it opened. */
  lemma AdmittedExactlyWhen(h: seq<Event>, ks: seq<Keys>, n: nat)
    requires IsRun(h, ks) && n < |h| && h[n].Request?
    ensures IsProbe(h, ks, n) <==>
              ks[n].state.Open? && exists k: nat :: IsCurrentOpening(h, ks, k, n) && h[k].attempt.at + 600.0 <= h[n].at
    ensures IsAdmitted(h, ks, n) <==> ks[n].state.Closed? || IsProbe(h, ks, n)
  {
    if ks[n].state.Open? {
      var k := TimestampsNameTheOpening(h, ks, n);
      forall j: nat | IsCurrentOpening(h, ks, j, n) ensures j == k { OneCurrentOpening(h, ks, j, k, n); }
    }
  }

  // Since event k a success or a reset has come.
  ghost predicate EndedSince(h: seq<Event>, k: nat, n: nat) {
    exists i: nat :: k < i < n && EndsStreak(h, i)
  }

  ghost predicate EveryOpeningEnded(h: seq<Event>, ks: seq<Keys>, n: nat) {
    forall k: nat | k < n && Opens(ks, k) :: EndedSince(h, k, n)
  }

  /** The breaker is closed exactly when every opening so far has been followed by a success or a reset. */
  lemma {:induction false} ClosedExactlyWhen(h: seq<Event>, ks: seq<Keys>, n: nat)
    requires IsRun(h, ks) && n <= |h|
    ensures ks[n].state.Closed? <==> EveryOpeningEnded(h, ks, n)
  {
    if n > 0 {
      ClosedExactlyWhen(h, ks, n - 1);
      assert Leads(h, ks, n - 1);
      if EndsStreak(h, n - 1) {
        SuccessCloses(h, ks, n - 1);
        forall k: nat | k < n && Opens(ks, k) ensures EndedSince(h, k, n) {
          assert k != n - 1;
          assert EndsStreak(h, n - 1);
        }
      } else {
        NoEndNoChange(h, ks, n);
      }
    }
  }

  lemma NoEndNoChange(h: seq<Event>, ks: seq<Keys>, n: nat)
    requires IsRun(h, ks) && 0 < n <= |h| && !EndsStreak(h, n - 1)
    requires ks[n - 1].state.Closed? <==> EveryOpeningEnded(h, ks, n - 1)
    ensures ks[n].state.Closed? <==> EveryOpeningEnded(h, ks, n)
  {
    assert Leads(h, ks, n - 1);
    forall k: nat | k < n - 1 ensures EndedSince(h, k, n) <==> EndedSince(h, k, n - 1) {}
    assert !EndedSince(h, n - 1, n);
    if ks[n - 1].state.Closed? {
      assert Opens(ks, n - 1) <==> !ks[n].state.Closed?;
    } else {
      var k: nat :| k < n - 1 && Opens(ks, k) && !EndedSince(h, k, n - 1);
      assert !EndedSince(h, k, n);
    }
  }

  // Event p let a probe through, and nothing has come of it yet.
  ghost predicate IsPendingProbe(h: seq<Event>, ks: seq<Keys>, p: nat, n: nat) {
    p < n && IsProbe(h, ks, p) && forall i: nat | p < i < n && i < |h| :: h[i].Request?
  }

  /** It is half open exactly from a probe to the next outcome or reset. */
  lemma {:induction false} HalfOpenExactlyWhen(h: seq<Event>, ks: seq<Keys>, n: nat)
    requires IsRun(h, ks) && n <= |h|
    ensures ks[n].state.HalfOpen? <==> exists p: nat :: IsPendingProbe(h, ks, p, n)
  {
    if n > 0 {
      HalfOpenExactlyWhen(h, ks, n - 1);
      assert Leads(h, ks, n - 1);
      if IsProbe(h, ks, n - 1) {
        assert IsPendingProbe(h, ks, n - 1, n);
      } else if ks[n - 1].state.HalfOpen? && h[n - 1].Request? {
        var p: nat :| IsPendingProbe(h, ks, p, n - 1);
        assert IsPendingProbe(h, ks, p, n);
      } else {
        forall p: nat ensures !IsPendingProbe(h, ks, p, n) {
          if IsPendingProbe(h, ks, p, n) {
            assert h[n - 1].Request? && IsPendingProbe(h, ks, p, n - 1);
          }
        }
      }
    }
  }

  // The failures since the last success or reset.
  ghost function Streak(h: seq<Event>, n: nat): nat
    requires n <= |h|
  {
    if n == 0 || EndsStreak(h, n - 1) then 0
    else Streak(h, n - 1) + if IsFailure(h, n - 1) then 1 else 0
  }

  lemma {:induction false} CounterIsStreak(h: seq<Event>, ks: seq<Keys>, n: nat)
    requires IsRun(h, ks) && n <= |h|
    ensures ks[n].consecutive == Streak(h, n)
  {
    if n > 0 {
      CounterIsStreak(h, ks, n - 1);
      assert Leads(h, ks, n - 1);
    }
  }

  // ---- An endpoint that is never closed and never disabled ----

  // The breaker opened at event `opening`, has not been closed since, and last opened at `at`.
  ghost predicate StaysOpen(h: seq<Event>, ks: seq<Keys>, opening: nat, at: real) {
    && IsRun(h, ks) && opening < |h| && IsFailure(h, opening) && h[opening].attempt.at == 0.0
    && (forall i: nat | opening <= i < |h| :: !EndsIn(ks, i, Closed))
    && ks[|h|].state.Open? && ks[|h|].openedAt == Some(at) && ks[|h|].lastProbeAt == Some(at)
  }

  lemma AppendKeepsOpen(h: seq<Event>, ks: seq<Keys>, opening: nat, e: Event)
    requires IsRun(h, ks) && opening < |h| && !Apply(ks[|h|], e).state.Closed?
    requires forall i: nat | opening <= i < |h| :: !EndsIn(ks, i, Closed)
    ensures forall i: nat | opening <= i < |h| + 1 :: !EndsIn(ks + [Apply(ks[|h|], e)], i, Closed)
  {
    var ks' := ks + [Apply(ks[|h|], e)];
    forall i: nat | opening <= i < |h| + 1 ensures !EndsIn(ks', i, Closed) {
      if i < |h| { assert !EndsIn(ks, i, Closed); }
    }
  }

  // n failures at time 0, from no keys at all.
  lemma {:induction false} FailuresAtZero(n: nat) returns (h: seq<Event>, ks: seq<Keys>)
    requires n < CONSECUTIVE_FAILURE_THRESHOLD
    ensures IsRun(h, ks) && |h| == n
    ensures ks[n].state.Closed? && ks[n].consecutive == n && |ks[n].attempts| <= n
  {
    if n == 0 {
      h, ks := [], [Absent];
    } else {
      h, ks := FailuresAtZero(n - 1);
      var e := Outcome(Attempt(0.0, false, n));
      TrimIsNoLarger(ks[n - 1].attempts, 0.0 - WINDOW_SECONDS);
      RunExtends(h, ks, e);
      h, ks := h + [e], ks + [Apply(ks[n - 1], e)];
    }
  }

  lemma TrimIsNoLarger(z: Zset, cutoff: real)
    ensures |Trim(z, cutoff)| <= |z|
  {
    assert Trim(z, cutoff).Keys <= z.Keys;
    NoMoreKeys(Trim(z, cutoff).Keys, z.Keys);
    assert |Trim(z, cutoff)| == |Trim(z, cutoff).Keys| && |z| == |z.Keys|;
  }

  lemma {:induction false} NoMoreKeys(a: set<Member>, b: set<Member>)
    requires a <= b
    ensures |a| <= |b|
  {
    if a != {} {
      var x :| x in a;
      NoMoreKeys(a - {x}, b - {x});
    }
  }

  /** The documented rule, "continuously open for 72 hours", is not what the code does. Ten failures at time 0 open the
      breaker; then every probe, each 600 s after the last, fails. However many there are, the breaker is never closed
      again, requests are denied, and 599 s after the last probe the auto-disable is still not due. With 432 probes that
      is 72 hours after it opened. */
  lemma {:induction false} FailedProbesPostponeTheDisable(probes: nat) returns (h: seq<Event>, ks: seq<Keys>)
    ensures StaysOpen(h, ks, CONSECUTIVE_FAILURE_THRESHOLD - 1, probes as real * PROBE_INTERVAL)
    ensures var now := probes as real * PROBE_INTERVAL + 599.0;
            && Decide(ks[|h|], now).Deny? && !ShouldAutoDisable(ks[|h|], now)
            && (probes >= 432 ==> now >= 72.0 * 3600.0)
  {
    var at := probes as real * PROBE_INTERVAL;
    if probes == 0 {
      h, ks := FailuresAtZero(CONSECUTIVE_FAILURE_THRESHOLD - 1);
      var e := Outcome(Attempt(at, false, 0));
      RunExtends(h, ks, e);
      h, ks := h + [e], ks + [Apply(ks[|h|], e)];
    } else {
      h, ks := FailedProbesPostponeTheDisable(probes - 1);
      var ask := Request(at);
      RunExtends(h, ks, ask);
      AppendKeepsOpen(h, ks, CONSECUTIVE_FAILURE_THRESHOLD - 1, ask);
      h, ks := h + [ask], ks + [Apply(ks[|h|], ask)];
      var e := Outcome(Attempt(at, false, CONSECUTIVE_FAILURE_THRESHOLD + probes));
      RunExtends(h, ks, e);
      AppendKeepsOpen(h, ks, CONSECUTIVE_FAILURE_THRESHOLD - 1, e);
      h, ks := h + [e], ks + [Apply(ks[|h|], e)];
    }
  }
}
