/**
 The breaker's incremental bookkeeping against a recount of its whole history: the two sorted sets, the consecutive
 counter and the decision to open are what one would compute from the outcomes themselves.
 */
module BreakerRecount {
  import opened Breaker

  /** The attempts recorded since the last clear: a reset, or a success that found the breaker not closed. */
  ghost function SinceClear(h: seq<Event>, ks: seq<Keys>, n: nat): seq<Attempt>
    requires n <= |h| <= |ks|
  {
    if n == 0 then []
    else match h[n - 1]
      case Outcome(a) => if a.success && !ks[n - 1].state.Closed? then [] else SinceClear(h, ks, n - 1) + [a]
      case Request(_) => SinceClear(h, ks, n - 1)
      case Reset => []
  }

  ghost function TrailingFailures(live: seq<Attempt>): nat {
    if live == [] || live[|live| - 1].success then 0 else TrailingFailures(live[..|live| - 1]) + 1
  }

  // The attempts (only the failed ones, if `failedOnly`) made after the cutoff, as a sorted set,
  ghost function Recent(live: seq<Attempt>, cutoff: real, failedOnly: bool): Zset {
    if live == [] then map[]
    else
      var earlier, last := Recent(live[..|live| - 1], cutoff, failedOnly), live[|live| - 1];
      if last.at > cutoff && (failedOnly ==> !last.success) then earlier[last.member := last.at] else earlier
  }

  // and how many they are.
  ghost function Recount(live: seq<Attempt>, cutoff: real, failedOnly: bool): nat {
    if live == [] then 0
    else
      var earlier, last := Recount(live[..|live| - 1], cutoff, failedOnly), live[|live| - 1];
      if last.at > cutoff && (failedOnly ==> !last.success) then earlier + 1 else earlier
  }

  // The window reaches back from the last attempt.
  ghost function Cutoff(live: seq<Attempt>): real {
    if live == [] then 0.0 else live[|live| - 1].at - WINDOW_SECONDS
  }

  ghost predicate Distinct(live: seq<Attempt>) {
    forall i, j | 0 <= i < j < |live| :: live[i].member != live[j].member
  }

  ghost predicate Recorded(h: seq<Event>, n: nat, a: Attempt) {
    exists i :: 0 <= i < n && i < |h| && h[i] == Outcome(a)
  }

  // Everything in the live list was recorded by some event of the history so far.
  lemma {:induction false} LiveComesFromHistory(h: seq<Event>, ks: seq<Keys>, n: nat)
    requires n <= |h| <= |ks|
    ensures forall a | a in SinceClear(h, ks, n) :: Recorded(h, n, a)
  {
    if n > 0 {
      LiveComesFromHistory(h, ks, n - 1);
      forall a | a in SinceClear(h, ks, n) ensures Recorded(h, n, a) {
        if h[n - 1] != Outcome(a) { assert Recorded(h, n - 1, a); }
      }
    }
  }

  lemma {:induction false} LiveIsDistinct(h: seq<Event>, ks: seq<Keys>, n: nat)
    requires n <= |h| <= |ks| && FreshMembers(h)
    ensures Distinct(SinceClear(h, ks, n))
  {
    if n > 0 {
      LiveIsDistinct(h, ks, n - 1);
      LiveComesFromHistory(h, ks, n - 1);
      var before := SinceClear(h, ks, n - 1);
      forall i | 0 <= i < |before| && h[n - 1].Outcome? ensures before[i].member != h[n - 1].attempt.member {
        assert Recorded(h, n - 1, before[i]);
      }
    }
  }

  lemma {:induction false} LiveIsSorted(h: seq<Event>, ks: seq<Keys>, n: nat)
    requires n <= |h| <= |ks| && NondecreasingOutcomes(h)
    ensures Sorted(SinceClear(h, ks, n))
  {
    if n > 0 {
      LiveIsSorted(h, ks, n - 1);
      LiveComesFromHistory(h, ks, n - 1);
      var before := SinceClear(h, ks, n - 1);
      forall i | 0 <= i < |before| && h[n - 1].Outcome? ensures before[i].at <= h[n - 1].attempt.at {
        assert Recorded(h, n - 1, before[i]);
      }
    }
  }

  ghost predicate Sorted(live: seq<Attempt>) {
    forall i, j | 0 <= i < j < |live| :: live[i].at <= live[j].at
  }

  // Trimming the kept window to a later cutoff is recounting from that cutoff.
  lemma {:induction false} TrimIsRecount(live: seq<Attempt>, cutoff: real, later: real, failedOnly: bool)
    requires cutoff <= later && Distinct(live)
    ensures Trim(Recent(live, cutoff, failedOnly), later) == Recent(live, later, failedOnly)
    ensures forall m | m in Recent(live, cutoff, failedOnly) :: exists i :: 0 <= i < |live| && live[i].member == m
  {
    if live != [] {
      var n := |live| - 1;
      TrimIsRecount(live[..n], cutoff, later, failedOnly);
      assert forall i | 0 <= i < n :: live[..n][i] == live[i];
      assert live[n].member !in Recent(live[..n], cutoff, failedOnly);
    }
  }

  lemma {:induction false} RecountCounts(live: seq<Attempt>, cutoff: real, failedOnly: bool)
    requires Distinct(live)
    ensures |Recent(live, cutoff, failedOnly)| == Recount(live, cutoff, failedOnly)
  {
    if live != [] {
      var n := |live| - 1;
      RecountCounts(live[..n], cutoff, failedOnly);
      TrimIsRecount(live[..n], cutoff, cutoff, failedOnly);
      assert live[n].member !in Recent(live[..n], cutoff, failedOnly);
    }
  }

  // What the recount says about the keys.
  ghost predicate Matches(k: Keys, live: seq<Attempt>) {
    && k.attempts == Recent(live, Cutoff(live), false)
    && k.failures == Recent(live, Cutoff(live), true)
    && k.consecutive == TrailingFailures(live)
  }

  /** Under a nondecreasing clock, at every point of every history: the two sorted sets are exactly the attempts, and
      the failed attempts, of the last five minutes since the last clear, and the counter is the run of failures at
      their end. */
  lemma {:induction false} KeysMatchRecount(h: seq<Event>, ks: seq<Keys>, n: nat)
    requires IsRun(h, ks) && n <= |h| && FreshMembers(h) && NondecreasingOutcomes(h)
    ensures Matches(ks[n], SinceClear(h, ks, n))
  {
    if n > 0 {
      KeysMatchRecount(h, ks, n - 1);
      assert Leads(h, ks, n - 1);
      match h[n - 1] {
        case Outcome(a) =>
          LiveIsDistinct(h, ks, n - 1);
          LiveIsSorted(h, ks, n);
          RecordMatches(ks[n - 1], SinceClear(h, ks, n - 1), a);
        case Request(_) =>
        case Reset =>
      }
    }
  }

  lemma RecordMatches(k: Keys, live: seq<Attempt>, a: Attempt)
    requires Matches(k, live) && Distinct(live)
    requires Sorted(if a.success && !k.state.Closed? then [] else live + [a])
    ensures Matches(Record(k, a.at, a.success, a.member), if a.success && !k.state.Closed? then [] else live + [a])
  {
    if !a.success || k.state.Closed? {
      var after := Record(k, a.at, a.success, a.member);
      assert after.attempts == Recent(live + [a], Cutoff(live + [a]), false) by {
        AppendToWindow(live, a, false);
      }
      assert after.failures == Recent(live + [a], Cutoff(live + [a]), true) by {
        AppendToWindow(live, a, true);
      }
      assert (live + [a])[..|live|] == live;
    }
  }

  lemma AppendToWindow(live: seq<Attempt>, a: Attempt, failedOnly: bool)
    requires Distinct(live) && Sorted(live + [a])
    ensures var trimmed := Trim(Recent(live, Cutoff(live), failedOnly), a.at - WINDOW_SECONDS);
            Recent(live + [a], Cutoff(live + [a]), failedOnly) ==
            if failedOnly && a.success then trimmed else trimmed[a.member := a.at]
  {
    assert (live + [a])[..|live|] == live;
    if live == [] {
      assert Trim(map[], a.at - WINDOW_SECONDS) == map[];
    } else {
      assert (live + [a])[|live| - 1].at <= (live + [a])[|live|].at;
      TrimIsRecount(live, Cutoff(live), a.at - WINDOW_SECONDS, failedOnly);
    }
  }

  /** The decision to open, recounted: under a nondecreasing clock a failure opens a closed breaker if and only if it
      ends a run of at least ten failures, or the last five minutes since the clear hold at least twenty attempts of
      which more than half failed. */
  lemma OpensExactlyWhenTripped(h: seq<Event>, ks: seq<Keys>, n: nat)
    requires IsRun(h, ks) && FreshMembers(h) && NondecreasingOutcomes(h)
    requires IsFailure(h, n) && ks[n].state.Closed?
    ensures var live, cutoff := SinceClear(h, ks, n + 1), h[n].attempt.at - 300.0;
            Opens(ks, n) <==>
              || TrailingFailures(live) >= 10
              || (Recount(live, cutoff, false) >= 20
                  && 2 * Recount(live, cutoff, true) > Recount(live, cutoff, false))
  {
    var live := SinceClear(h, ks, n + 1);
    KeysMatchRecount(h, ks, n + 1);
    LiveIsDistinct(h, ks, n + 1);
    RecountCounts(live, Cutoff(live), false);
    RecountCounts(live, Cutoff(live), true);
    OpensExactlyWhenTrips(h, ks, n);
  }

  lemma OpensExactlyWhenTrips(h: seq<Event>, ks: seq<Keys>, n: nat)
    requires IsRun(h, ks) && IsFailure(h, n) && ks[n].state.Closed?
    ensures var after := ks[n + 1]; Opens(ks, n) <==> Trips(after.consecutive, after.attempts, after.failures)
  {
    assert Leads(h, ks, n);
  }

  // ---- Expiry of the window sets ----

  /** The keys as Redis keeps them: recording re-arms EXPIRE 2 * WINDOW_SECONDS on each set it adds to. */
  datatype Expiring = Expiring(keys: Keys, attemptsExpireAt: real, failuresExpireAt: real)

  function Unexpired(x: Expiring, at: real): Keys {
    x.keys.(attempts := if at >= x.attemptsExpireAt then map[] else x.keys.attempts,
            failures := if at >= x.failuresExpireAt then map[] else x.keys.failures)
  }

  function ApplyWithTtl(x: Expiring, e: Event): Expiring {
    match e
    case Outcome(a) =>
      Expiring(Apply(Unexpired(x, a.at), e), a.at + 2.0 * WINDOW_SECONDS,
               if a.success then x.failuresExpireAt else a.at + 2.0 * WINDOW_SECONDS)
    case _ => x.(keys := Apply(x.keys, e))
  }

  /** `xs` are the expiring keys along the same history. */
  ghost predicate IsRunWithTtl(h: seq<Event>, xs: seq<Expiring>) {
    && |xs| == |h| + 1
    && xs[0] == Expiring(Absent, 0.0, 0.0)
    && forall i: nat | i < |h| :: LeadsWithTtl(h, xs, i)
  }

  ghost predicate LeadsWithTtl(h: seq<Event>, xs: seq<Expiring>, i: nat) {
    i < |h| && i + 1 < |xs| && xs[i + 1] == ApplyWithTtl(xs[i], h[i])
  }

  // Every member of a set was added two windows or more before the set expires, and none later than `at`.
  ghost predicate Aged(z: Zset, expiresAt: real, at: real) {
    forall m | m in z :: z[m] <= expiresAt - 2.0 * WINDOW_SECONDS && z[m] <= at
  }

  ghost predicate AgedKeys(x: Expiring, at: real) {
    Aged(x.keys.attempts, x.attemptsExpireAt, at) && Aged(x.keys.failures, x.failuresExpireAt, at)
  }

  lemma ExpiredIsTrimmed(z: Zset, expiresAt: real, at: real)
    requires Aged(z, expiresAt, at)
    ensures Trim(if at >= expiresAt then map[] else z, at - WINDOW_SECONDS) == Trim(z, at - WINDOW_SECONDS)
  {}

  // A recording sees no more of the window sets than their trimmed contents.
  lemma RecordSeesTrimmed(k: Keys, k': Keys, at: real, success: bool, member: Member)
    requires Trim(k.attempts, at - WINDOW_SECONDS) == Trim(k'.attempts, at - WINDOW_SECONDS)
    requires Trim(k.failures, at - WINDOW_SECONDS) == Trim(k'.failures, at - WINDOW_SECONDS)
    requires k' == k.(attempts := k'.attempts, failures := k'.failures)
    ensures Record(k, at, success, member) == Record(k', at, success, member)
  {}

  lemma RecordAges(k: Keys, a: Attempt, failuresExpireAt: real)
    requires Aged(k.attempts, a.at + 2.0 * WINDOW_SECONDS, a.at)
    requires Aged(k.failures, if a.success then failuresExpireAt else a.at + 2.0 * WINDOW_SECONDS, a.at)
    ensures var after := Record(k, a.at, a.success, a.member);
            && Aged(after.attempts, a.at + 2.0 * WINDOW_SECONDS, a.at)
            && Aged(after.failures, if a.success then failuresExpireAt else a.at + 2.0 * WINDOW_SECONDS, a.at)
  {}

  lemma RecordWithTtl(x: Expiring, a: Attempt)
    requires AgedKeys(x, a.at)
    ensures ApplyWithTtl(x, Outcome(a)).keys == Apply(x.keys, Outcome(a))
    ensures AgedKeys(ApplyWithTtl(x, Outcome(a)), a.at)
  {
    ExpiredIsTrimmed(x.keys.attempts, x.attemptsExpireAt, a.at);
    ExpiredIsTrimmed(x.keys.failures, x.failuresExpireAt, a.at);
    RecordSeesTrimmed(x.keys, Unexpired(x, a.at), a.at, a.success, a.member);
    RecordAges(x.keys, a, x.failuresExpireAt);
  }

  // No outcome among the first n events is later than `at`.
  ghost predicate NoneAfter(h: seq<Event>, n: nat, at: real) {
    forall i | 0 <= i < n && i < |h| && h[i].Outcome? :: h[i].attempt.at <= at
  }

  /** Expiry is unobservable: under a nondecreasing clock the breaker whose window sets expire has, after every call,
      the same keys as the breaker that never forgets. */
  lemma {:induction false} ExpiryIsUnobservable(h: seq<Event>, ks: seq<Keys>, xs: seq<Expiring>, n: nat)
    requires IsRun(h, ks) && IsRunWithTtl(h, xs) && n <= |h| && NondecreasingOutcomes(h)
    ensures xs[n].keys == ks[n]
    ensures forall at | NoneAfter(h, n, at) :: AgedKeys(xs[n], at)
  {
    if n > 0 {
      ExpiryIsUnobservable(h, ks, xs, n - 1);
      assert Leads(h, ks, n - 1) && LeadsWithTtl(h, xs, n - 1);
      if h[n - 1].Outcome? {
        var a := h[n - 1].attempt;
        assert NoneAfter(h, n - 1, a.at);
        RecordWithTtl(xs[n - 1], a);
      }
      forall at | NoneAfter(h, n, at) ensures AgedKeys(xs[n], at) {
        assert NoneAfter(h, n - 1, at);
      }
    }
  }
}
