/**
 The per-endpoint circuit breaker of relay/delivery/circuit_breaker.py: RECORD_OUTCOME_LUA, ALLOW_REQUEST_LUA,
 reset and should_auto_disable, over a state hash and two sorted sets.

 A history is the sequence of calls; a run is the keys the scripts leave behind after each of them. What is proved
 about every run is in BreakerRecount and BreakerRuns. The early diagnosis trigger is a PUBLISH of its own after the
 script, so it has runs of its own, with everybody's calls in between; see BreakerTriggers.
 */
module Breaker {
  import opened Wrappers

  const CONSECUTIVE_FAILURE_THRESHOLD := 10
  const CONSECUTIVE_FAILURE_TRIGGER := 5
  const WINDOW_SECONDS := 300.0
  const WINDOW_MIN_ATTEMPTS := 20
  const FAILURE_RATE_THRESHOLD := 0.5
  const PROBE_INTERVAL := 600.0
  const AUTO_DISABLE_AFTER := 259200.0

  type Member = nat
  type Zset = map<Member, real>

  datatype State = Closed | Open | HalfOpen

  datatype Decision = Allow | Probe | Deny

  /** The Redis keys of one endpoint; absent hash fields are None, an absent `state` is Closed. */
  datatype Keys = Keys(
    state: State, consecutive: nat, openedAt: Option<real>, lastProbeAt: Option<real>,
    attempts: Zset, failures: Zset)

  const Absent := Keys(Closed, 0, None, None, map[], map[])

  // ZREMRANGEBYSCORE key -inf cutoff
  function Trim(z: Zset, cutoff: real): Zset {
    map m | m in z && z[m] > cutoff :: z[m]
  }

  // failures / attempts > FAILURE_RATE_THRESHOLD, without the division; see RateByDivision.
  predicate RateTripped(attempts: nat, failures: nat) {
    attempts >= WINDOW_MIN_ATTEMPTS && 2 * failures > attempts
  }

  lemma RateByDivision(attempts: nat, failures: nat)
    requires attempts > 0
    ensures failures as real / attempts as real > FAILURE_RATE_THRESHOLD <==> 2 * failures > attempts
  {
    var rate := failures as real / attempts as real;
    assert rate * attempts as real == failures as real;
    if rate > FAILURE_RATE_THRESHOLD {
      assert rate * attempts as real > 0.5 * attempts as real;
    } else {
      assert rate * attempts as real <= 0.5 * attempts as real;
    }
  }

  function Record(k: Keys, now: real, success: bool, member: Member): Keys {
    var attempts := Trim(k.attempts, now - WINDOW_SECONDS)[member := now];
    var trimmed := Trim(k.failures, now - WINDOW_SECONDS);
    var failures := if success then trimmed else trimmed[member := now];
    var consecutive := if success then 0 else k.consecutive + 1;
    if success && !k.state.Closed? then Absent
    else if !success && (k.state.HalfOpen? || (k.state.Closed? && Trips(consecutive, attempts, failures))) then
      Keys(Open, consecutive, Some(now), Some(now), attempts, failures)
    else k.(consecutive := consecutive, attempts := attempts, failures := failures)
  }

  predicate Trips(consecutive: nat, attempts: Zset, failures: Zset) {
    consecutive >= CONSECUTIVE_FAILURE_THRESHOLD || RateTripped(|attempts|, |failures|)
  }

  function Decide(k: Keys, now: real): Decision {
    match k.state
    case Closed => Allow
    case Open => if now - k.lastProbeAt.GetOr(0.0) >= PROBE_INTERVAL then Probe else Deny
    case HalfOpen => Deny
  }

  function Ask(k: Keys, now: real): Keys {
    if Decide(k, now).Probe? then k.(state := HalfOpen, lastProbeAt := Some(now)) else k
  }

  // The answer of the script on which record_outcome goes on to publish the early diagnosis trigger.
  predicate AsksForTrigger(k: Keys, success: bool, after: Keys) {
    !success && after.consecutive == CONSECUTIVE_FAILURE_TRIGGER && after.state.Closed?
  }

  predicate ShouldAutoDisable(k: Keys, now: real) {
    !k.state.Closed? && k.openedAt.Some? && now - k.openedAt.value >= AUTO_DISABLE_AFTER
  }

  // ---- Histories ----

  datatype Attempt = Attempt(at: real, success: bool, member: Member)

  datatype Event =
    | Outcome(attempt: Attempt)
    | Request(at: real)
    | Reset

  function Apply(k: Keys, e: Event): Keys {
    match e
    case Outcome(a) => Record(k, a.at, a.success, a.member)
    case Request(at) => Ask(k, at)
    case Reset => Absent
  }

  /** `ks` are the keys before, between and after the events of the history `h`, starting from no keys at all. */
  ghost predicate IsRun(h: seq<Event>, ks: seq<Keys>) {
    && |ks| == |h| + 1
    && ks[0] == Absent
    && forall i: nat | i < |h| :: Leads(h, ks, i)
  }

  ghost predicate Leads(h: seq<Event>, ks: seq<Keys>, i: nat) {
    i < |h| && i + 1 < |ks| && ks[i + 1] == Apply(ks[i], h[i])
  }

  lemma RunExtends(h: seq<Event>, ks: seq<Keys>, e: Event)
    requires IsRun(h, ks)
    ensures IsRun(h + [e], ks + [Apply(ks[|h|], e)])
  {
    forall i: nat | i < |h| + 1 ensures Leads(h + [e], ks + [Apply(ks[|h|], e)], i) {
      if i < |h| { assert Leads(h, ks, i); }
    }
  }

  // record_outcome draws a fresh member for every call.
  ghost predicate FreshMembers(h: seq<Event>) {
    forall i, j | 0 <= i < j < |h| && h[i].Outcome? && h[j].Outcome? :: h[i].attempt.member != h[j].attempt.member
  }

  ghost predicate NondecreasingOutcomes(h: seq<Event>) {
    forall i, j | 0 <= i < j < |h| && h[i].Outcome? && h[j].Outcome? :: h[i].attempt.at <= h[j].attempt.at
  }

  // The state event n left the breaker in.
  ghost predicate EndsIn(ks: seq<Keys>, n: nat, state: State) {
    n + 1 < |ks| && ks[n + 1].state == state
  }

  // Event n moved the breaker into open.
  ghost predicate Opens(ks: seq<Keys>, n: nat) {
    EndsIn(ks, n, Open) && !ks[n].state.Open?
  }

  ghost predicate IsFailure(h: seq<Event>, n: nat) {
    n < |h| && h[n].Outcome? && !h[n].attempt.success
  }

  ghost predicate IsAdmitted(h: seq<Event>, ks: seq<Keys>, n: nat) {
    n < |h| && n < |ks| && h[n].Request? && !Decide(ks[n], h[n].at).Deny?
  }

  ghost predicate IsProbe(h: seq<Event>, ks: seq<Keys>, n: nat) {
    n < |h| && n < |ks| && h[n].Request? && Decide(ks[n], h[n].at).Probe?
  }

  ghost predicate Asks(h: seq<Event>, ks: seq<Keys>, n: nat) {
    IsFailure(h, n) && n + 1 < |ks| && AsksForTrigger(ks[n], false, ks[n + 1])
  }

  // ---- The channel ----

  /** What subscribers receive: the transitions, which the script publishes itself, and the triggers. Each names the
      call it is about by its place in the history. */
  datatype Message = Transition(call: nat, to: State) | Trigger(call: nat)

  /** A script of the breaker, a worker's PUBLISH after its script, or the death of a worker between the two. */
  datatype Act = Call(event: Event) | Publish(call: nat) | Die(call: nat)

  /** `asking` are the calls whose worker has still to publish the trigger, `dead` those whose worker died first. */
  datatype Bus = Bus(h: seq<Event>, ks: seq<Keys>, asking: set<nat>, dead: set<nat>, channel: seq<Message>)

  const QuietBus := Bus([], [Absent], {}, {}, [])

  ghost predicate CanAct(b: Bus, a: Act) {
    match a
    case Call(_) => true
    case Publish(n) => n in b.asking
    case Die(n) => n in b.asking
  }

  ghost function Called(b: Bus, e: Event): Bus
    requires |b.ks| == |b.h| + 1
  {
    var n := |b.h|;
    var after := Apply(b.ks[n], e);
    var h, ks := b.h + [e], b.ks + [after];
    Bus(h, ks, if Asks(h, ks, n) then b.asking + {n} else b.asking, b.dead,
        b.channel + if e.Outcome? && after.state != b.ks[n].state then [Transition(n, after.state)] else [])
  }

  ghost predicate NextBus(b: Bus, a: Act, c: Bus) {
    && |b.ks| == |b.h| + 1 && CanAct(b, a)
    && match a
       case Call(e) => c == Called(b, e)
       case Publish(n) => c == b.(asking := b.asking - {n}, channel := b.channel + [Trigger(n)])
       case Die(n) => c == b.(asking := b.asking - {n}, dead := b.dead + {n})
  }

  ghost predicate IsBusRun(bs: seq<Bus>, acts: seq<Act>) {
    && |bs| == |acts| + 1
    && bs[0] == QuietBus
    && forall i: nat | i < |acts| :: LeadsBus(bs, acts, i)
  }

  ghost predicate LeadsBus(bs: seq<Bus>, acts: seq<Act>, i: nat) {
    i < |acts| && i + 1 < |bs| && NextBus(bs[i], acts[i], bs[i + 1])
  }

  lemma BusRunExtends(bs: seq<Bus>, acts: seq<Act>, a: Act, b: Bus)
    requires IsBusRun(bs, acts) && NextBus(bs[|acts|], a, b)
    ensures IsBusRun(bs + [b], acts + [a])
  {
    forall i: nat | i < |acts| + 1 ensures LeadsBus(bs + [b], acts + [a], i) {
      if i < |acts| { assert LeadsBus(bs, acts, i); }
    }
  }

  /** The breaker does not notice the channel. */
  lemma {:induction false} BusRunIsRun(bs: seq<Bus>, acts: seq<Act>, n: nat)
    requires IsBusRun(bs, acts) && n <= |acts|
    ensures IsRun(bs[n].h, bs[n].ks)
  {
    if n > 0 {
      BusRunIsRun(bs, acts, n - 1);
      assert LeadsBus(bs, acts, n - 1);
      var b := bs[n - 1];
      if acts[n - 1].Call? { RunExtends(b.h, b.ks, acts[n - 1].event); }
    }
  }

  /** The keys as an object, each method one script or command. `buses` and `acts` are the run so far, with the calls
      and publications of all workers. */
  class CircuitBreaker {
    var state: State
    var consecutive: nat
    var openedAt: Option<real>
    var lastProbeAt: Option<real>
    var attempts: Zset
    var failures: Zset
    ghost var buses: seq<Bus>
    ghost var acts: seq<Act>

    ghost function View(): Keys
      reads this
    {
      Keys(state, consecutive, openedAt, lastProbeAt, attempts, failures)
    }

    ghost predicate Valid()
      reads this
    {
      IsBusRun(buses, acts) && IsRun(Now().h, Now().ks) && Now().ks[|Now().h|] == View()
    }

    ghost function Now(): Bus
      reads this
    {
      if |buses| > 0 then buses[|buses| - 1] else QuietBus
    }

    constructor ()
      ensures Valid() && Now() == QuietBus && View() == Absent
    {
      state, consecutive, openedAt, lastProbeAt := Closed, 0, None, None;
      attempts, failures := map[], map[];
      buses, acts := [QuietBus], [];
    }

    // The run goes on with a script that has been executed.
    ghost method Log(e: Event)
      requires IsBusRun(buses, acts) && IsRun(Now().h, Now().ks) && View() == Apply(Now().ks[|Now().h|], e)
      modifies this`buses, this`acts
      ensures Valid() && Now() == Called(old(Now()), e)
    {
      RunExtends(Now().h, Now().ks, e);
      BusRunExtends(buses, acts, Call(e), Called(Now(), e));
      buses, acts := buses + [Called(Now(), e)], acts + [Call(e)];
    }

    // RECORD_OUTCOME_LUA
    method RecordScript(now: real, success: bool, member: Member) returns (transitioned: bool)
      modifies this`state, this`consecutive, this`openedAt, this`lastProbeAt, this`attempts, this`failures
      ensures View() == Record(old(View()), now, success, member)
      ensures success ==> state.Closed? && consecutive == 0
      ensures success && !old(state).Closed? ==> View() == Keys(Closed, 0, None, None, map[], map[])
      ensures !success ==> consecutive == old(consecutive) + 1
      ensures !success && old(state).HalfOpen? ==> state.Open? && openedAt == lastProbeAt == Some(now)
      ensures !success && old(state).Open? ==> state.Open? && openedAt == old(openedAt)
      ensures transitioned <==> state != old(state)
    {
      var from := state;
      var cutoff := now - WINDOW_SECONDS;
      attempts, failures := Trim(attempts, cutoff), Trim(failures, cutoff);
      attempts := attempts[member := now];
      if !success {
        failures := failures[member := now];
      }
      consecutive := if success then 0 else consecutive + 1;
      var to := from;
      if success {
        if from.HalfOpen? || from.Open? { to := Closed; }
      } else {
        if from.HalfOpen? {
          to := Open;
        } else if from.Closed? {
          if |attempts| > 0 { RateByDivision(|attempts|, |failures|); }
          var rateTripped := |attempts| >= WINDOW_MIN_ATTEMPTS
                             && |failures| as real / |attempts| as real > FAILURE_RATE_THRESHOLD;
          if consecutive >= CONSECUTIVE_FAILURE_THRESHOLD || rateTripped { to := Open; }
        }
      }
      transitioned := to != from;
      if transitioned {
        state := to;
        if to.Open? {
          openedAt, lastProbeAt := Some(now), Some(now);
        } else {
          openedAt, lastProbeAt, consecutive := None, None, 0;
          attempts, failures := map[], map[];
        }
      }
    }

    // record_outcome up to the script's answer: if it asks for the trigger, `call` is what PublishTrigger takes.
    // Anything may be called before that, or the worker may die.
    method RecordOutcome(now: real, success: bool, member: Member)
      returns (transitioned: bool, asks: bool, ghost call: nat)
      requires Valid()
      modifies this
      ensures Valid() && call == |old(Now().h)|
      ensures Now().h == old(Now().h) + [Outcome(Attempt(now, success, member))]
      ensures Now().ks == old(Now().ks) + [View()]
      ensures success ==> state.Closed? && consecutive == 0
      ensures success && !old(state).Closed? ==> View() == Keys(Closed, 0, None, None, map[], map[])
      ensures !success ==> consecutive == old(consecutive) + 1
      ensures !success && old(state).HalfOpen? ==> state.Open? && openedAt == lastProbeAt == Some(now)
      ensures !success && old(state).Open? ==> state.Open? && openedAt == old(openedAt)
      ensures transitioned <==> state != old(state)
      ensures Now().channel == old(Now().channel) + if transitioned then [Transition(call, state)] else []
      ensures asks <==> !success && consecutive == 5 && state.Closed?
      ensures Now().asking == if asks then old(Now().asking) + {call} else old(Now().asking)
    {
      call := |Now().h|;
      transitioned := RecordScript(now, success, member);
      asks := !success && consecutive == CONSECUTIVE_FAILURE_TRIGGER && state.Closed?;
      Log(Outcome(Attempt(now, success, member)));
    }

    // The PUBLISH of record_outcome; it touches no key.
    method PublishTrigger(ghost call: nat)
      requires Valid() && call in Now().asking
      modifies this`buses, this`acts
      ensures Valid()
      ensures Now() == old(Now()).(asking := old(Now().asking) - {call},
                                   channel := old(Now().channel) + [Trigger(call)])
    {
      ghost var b := Now().(asking := Now().asking - {call}, channel := Now().channel + [Trigger(call)]);
      BusRunExtends(buses, acts, Publish(call), b);
      buses, acts := buses + [b], acts + [Publish(call)];
    }

    // ALLOW_REQUEST_LUA
    method AllowScript(now: real) returns (decision: Decision)
      modifies this`state, this`lastProbeAt
      ensures decision == Decide(old(View()), now) && View() == Ask(old(View()), now)
      ensures decision.Allow? <==> old(state).Closed?
      ensures decision.Probe? <==> old(state).Open? && now - old(lastProbeAt).GetOr(0.0) >= 600.0
      ensures if decision.Probe? then state.HalfOpen? && lastProbeAt == Some(now) && openedAt == old(openedAt)
              else View() == old(View())
    {
      if state.Closed? {
        return Allow;
      }
      if state.Open? {
        var lastProbe := lastProbeAt.GetOr(0.0);
        if now - lastProbe >= PROBE_INTERVAL {
          state, lastProbeAt := HalfOpen, Some(now);
          return Probe;
        }
        return Deny;
      }
      return Deny;
    }

    method AllowRequest(now: real) returns (decision: Decision)
      requires Valid()
      modifies this
      ensures Valid() && Now().h == old(Now().h) + [Request(now)] && Now().ks == old(Now().ks) + [View()]
      ensures Now().channel == old(Now().channel)
      ensures decision.Allow? <==> state.Closed?
      ensures decision.Probe? <==> IsProbe(Now().h, Now().ks, |old(Now().h)|)
    {
      decision := AllowScript(now);
      Log(Request(now));
    }

    // The DEL of all three keys, for DLQ replay and the operator.
    method ForceClosed()
      requires Valid()
      modifies this
      ensures Valid() && Now().h == old(Now().h) + [Reset] && Now().ks == old(Now().ks) + [View()]
      ensures View() == Absent && Now().channel == old(Now().channel)
    {
      state, consecutive, openedAt, lastProbeAt := Closed, 0, None, None;
      attempts, failures := map[], map[];
      Log(Reset);
    }

    method ShouldDisable(now: real) returns (disable: bool)
      ensures disable <==> ShouldAutoDisable(View(), now)
      ensures disable <==> !state.Closed? && openedAt.Some? && now - openedAt.value >= 259200.0
    {
      if state.Closed? || openedAt.None? {
        return false;
      }
      return now - openedAt.value >= AUTO_DISABLE_AFTER;
    }
  }
}
