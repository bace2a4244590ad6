/**
 The per-tenant in-flight slots of relay/delivery/rate_limit.py (ACQUIRE_SLOT_LUA, acquire_slot, release_slot,
 inflight_count), and what they promise about concurrent attempts.

 A slot is a sorted-set member scored with the time it expires. Tokens are fresh identifiers.
 */
module Slots {

  type Token = nat
  type Zset = map<Token, real>

  const SLOT_TTL := 60.0

  // The members whose time is not up.
  function Live(slots: Zset, now: real): set<Token> {
    set t | t in slots && slots[t] > now
  }

  // ZREMRANGEBYSCORE key -inf now
  function Sweep(slots: Zset, now: real): (r: Zset)
    ensures r.Keys <= slots.Keys && |r| <= |slots|
  {
    var r := map t | t in slots && slots[t] > now :: slots[t];
    assert r.Keys <= slots.Keys;
    NoMoreKeys(r.Keys, slots.Keys);
    r
  }

  lemma NoMoreKeys(a: set<Token>, b: set<Token>)
    requires a <= b
    ensures |a| <= |b|
  {
    if a != {} {
      var t :| t in a;
      NoMoreKeys(a - {t}, b - {t});
    }
  }

  function Acquire(slots: Zset, cap: nat, now: real, token: Token): (bool, Zset) {
    var live := Sweep(slots, now);
    if |live| >= cap then (false, live) else (true, live[token := now + SLOT_TTL])
  }

  function Release(slots: Zset, token: Token): Zset {
    slots - {token}
  }

  // ---- Sequences of commands ----

  datatype Op =
    | AcquireAt(at: real, token: Token)
    | ReleaseAt(at: real, token: Token)
    | SweepAt(at: real)
    | CardAt(at: real)

  // What each command leaves and answers.
  function Apply(slots: Zset, cap: nat, op: Op): (Zset, nat) {
    match op
    case AcquireAt(at, token) =>
      var (granted, after) := Acquire(slots, cap, at, token);
      (after, if granted then 1 else 0)
    case ReleaseAt(at, token) => (Release(slots, token), 0)
    case SweepAt(at) => (Sweep(slots, at), 0)
    case CardAt(at) => (slots, |slots|)
  }

  function Kept(slots: Zset, cap: nat, ops: seq<Op>): Zset {
    if ops == [] then slots else Apply(Kept(slots, cap, ops[..|ops| - 1]), cap, ops[|ops| - 1]).0
  }

  lemma KeptOnAppend(slots: Zset, cap: nat, ops: seq<Op>, i: nat)
    requires i < |ops|
    ensures Kept(slots, cap, ops[..i + 1]) == Apply(Kept(slots, cap, ops[..i]), cap, ops[i]).0
  {
    assert ops[..i + 1][..i] == ops[..i];
  }

  lemma ApplyKeepsCap(slots: Zset, cap: nat, op: Op)
    requires |slots| <= cap
    ensures |Apply(slots, cap, op).0| <= cap
  {
    if op.ReleaseAt? { NoMoreKeys((slots - {op.token}).Keys, slots.Keys); }
  }

  predicate Acquires(ops: seq<Op>, t: Token) {
    exists i :: 0 <= i < |ops| && ops[i].AcquireAt? && ops[i].token == t
  }

  // A member was there before or was acquired since.
  lemma {:induction false} KeptComesFrom(slots: Zset, cap: nat, ops: seq<Op>)
    ensures forall t | t in Kept(slots, cap, ops) :: t in slots || Acquires(ops, t)
  {
    if ops != [] {
      var rest := ops[..|ops| - 1];
      KeptComesFrom(slots, cap, rest);
      forall t | t in Kept(slots, cap, ops) ensures t in slots || Acquires(ops, t) {
        if t in Kept(slots, cap, rest) {
          if Acquires(rest, t) {
            var i :| 0 <= i < |rest| && rest[i].AcquireAt? && rest[i].token == t;
            assert ops[i] == rest[i];
          }
        } else {
          assert ops[|ops| - 1].AcquireAt? && ops[|ops| - 1].token == t;
        }
      }
    }
  }

  /** The sorted set as an object; each method is one script or command. */
  class SlotKey {
    const cap: nat
    var slots: Zset

    ghost predicate Valid()
      reads this
    {
      |slots| <= cap
    }

    constructor (cap: nat)
      ensures Valid() && slots == map[] && this.cap == cap
    {
      this.cap := cap;
      slots := map[];
    }

    // Grants a slot exactly when fewer than `cap` unexpired ones are held, and drops every expired one.
    method AcquireSlot(now: real, token: Token) returns (granted: bool)
      requires Valid() && token !in slots
      modifies this
      ensures Valid()
      ensures granted <==> |Live(old(slots), now)| < cap
      ensures forall t :: t in slots <==> (granted && t == token) || (t in old(slots) && old(slots)[t] > now)
      ensures forall t | t in slots :: slots[t] == if t == token then now + 60.0 else old(slots)[t]
    {
      var expired := set t | t in slots && slots[t] <= now;
      ghost var before := slots;
      slots := slots - expired;
      assert slots.Keys == Live(before, now);
      NoMoreKeys(slots.Keys, before.Keys);
      if |slots| >= cap {
        return false;
      }
      slots := slots[token := now + SLOT_TTL];
      return true;
    }

    // ZREM: frees the caller's own slot and nobody else's, whether or not it had expired meanwhile.
    method ReleaseSlot(token: Token)
      requires Valid()
      modifies this
      ensures Valid()
      ensures token !in slots
      ensures forall t | t != token :: t in slots <==> t in old(slots)
      ensures forall t | t in slots :: slots[t] == old(slots)[t]
    {
      NoMoreKeys((slots - {token}).Keys, slots.Keys);
      slots := slots - {token};
    }

    // ZREMRANGEBYSCORE key -inf now
    method SweepExpired(now: real)
      requires Valid()
      modifies this
      ensures Valid() && slots == Sweep(old(slots), now)
    {
      slots := Sweep(slots, now);
    }

    // The commands of other clients, in order.
    method Others(ops: seq<Op>)
      requires Valid()
      modifies this
      ensures Valid() && slots == Kept(old(slots), cap, ops)
    {
      ghost var before := slots;
      assert ops[..|ops|] == ops;
      for i := 0 to |ops|
        invariant Valid() && slots == Kept(before, cap, ops[..i])
      {
        ApplyKeepsCap(slots, cap, ops[i]);
        KeptOnAppend(before, cap, ops, i);
        var (after, _) := Apply(slots, cap, ops[i]);
        slots := after;
      }
    }

    // The sweep, then ZCARD; `meanwhile` is what other clients do between the two. The count is what is left of the
    // slots unexpired at `now` and what has come since, never more than the cap; with nothing between, it is exact.
    method InflightCount(now: real, meanwhile: seq<Op>) returns (count: nat)
      requires Valid()
      modifies this
      ensures Valid() && slots == Kept(Sweep(old(slots), now), cap, meanwhile)
      ensures count == |slots| <= cap
      ensures forall t | t in slots :: (t in old(slots) && old(slots)[t] > now) || Acquires(meanwhile, t)
      ensures meanwhile == [] ==> count == |Live(old(slots), now)|
    {
      ghost var before := slots;
      SweepExpired(now);
      assert slots.Keys == Live(before, now);
      KeptComesFrom(slots, cap, meanwhile);
      Others(meanwhile);
      count := |slots|;
    }
  }

  // ---- Handlers holding slots, against a wall clock ----

  /** `holders` maps the token of each handler between its acquire_slot and its release to the `now` that
      handler sampled when it started; a crashed handler leaves `holders` but not `slots`. */
  datatype Tenant = Tenant(cap: nat, wall: real, slots: Zset, holders: map<Token, real>)

  datatype Step =
    | Tick(to: real)
    | Acquiring(token: Token, now: real)
    | Releasing(token: Token)
    | Crashing(token: Token)
    | Sweeping(now: real)  // inflight_count; its ZCARD changes nothing

  // Steps as they may interleave: `now` may be stale, but was read from the wall clock; a handler that is granted a
  // slot releases it, or is dead, before the wall clock has passed its own `now` by SLOT_TTL.
  ghost predicate Enabled(s: Tenant, step: Step) {
    match step
    case Tick(to) => s.wall <= to && forall t | t in s.holders :: to < s.holders[t] + 60.0
    case Acquiring(token, now) =>
      && now <= s.wall && token !in s.slots && token !in s.holders
      && (Acquire(s.slots, s.cap, now, token).0 ==> s.wall < now + 60.0)
    case Releasing(token) => token in s.holders
    case Crashing(token) => token in s.holders
    case Sweeping(now) => now <= s.wall
  }

  function Next(s: Tenant, step: Step): Tenant {
    match step
    case Tick(to) => s.(wall := to)
    case Acquiring(token, now) =>
      var (granted, slots) := Acquire(s.slots, s.cap, now, token);
      s.(slots := slots, holders := if granted then s.holders[token := now] else s.holders)
    case Releasing(token) => s.(slots := Release(s.slots, token), holders := s.holders - {token})
    case Crashing(token) => s.(holders := s.holders - {token})
    case Sweeping(now) => s.(slots := Sweep(s.slots, now))
  }

  ghost predicate IsRun(s: Tenant, steps: seq<Step>)
    decreases |steps|
  {
    steps == [] || (Enabled(s, steps[0]) && IsRun(Next(s, steps[0]), steps[1..]))
  }

  function After(s: Tenant, steps: seq<Step>): Tenant
    decreases |steps|
  {
    if steps == [] then s else After(Next(s, steps[0]), steps[1..])
  }

  // Every live holder's slot is still in the set: its score is ahead of every clock any caller can have read.
  ghost predicate Inv(s: Tenant) {
    && |s.slots| <= s.cap
    && forall t | t in s.holders ::
         s.wall < s.holders[t] + SLOT_TTL && t in s.slots && s.slots[t] == s.holders[t] + SLOT_TTL
  }

  lemma StepKeepsInv(s: Tenant, step: Step)
    requires Inv(s) && Enabled(s, step)
    ensures Inv(Next(s, step))
  {
    if step.Releasing? {
      NoMoreKeys((s.slots - {step.token}).Keys, s.slots.Keys);
    }
  }

  /** The concurrency cap, over every interleaving: the set never outgrows the cap, and neither do the attempts
      in flight, even though handlers sweep with stale clocks and crash. */
  lemma {:induction false} AtMostCapInFlight(cap: nat, wall: real, steps: seq<Step>)
    requires IsRun(Tenant(cap, wall, map[], map[]), steps)
    ensures var end := After(Tenant(cap, wall, map[], map[]), steps);
            |end.slots| <= cap && |end.holders| <= cap && end.holders.Keys <= end.slots.Keys
  {
    RunKeepsInv(Tenant(cap, wall, map[], map[]), steps);
    var end := After(Tenant(cap, wall, map[], map[]), steps);
    CapIsConstant(Tenant(cap, wall, map[], map[]), steps);
    NoMoreKeys(end.holders.Keys, end.slots.Keys);
  }

  lemma {:induction false} RunKeepsInv(s: Tenant, steps: seq<Step>)
    requires Inv(s) && IsRun(s, steps)
    ensures Inv(After(s, steps))
    decreases |steps|
  {
    if steps != [] {
      StepKeepsInv(s, steps[0]);
      RunKeepsInv(Next(s, steps[0]), steps[1..]);
    }
  }

  lemma {:induction false} CapIsConstant(s: Tenant, steps: seq<Step>)
    ensures After(s, steps).cap == s.cap
    decreases |steps|
  {
    if steps != [] { CapIsConstant(Next(s, steps[0]), steps[1..]); }
  }

  // Slots that no live handler holds and that have not reached their score.
  function Leaked(s: Tenant, now: real): set<Token> {
    set t | t in s.slots && t !in s.holders && s.slots[t] > now
  }

  /** Only a crash leaks a slot: one that is taken and has no live holder was held by a handler that crashed. */
  lemma LeakedAreCrashed(cap: nat, wall: real, steps: seq<Step>, now: real, t: Token)
    requires IsRun(Tenant(cap, wall, map[], map[]), steps)
    requires t in Leaked(After(Tenant(cap, wall, map[], map[]), steps), now)
    ensures Crashing(t) in steps
  {
    OrphansAreCrashed(Tenant(cap, wall, map[], map[]), steps, t);
  }

  lemma {:induction false} OrphansAreCrashed(s: Tenant, steps: seq<Step>, t: Token)
    requires t in After(s, steps).slots && t !in After(s, steps).holders
    ensures Crashing(t) in steps || (t in s.slots && t !in s.holders)
    decreases |steps|
  {
    if steps != [] {
      OrphansAreCrashed(Next(s, steps[0]), steps[1..], t);
      if Crashing(t) in steps[1..] { assert Crashing(t) in steps; }
    }
  }

  lemma ExpiredIsSwept(slots: Zset, cap: nat, now: real, token: Token, t: Token)
    requires t in slots && slots[t] <= now
    ensures Acquire(slots - {t}, cap, now, token) == Acquire(slots, cap, now, token)
  {
    assert Sweep(slots - {t}, now) == Sweep(slots, now);
  }

  // A sweep by any live clock leaves the holders' slots and the leaked ones.
  lemma SweptIsHeldOrLeaked(s: Tenant, now: real)
    requires Inv(s) && now <= s.wall
    ensures |Sweep(s.slots, now)| == |s.holders| + |Leaked(s, now)|
  {
    var held := s.holders.Keys;
    var swept := Sweep(s.slots, now).Keys;
    assert swept == held + Leaked(s, now);
    assert held !! Leaked(s, now);
  }

  /** A crashed handler cannot leak capacity: a slot that has reached its score makes no difference to any acquire, so
      what an acquire finds taken is exactly the live handlers and the crashed ones whose time is not up. */
  lemma CrashedSlotsAreReusable(s: Tenant, token: Token, now: real)
    requires Inv(s) && now <= s.wall
    ensures forall t | t in s.slots && s.slots[t] <= now ::
              Acquire(s.slots - {t}, s.cap, now, token) == Acquire(s.slots, s.cap, now, token)
    ensures Acquire(s.slots, s.cap, now, token).0 <==> |s.holders| + |Leaked(s, now)| < s.cap
  {
    forall t | t in s.slots && s.slots[t] <= now
      ensures Acquire(s.slots - {t}, s.cap, now, token) == Acquire(s.slots, s.cap, now, token)
    {
      ExpiredIsSwept(s.slots, s.cap, now, token, t);
    }
    SweptIsHeldOrLeaked(s, now);
  }

  // ---- The key's expiry ----

  /** The key as Redis keeps it: a granted acquire re-arms EXPIRE for 2 * SLOT_TTL. */
  datatype Expiring = Expiring(slots: Zset, expiresAt: real)

  function ApplyWithTtl(e: Expiring, cap: nat, op: Op): (Expiring, nat) {
    var kept := if op.at >= e.expiresAt then map[] else e.slots;
    var (slots, answer) := Apply(kept, cap, op);
    (Expiring(slots, if op.AcquireAt? && answer == 1 then op.at + 2.0 * SLOT_TTL else e.expiresAt), answer)
  }

  function Answers(slots: Zset, cap: nat, ops: seq<Op>): seq<nat>
    decreases |ops|
  {
    if ops == [] then []
    else var (after, answer) := Apply(slots, cap, ops[0]); [answer] + Answers(after, cap, ops[1..])
  }

  function AnswersWithTtl(e: Expiring, cap: nat, ops: seq<Op>): seq<nat>
    decreases |ops|
  {
    if ops == [] then []
    else var (after, answer) := ApplyWithTtl(e, cap, ops[0]); [answer] + AnswersWithTtl(after, cap, ops[1..])
  }

  // The expiring set lacks only members that are past their score by SLOT_TTL, all members are newer than the last
  // sweep, and none outlives the key.
  ghost predicate Agree(e: Expiring, slots: Zset, at: real, swept: real) {
    && (forall t | t in e.slots :: t in slots && slots[t] == e.slots[t])
    && (forall t | t in slots && t !in e.slots :: slots[t] + SLOT_TTL <= at)
    && (forall t | t in slots :: swept < slots[t] <= e.expiresAt - SLOT_TTL)
    && e.expiresAt <= at + 2.0 * SLOT_TTL && swept <= at
  }

  function LastSweep(swept: real, op: Op): real {
    if op.AcquireAt? || op.SweepAt? then op.at else swept
  }

  // One nondecreasing clock, and no ZCARD as late as SLOT_TTL after the last sweep.
  ghost predicate Ordered(at: real, swept: real, ops: seq<Op>)
    decreases |ops|
  {
    ops == [] || (&& at <= ops[0].at && (ops[0].CardAt? ==> ops[0].at < swept + 60.0)
                  && Ordered(ops[0].at, LastSweep(swept, ops[0]), ops[1..]))
  }

  lemma StepAgrees(e: Expiring, slots: Zset, cap: nat, op: Op, at: real, swept: real)
    requires Agree(e, slots, at, swept) && at <= op.at && (op.CardAt? ==> op.at < swept + SLOT_TTL)
    ensures ApplyWithTtl(e, cap, op).1 == Apply(slots, cap, op).1
    ensures Agree(ApplyWithTtl(e, cap, op).0, Apply(slots, cap, op).0, op.at, LastSweep(swept, op))
  {
    var kept := if op.at >= e.expiresAt then map[] else e.slots;
    assert Sweep(kept, op.at) == Sweep(slots, op.at);
    if op.CardAt? { assert kept == slots; }
  }

  /** Expiry is unobservable: with one nondecreasing clock, every acquire, release, sweep and count gives the answer it
      would give on a set that is never dropped, if each count comes less than SLOT_TTL after a sweep. */
  lemma {:induction false} ExpiryIsUnobservable(
    e: Expiring, slots: Zset, cap: nat, ops: seq<Op>, at: real, swept: real)
    requires Agree(e, slots, at, swept) && Ordered(at, swept, ops)
    ensures AnswersWithTtl(e, cap, ops) == Answers(slots, cap, ops)
    decreases |ops|
  {
    if ops != [] {
      StepAgrees(e, slots, cap, ops[0], at, swept);
      ExpiryIsUnobservable(ApplyWithTtl(e, cap, ops[0]).0, Apply(slots, cap, ops[0]).0, cap, ops[1..], ops[0].at,
                           LastSweep(swept, ops[0]));
    }
  }

  /** A count that stalls longer than that between its two commands can see it. */
  lemma StalledCountSeesExpiry()
    ensures var ops := [AcquireAt(0.0, 0), SweepAt(0.0), CardAt(120.0)];
            Answers(map[], 1, ops) == [1, 0, 1] && AnswersWithTtl(Expiring(map[], 0.0), 1, ops) == [1, 0, 0]
  {
    var ops := [AcquireAt(0.0, 0), SweepAt(0.0), CardAt(120.0)];
    var one := map[0 := 60.0];
    assert Acquire(map[], 1, 0.0, 0) == (true, one) && Sweep(one, 0.0) == one && |one| == 1;
    assert ops[1..] == [SweepAt(0.0), CardAt(120.0)] && ops[1..][1..] == [CardAt(120.0)] && ops[1..][1..][1..] == [];
    assert Answers(one, 1, [CardAt(120.0)]) == [1];
    assert AnswersWithTtl(Expiring(one, 120.0), 1, [CardAt(120.0)]) == [0];
    assert Answers(one, 1, ops[1..]) == [0, 1];
    assert AnswersWithTtl(Expiring(one, 120.0), 1, ops[1..]) == [0, 0];
  }
}
