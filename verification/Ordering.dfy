/**
 The per-endpoint lock and FIFO list of relay/delivery/ordering.py, and what the lock guarantees to the handlers that
 take it: an expired holder can neither keep others out nor break in on them.
 */
module Ordering {
  import opened Wrappers

  type Token = nat
  type DeliveryId = nat

  const LOCK_TTL := 30.0

  /** The lock key's value and the time PX removes it. */
  datatype Lease = Lease(token: Token, expiresAt: real)

  // What Redis still has of the key.
  function Current(key: Option<Lease>, now: real): Option<Lease> {
    if key.Some? && key.value.expiresAt <= now then None else key
  }

  class LockKey {
    var key: Option<Lease>

    constructor ()
      ensures key == None
    {
      key := None;
    }

    // SET key token NX PX LOCK_TTL
    method AcquireLock(now: real, token: Token) returns (acquired: bool)
      modifies this
      ensures acquired <==> old(key).None? || old(key).value.expiresAt <= now
      ensures key == if acquired then Some(Lease(token, now + 30.0)) else old(key)
    {
      if Current(key, now).Some? {
        return false;
      }
      key := Some(Lease(token, now + LOCK_TTL));
      return true;
    }

    // RELEASE_LOCK_LUA: the key goes only if the caller's token is the current one.
    method ReleaseLock(now: real, token: Token) returns (deleted: bool)
      modifies this
      ensures deleted <==> old(key).Some? && old(key).value.expiresAt > now && old(key).value.token == token
      ensures key == if deleted then None else old(key)
    {
      if Current(key, now).Some? && key.value.token == token {
        key := None;
        return true;
      }
      return false;
    }
  }

  // ---- Fencing ----

  /** `inside` are the handlers between acquiring and releasing, with the time each acquired at; `drawn` are all tokens
      ever drawn. */
  datatype Room = Room(wall: real, key: Option<Lease>, inside: map<Token, real>, drawn: set<Token>)

  datatype Step =
    | Tick(to: real)
    | Acquire(token: Token)
    | Release(token: Token)
    | Crash(token: Token)

  // Any handler may linger past its lease, release late, or vanish; a token is drawn once.
  predicate Enabled(s: Room, step: Step) {
    match step
    case Tick(to) => s.wall <= to
    case Acquire(token) => token !in s.drawn
    case Release(token) => token in s.inside
    case Crash(token) => token in s.inside
  }

  function Next(s: Room, step: Step): Room {
    match step
    case Tick(to) => s.(wall := to)
    case Acquire(token) =>
      var drawn := s.(drawn := s.drawn + {token});
      if Current(s.key, s.wall).Some? then drawn
      else drawn.(key := Some(Lease(token, s.wall + LOCK_TTL)), inside := s.inside[token := s.wall])
    case Release(token) =>
      var left := s.(inside := s.inside - {token});
      var current := Current(s.key, s.wall);
      if current.Some? && current.value.token == token then left.(key := None) else left
    case Crash(token) => s.(inside := s.inside - {token})
  }

  ghost predicate IsRun(ss: seq<Room>, steps: seq<Step>) {
    && |ss| == |steps| + 1
    && ss[0].key.None? && ss[0].inside == map[] && ss[0].drawn == {}
    && forall i: nat | i < |steps| :: Leads(ss, steps, i)
  }

  ghost predicate Leads(ss: seq<Room>, steps: seq<Step>, i: nat) {
    i < |steps| && i + 1 < |ss| && Enabled(ss[i], steps[i]) && ss[i + 1] == Next(ss[i], steps[i])
  }

  predicate WithinLease(s: Room, token: Token) {
    token in s.inside && s.wall < s.inside[token] + 30.0
  }

  // Whoever is inside within its lease is the one whose token the key carries.
  ghost predicate Inv(s: Room) {
    && s.inside.Keys <= s.drawn
    && (s.key.Some? ==> s.key.value.token in s.drawn)
    && forall t | WithinLease(s, t) :: s.key == Some(Lease(t, s.inside[t] + LOCK_TTL))
  }

  lemma StepKeepsInv(s: Room, step: Step)
    requires Inv(s) && Enabled(s, step)
    ensures Inv(Next(s, step))
  {
    var after := Next(s, step);
    forall t | WithinLease(after, t) ensures after.key == Some(Lease(t, after.inside[t] + LOCK_TTL)) {
      if step != Acquire(t) { assert WithinLease(s, t); }
    }
  }

  lemma {:induction false} RunKeepsInv(ss: seq<Room>, steps: seq<Step>, n: nat)
    requires IsRun(ss, steps) && n <= |steps|
    ensures Inv(ss[n])
  {
    if n > 0 {
      RunKeepsInv(ss, steps, n - 1);
      assert Leads(ss, steps, n - 1);
      StepKeepsInv(ss[n - 1], steps[n - 1]);
    }
  }

  /** Mutual exclusion, whatever crashes, lingers or releases late: of all handlers in the critical section at most one
      is within its lease, and the lock is then that handler's. */
  lemma AtMostOneWithinLease(ss: seq<Room>, steps: seq<Step>, n: nat, t: Token, u: Token)
    requires IsRun(ss, steps) && n <= |steps| && WithinLease(ss[n], t)
    ensures Current(ss[n].key, ss[n].wall).Some? && ss[n].key.value.token == t
    ensures WithinLease(ss[n], u) ==> u == t
  {
    RunKeepsInv(ss, steps, n);
  }

  /** No one else's release, however late, takes the lock from a handler that is within its lease. */
  lemma LateReleaseIsHarmless(ss: seq<Room>, steps: seq<Step>, n: nat, holder: Token)
    requires IsRun(ss, steps) && n < |steps|
    requires WithinLease(ss[n], holder) && steps[n].Release? && steps[n].token != holder
    ensures WithinLease(ss[n + 1], holder) && ss[n + 1].key == ss[n].key
  {
    RunKeepsInv(ss, steps, n);
    assert Leads(ss, steps, n);
  }

  /** And a release within the lease frees the lock at once. */
  lemma ReleaseFrees(ss: seq<Room>, steps: seq<Step>, n: nat)
    requires IsRun(ss, steps) && n < |steps| && steps[n].Release? && WithinLease(ss[n], steps[n].token)
    ensures ss[n + 1].key.None? && steps[n].token !in ss[n + 1].inside
  {
    RunKeepsInv(ss, steps, n);
    assert Leads(ss, steps, n);
  }

  /** A lock always comes from an acquire that succeeded, and lapses 30 s after it. */
  lemma {:induction false} LockComesFromAcquire(ss: seq<Room>, steps: seq<Step>, n: nat) returns (i: nat)
    requires IsRun(ss, steps) && n <= |steps| && ss[n].key.Some?
    ensures i < n && Enters(ss, steps, i) && steps[i].token == ss[n].key.value.token
    ensures ss[n].key.value.expiresAt == ss[i].wall + 30.0
  {
    assert Leads(ss, steps, n - 1);
    if ss[n - 1].key == ss[n].key {
      i := LockComesFromAcquire(ss, steps, n - 1);
    } else {
      i := n - 1;
    }
  }

  // Step i is an acquire that succeeds.
  ghost predicate Enters(ss: seq<Room>, steps: seq<Step>, i: nat) {
    i < |steps| && i + 1 < |ss| && steps[i].Acquire? && steps[i].token in ss[i + 1].inside
  }

  /** So nobody is kept out for good, whoever died inside: an acquire succeeds exactly when there is no key or it has
      lapsed, and in particular when every acquire that succeeded before was at least 30 s ago. */
  lemma EntersExactlyWhenFree(ss: seq<Room>, steps: seq<Step>, n: nat)
    requires IsRun(ss, steps) && n < |steps| && steps[n].Acquire?
    ensures Enters(ss, steps, n) <==> ss[n].key.None? || ss[n].key.value.expiresAt <= ss[n].wall
    ensures (forall i: nat | i < n && Enters(ss, steps, i) :: ss[i].wall + 30.0 <= ss[n].wall) ==> Enters(ss, steps, n)
  {
    RunKeepsInv(ss, steps, n);
    assert Leads(ss, steps, n);
    if ss[n].key.Some? { var i := LockComesFromAcquire(ss, steps, n); }
  }

  // ---- The list ----

  function RemoveFirst(q: seq<DeliveryId>, d: DeliveryId): seq<DeliveryId> {
    if q == [] then []
    else if q[0] == d then q[1..]
    else [q[0]] + RemoveFirst(q[1..], d)
  }

  predicate IsFirst(q: seq<DeliveryId>, d: DeliveryId, k: int) {
    0 <= k < |q| && q[k] == d && d !in q[..k]
  }

  /** LREM 1 as a function takes the first occurrence, and only it. */
  lemma {:induction false} RemoveFirstAt(q: seq<DeliveryId>, d: DeliveryId, k: nat)
    requires IsFirst(q, d, k)
    ensures RemoveFirst(q, d) == q[..k] + q[k + 1..]
  {
    if k > 0 {
      assert q[..k] == [q[0]] + q[1..][..k - 1] && q[0] in q[..k];
      RemoveFirstAt(q[1..], d, k - 1);
    }
  }

  lemma {:induction false} RemoveFirstAbsent(q: seq<DeliveryId>, d: DeliveryId)
    requires d !in q
    ensures RemoveFirst(q, d) == q
  {
    if q != [] { RemoveFirstAbsent(q[1..], d); }
  }

  class OrderedQueue {
    var items: seq<DeliveryId>

    constructor ()
      ensures items == []
    {
      items := [];
    }

    // RPUSH
    method EnqueueOrdered(d: DeliveryId)
      modifies this
      ensures items == old(items) + [d]
    {
      items := items + [d];
    }

    // LINDEX 0
    method PeekHead() returns (head: Option<DeliveryId>)
      ensures head == if items == [] then None else Some(items[0])
    {
      if items == [] { return None; }
      return Some(items[0]);
    }

    // LREM 1: the first occurrence goes, and only it.
    method PopHead(d: DeliveryId) returns (removed: bool)
      modifies this
      ensures removed <==> d in old(items)
      ensures !removed ==> items == old(items)
      ensures removed ==> exists k :: IsFirst(old(items), d, k) && items == old(items)[..k] + old(items)[k + 1..]
    {
      var k := 0;
      while k < |items| && items[k] != d
        invariant 0 <= k <= |items| && d !in items[..k]
      {
        k := k + 1;
      }
      if k == |items| {
        return false;
      }
      assert IsFirst(items, d, k);
      items := items[..k] + items[k + 1..];
      return true;
    }
  }
}
