/**
 The bodies of relay/delivery/worker.py, statement by statement, over the shared state of the protocol.

 Before each awaited operation anything else in the system may happen: other handlers' steps, schedulers, ingesting
 requests, replays, expiring locks, even other handlers of the same message; and the operation itself may raise. Every
 method keeps the whole history a run of the protocol, so every theorem about runs is about these bodies.
 */
module Worker {
  import opened Wrappers
  import opened Protocol
  import opened AtLeastOnce
  import opened Environment
  import opened Provenance
  import Ordering
  import Retry

  /** One handler of this process: its name, and the message and delivery it was given. */
  datatype Ticket = Ticket(handler: Id, msg: Id, delivery: Id)

  function Messages(tickets: seq<Ticket>): seq<Id> {
    seq(|tickets|, i requires 0 <= i < |tickets| => tickets[i].msg)
  }

  function StillPending(candidates: seq<Id>, pel: map<Id, Id>): seq<Id> {
    if candidates == [] then [] else
      var m := candidates[|candidates| - 1];
      StillPending(candidates[..|candidates| - 1], pel) + (if m in pel then [m] else [])
  }

  function Total(counts: seq<nat>): nat {
    if counts == [] then 0 else Total(counts[..|counts| - 1]) + counts[|counts| - 1]
  }

  function Reclaims(messages: seq<Id>): seq<Step> {
    seq(|messages|, i requires 0 <= i < |messages| => Reclaim(messages[i]))
  }

  lemma ReclaimsOneMore(messages: seq<Id>, m: Id)
    ensures Reclaims(messages + [m]) == Reclaims(messages) + [Reclaim(m)]
  {}

  // At step `start` of the run exactly those of the batch that were pending are taken over, n of them.
  ghost predicate IsClaimed(ss: seq<Sys>, steps: seq<Step>, batch: seq<Id>, n: nat, start: nat) {
    && start < |ss| && start + n <= |steps| && n == |StillPending(batch, ss[start].pel)|
    && steps[start..start + n] == Reclaims(StillPending(batch, ss[start].pel))
  }

  // The first batches were claimed so, all of them from step `from` on.
  ghost predicate AreClaimed(ss: seq<Sys>, steps: seq<Step>, batches: seq<seq<Id>>, counts: seq<nat>,
                             starts: seq<nat>, from: nat)
  {
    && |counts| == |starts| <= |batches|
    && forall j | 0 <= j < |counts| :: from <= starts[j] && IsClaimed(ss, steps, batches[j], counts[j], starts[j])
  }

  lemma ClaimedEarlier(ss: seq<Sys>, steps: seq<Step>, more: seq<Sys>, moreSteps: seq<Step>, batch: seq<Id>, n: nat,
                       start: nat)
    requires IsClaimed(ss, steps, batch, n, start) && ss <= more && steps <= moreSteps
    ensures IsClaimed(more, moreSteps, batch, n, start)
  {
    assert moreSteps[start..start + n] == steps[start..start + n];
  }

  lemma OneMoreClaimed(ss: seq<Sys>, steps: seq<Step>, more: seq<Sys>, moreSteps: seq<Step>, batches: seq<seq<Id>>,
                       counts: seq<nat>, starts: seq<nat>, from: nat, n: nat, start: nat)
    requires AreClaimed(ss, steps, batches, counts, starts, from) && ss <= more && steps <= moreSteps
    requires |counts| < |batches| && from <= start && IsClaimed(more, moreSteps, batches[|counts|], n, start)
    ensures AreClaimed(more, moreSteps, batches, counts + [n], starts + [start], from)
  {
    forall j | 0 <= j < |counts| ensures IsClaimed(more, moreSteps, batches[j], counts[j], starts[j]) {
      ClaimedEarlier(ss, steps, more, moreSteps, batches[j], counts[j], starts[j]);
    }
  }

  function Handlers(tickets: seq<Ticket>): set<Id> {
    set k | k in tickets :: k.handler
  }

  // What the 'delivering' commit of handler h leads to.
  function Numbering(s: Sys, h: Id): Sys
    requires h in s.handlers && s.handlers[h].delivery in s.rows
  {
    var x := s.handlers[h];
    var row := s.rows[x.delivery];
    var number := x.snap.attempts + 1;
    var status := if x.snap.status.Delivering? then row.status else Delivering;
    s.(handlers := s.handlers[h := x.(pc := Post, snap := x.snap.(status := Delivering, attempts := number))],
       rows := s.rows[x.delivery := row.(status := status, attempts := number)],
       hist := Overwriting(s.hist, x.delivery, row, status))
  }

  lemma NumberingBegins(s: Sys, h: Id, c: Choice)
    requires h in s.handlers && s.handlers[h].pc.Begin? && s.handlers[h].delivery in s.rows
    requires !s.handlers[h].snap.status.Delivered?
    ensures Next(s, Advance(h, c), Numbering(s, h))
  {
    assert NextBegin(s, h, Numbering(s, h));
  }

  // What the LREM of handler h leads to.
  function Popping(s: Sys, h: Id): Sys
    requires h in s.handlers
  {
    var x := s.handlers[h];
    var ep := x.snap.endpoint;
    s.(handlers := s.handlers[h := x.(pc := Unlock)],
       queues := s.queues[ep := Ordering.RemoveFirst(List(s.queues, ep), x.delivery)],
       hist := s.hist.(popped := s.hist.popped[ep := Count(s.hist.popped, ep) + 1]))
  }

  lemma PoppingIsNext(s: Sys, h: Id, c: Choice)
    requires h in s.handlers && s.handlers[h].pc.Pop? && s.handlers[h].ordered && Settled(s.handlers[h].snap.status)
    requires s.handlers[h].delivery in List(s.queues, s.handlers[h].snap.endpoint)
    ensures Next(s, Advance(h, c), Popping(s, h))
  {
    assert NextPop(s, h, Popping(s, h));
  }

  // And what the pop of a handler that has nothing to pop leads to.
  function Passing(s: Sys, h: Id): Sys
    requires h in s.handlers
  {
    s.(handlers := s.handlers[h := s.handlers[h].(pc := Unlock)])
  }

  lemma PassingIsNext(s: Sys, h: Id, c: Choice)
    requires h in s.handlers && s.handlers[h].pc.Pop? && !Pops(s, s.handlers[h])
    ensures Next(s, Advance(h, c), Passing(s, h))
  {
    assert NextPop(s, h, Passing(s, h));
  }

  // The last attempt recorded for d has this number.
  predicate Recorded(s: Sys, d: Id, number: nat) {
    var ns := Numbers(s.hist.numbers, d);
    ns != [] && ns[|ns| - 1] == number
  }

  lemma HandlersOfMore(tickets: seq<Ticket>, k: Ticket)
    ensures Handlers((tickets + [k])[0..]) == Handlers(tickets[0..]) + {k.handler}
  {
    assert (tickets + [k])[0..] == tickets + [k] && tickets[0..] == tickets;
    assert k in tickets + [k];
  }

  lemma HandlersOfRest(tickets: seq<Ticket>, i: nat)
    requires i < |tickets|
    requires forall a, b | 0 <= a < b < |tickets| :: tickets[a].handler != tickets[b].handler
    ensures Handlers(tickets[i + 1..]) == Handlers(tickets[i..]) - {tickets[i].handler}
  {
    assert tickets[i..] == [tickets[i]] + tickets[i + 1..];
    assert tickets[i] in tickets[i..];
  }

  lemma NextIsFree(ss: seq<Sys>, steps: seq<Step>)
    requires IsRun(ss, steps)
    ensures ss[|steps|].next !in ss[|steps|].handlers
  {
    RunKeepsInv(ss, steps, |steps|);
  }

  lemma OneLess(was: set<Id>, mine: set<Id>, before: set<Id>, rest: set<Id>, h: Id)
    requires was == before + rest && h !in before && h !in mine && mine - {h} == was - {h}
    ensures mine == before + (rest - {h})
  {
    assert mine == mine - {h};
  }

  // ---- What a handler may have executed between two points ----

  predicate Concluded(before: seq<Pc>, after: seq<Pc>) {
    after == before + [Conclude] || after == before + [Conclude] + [Schedule]
  }

  predicate Attempted(before: seq<Pc>, after: seq<Pc>) {
    Concluded(before + [Begin] + [Post] + [Wait], after)
  }

  ghost predicate AttemptedAndPopped(before: seq<Pc>, after: seq<Pc>) {
    exists attempted :: Attempted(before, attempted) && after == attempted + [Refresh] + [Pop]
  }

  // The try block: deferred by a gate, or an attempt, the refresh and the pop.
  ghost predicate Tried(before: seq<Pc>, after: seq<Pc>) {
    || after == before + [Gates] + [Protocol.Defer]
    || AttemptedAndPopped(before + [Gates], after)
  }

  predicate Deferred(before: seq<Pc>, after: seq<Pc>) {
    after == before + [Lock] + [Protocol.Defer] || after == before + [Lock] + [Peek] + [NotHead] + [Protocol.Defer]
  }

  ghost predicate Through(before: seq<Pc>, after: seq<Pc>, ordered: bool) {
    if ordered then Deferred(before, after) || Tried(before + [Lock] + [Peek], after) else Tried(before, after)
  }

  ghost predicate WentThrough(before: seq<Pc>, after: seq<Pc>, ordered: bool) {
    exists during :: Through(before, during, ordered) && after == during + [Unlock]
  }

  // It stops at an endpoint that is missing or inactive, or goes through.
  ghost predicate EndpointHandled(before: seq<Pc>, after: seq<Pc>) {
    after == before + [LoadEndpoint] || exists ordered :: WentThrough(before + [LoadEndpoint], after, ordered)
  }

  /** deliver_with_gates: it stops at a row that is missing or settled, or at an endpoint that is missing or inactive,
      or goes through the ordering checks and the try block and releases its lock. */
  ghost predicate Handled(before: seq<Pc>, after: seq<Pc>) {
    after == before + [Load] || EndpointHandled(before + [Load], after)
  }

  ghost predicate Acknowledged(before: seq<Pc>, after: seq<Pc>) {
    exists handled :: Handled(before, handled) && after == handled + [Ack]
  }

  predicate LeftByException(done: seq<Pc>) {
    done != [] && done[|done| - 1] == Unwind
  }

  lemma SnapshotIsUnsettled(ss: seq<Sys>, steps: seq<Step>, h: Id)
    requires IsRun(ss, steps) && h in ss[|steps|].handlers && ss[|steps|].handlers[h].pc.Begin?
    ensures !Settled(ss[|steps|].handlers[h].snap.status)
  {
    RunKeepsInv(ss, steps, |steps|);
    assert Working(ss[|steps|].handlers[h]);
  }

  class Relay {
    // What everybody else does in the n-th pause, whether the n-th operation raises, and what it comes to.
    const others: (nat, set<Id>, Sys) -> seq<Foreign>
    const raises: nat -> bool
    const choices: nat -> Choice

    var s: Sys
    var pauses: nat
    var mine: set<Id>
    ghost var ss: seq<Sys>
    ghost var steps: seq<Step>

    /** The state is where a run of the protocol has led. */
    ghost predicate Valid()
      reads this
    {
      && IsRun(ss, steps) && ss[|steps|] == s && mine <= s.handlers.Keys
      && (forall n, own, t :: OthersRun(t, own, others(n, own, t)))
      && (forall n :: Retry.IsJitter(choices(n).jitter))
    }

    ghost predicate At(k: Ticket, pc: Pc)
      reads this
    {
      && Valid() && k.handler in mine
      && s.handlers[k.handler].msg == k.msg && s.handlers[k.handler].delivery == k.delivery
      && s.handlers[k.handler].pc == pc
    }

    /** What k's handler has executed so far. */
    ghost function Done(k: Ticket): seq<Pc>
      reads this
    {
      if |steps| <= |ss| then Trail(ss, steps, k.handler, |steps|) else []
    }

    // k's handler took the last step of the run, and this is what it chose and where from.
    ghost predicate JustMoved(k: Ticket)
      reads this
    {
      && |ss| == |steps| + 1 && steps != []
      && steps[|steps| - 1].Advance? && steps[|steps| - 1].handler == k.handler && k.handler in ss[|ss| - 2].handlers
    }

    ghost function LastChoice(): Choice
      reads this
      requires steps != [] && steps[|steps| - 1].Advance?
    {
      steps[|steps| - 1].choice
    }

    ghost function Before(): Sys
      reads this
      requires |ss| >= 2
    {
      ss[|ss| - 2]
    }

    /** The run goes on, and this process's other handlers wait. */
    twostate predicate Follows(k: Ticket)
      reads this
    {
      && old(ss) <= ss && old(steps) <= steps
      && mine - {k.handler} == old(mine) - {k.handler} && Stay(old(s), mine - {k.handler}, s)
    }

    constructor (configuredMax: int, others: (nat, set<Id>, Sys) -> seq<Foreign>, raises: nat -> bool,
                 choices: nat -> Choice)
      requires forall n, own, t :: OthersRun(t, own, others(n, own, t))
      requires forall n :: Retry.IsJitter(choices(n).jitter)
      ensures Valid() && s == Initial(configuredMax) && mine == {}
    {
      this.others, this.raises, this.choices := others, raises, choices;
      s, pauses, mine := Initial(configuredMax), 0, {};
      ss, steps := [Initial(configuredMax)], [];
    }

    // ---- Pausing, and taking a step ----

    ghost method Record(step: Step)
      requires IsRun(ss, steps) && Next(ss[|steps|], step, s)
      modifies this`ss, this`steps
      ensures ss == old(ss) + [s] && steps == old(steps) + [step]
      ensures IsRun(ss, steps) && ss[|steps|] == s
    {
      RunExtends(ss, steps, step, s);
      ss, steps := ss + [s], steps + [step];
    }

    method Pause()
      requires Valid()
      modifies this
      ensures Valid() && old(ss) <= ss && old(steps) <= steps && mine == old(mine) && Stay(old(s), mine, s)
      ensures forall k: Ticket | k.handler in mine :: Done(k) == old(Done(k))
    {
      var path := others(pauses, mine, s);
      PathExtends(ss, steps, mine, path);
      PathKeepsTrails(ss, steps, mine, path);
      s, pauses := Last(s, path), pauses + 1;
      ss, steps := ss + States(path), steps + Steps(path);
    }

    // Awaiting an operation of k's handler: others run, and then it may raise.
    method Await(k: Ticket, ghost pc: Pc) returns (ok: bool)
      requires At(k, pc) && !pc.Unwind?
      modifies this
      ensures Follows(k)
      ensures ok ==> At(k, pc) && s.handlers[k.handler] == old(s.handlers[k.handler])
      ensures !ok ==> At(k, Unwind)
      ensures Done(k) == old(Done(k))
      ensures ok <==> !raises(pauses)
    {
      Pause();
      ok := !raises(pauses);
      if !ok {
        TrailOfOthers(ss, steps, Fail(s, k.handler), Raise(k.handler), k.handler);
        s := Fail(s, k.handler);
        Record(Raise(k.handler));
      }
    }

    // The step itself. A handler that is done is no longer mine.
    method Take(k: Ticket, choice: Choice, t: Sys)
      requires Valid() && k.handler in mine && Next(s, Advance(k.handler, choice), t)
      modifies this
      ensures Valid() && s == t && Follows(k)
      ensures JustMoved(k) && LastChoice() == choice && Before() == old(s)
      ensures k.handler in mine <==> k.handler in s.handlers
      ensures Done(k) == old(Done(k)) + [old(s.handlers[k.handler].pc)]
    {
      AdvanceFrame(s, k.handler, choice, t);
      TrailOfOwn(ss, steps, t, k.handler, choice);
      s := t;
      if k.handler !in s.handlers { mine := mine - {k.handler}; }
      Record(Advance(k.handler, choice));
    }

    /** k's handler has taken the lock, and nothing is queued before its delivery. */
    ghost predicate HasHead(k: Ticket, ep: Id)
      reads this
    {
      && k.handler in s.handlers && s.handlers[k.handler].locked
      && var q := List(s.queues, ep); q == [] || q[0] == k.delivery
    }

    // ---- Awaited operations of deliver_with_gates ----

    method SelectDelivery(k: Ticket) returns (row: Outcome<Option<Row>>)
      requires At(k, Load)
      modifies this
      ensures Follows(k)
      ensures row.Raised? ==> At(k, Unwind)
      ensures row.Value? ==> Done(k) == old(Done(k)) + [Load]
      ensures row.Value? ==> row.value == if k.delivery in s.rows then Some(s.rows[k.delivery]) else None
      ensures row.Value? && (row.value.None? || Settled(row.value.value.status)) ==> At(k, Ack)
      ensures row.Value? && row.value.Some? && !Settled(row.value.value.status) ==>
                At(k, LoadEndpoint) && s.handlers[k.handler].snap == row.value.value
    {
      var ok := Await(k, Load);
      if !ok { return Raised; }
      var x := s.handlers[k.handler];
      if k.delivery !in s.rows {
        Take(k, choices(pauses), Put(s, k.handler, x.(pc := Ack)));
        return Value(None);
      }
      var found := s.rows[k.delivery];
      Take(k, choices(pauses), Put(s, k.handler, if Settled(found.status) then x.(pc := Ack)
                                                 else x.(pc := LoadEndpoint, snap := found)));
      return Value(Some(found));
    }

    method SelectEndpoint(k: Ticket) returns (endpoint: Outcome<Option<Endpoint>>)
      requires At(k, LoadEndpoint)
      modifies this
      ensures Follows(k)
      ensures endpoint.Raised? ==> At(k, Unwind)
      ensures endpoint.Value? ==> Done(k) == old(Done(k)) + [LoadEndpoint]
      ensures endpoint.Value? ==>
                var ep := old(s.handlers[k.handler].snap.endpoint);
                endpoint.value == if ep in s.endpoints then Some(s.endpoints[ep]) else None
      ensures endpoint.Value? && (endpoint.value.None? || !endpoint.value.value.status.Active?) ==> At(k, Ack)
      ensures endpoint.Value? && endpoint.value.Some? && endpoint.value.value.status.Active? ==>
                At(k, if endpoint.value.value.ordered then Lock else Gates)
    {
      var ok := Await(k, LoadEndpoint);
      if !ok { return Raised; }
      var x := s.handlers[k.handler];
      var ep := x.snap.endpoint;
      endpoint := Value(if ep in s.endpoints then Some(s.endpoints[ep]) else None);
      if ep !in s.endpoints || !s.endpoints[ep].status.Active? {
        Take(k, choices(pauses),
             Put(s, k.handler, x.(pc := Ack)).(hist := s.hist.(dropped := s.hist.dropped + {k.delivery})));
      } else {
        var ordered := s.endpoints[ep].ordered;
        Take(k, choices(pauses), Put(s, k.handler, x.(pc := if ordered then Lock else Gates, ordered := ordered)));
      }
    }

    // SET NX of the lock.
    method AcquireLock(k: Ticket) returns (acquired: Outcome<bool>)
      requires At(k, Lock)
      modifies this
      ensures Follows(k)
      ensures acquired.Raised? ==> At(k, Unwind)
      ensures acquired.Value? ==> Done(k) == old(Done(k)) + [Lock]
      ensures acquired.Value? ==> At(k, if acquired.value then Peek else Protocol.Defer)
      ensures acquired.Value? && acquired.value ==> s.handlers[k.handler].locked
      ensures acquired.Value? ==> s.handlers[k.handler].snap == old(s.handlers[k.handler].snap)
      ensures acquired.Value? ==>
                var ep := old(s.handlers[k.handler].snap.endpoint);
                && ep in s.locks && (acquired.value ==> s.locks[ep] == k.handler)
                && JustMoved(k) && (acquired.value <==> ep !in Before().locks)
                && (!acquired.value ==> s.handlers[k.handler].delay == 0.25)
    {
      var ok := Await(k, Lock);
      if !ok { return Raised; }
      var x := s.handlers[k.handler];
      var ep := x.snap.endpoint;
      acquired := Value(ep !in s.locks);
      if ep in s.locks {
        Take(k, choices(pauses), Put(s, k.handler, x.(pc := Protocol.Defer, delay := ORDERED_WAIT)));
      } else {
        Take(k, choices(pauses), Put(s, k.handler, x.(pc := Peek, locked := true)).(locks := s.locks[ep := k.handler]));
      }
    }

    // LINDEX of the queue, and whether the head is None or this delivery.
    method PeekHead(k: Ticket) returns (turn: Outcome<bool>)
      requires At(k, Peek)
      modifies this
      ensures Follows(k)
      ensures turn.Raised? ==> At(k, Unwind)
      ensures turn.Value? ==> Done(k) == old(Done(k)) + [Peek]
      ensures turn.Value? ==> At(k, if turn.value then Gates else NotHead)
      ensures turn.Value? ==> s.handlers[k.handler].locked == old(s.handlers[k.handler].locked)
      ensures turn.Value? ==>
                var q := List(s.queues, old(s.handlers[k.handler].snap.endpoint));
                turn.value <==> q == [] || q[0] == k.delivery
    {
      var ok := Await(k, Peek);
      if !ok { return Raised; }
      var x := s.handlers[k.handler];
      var q := List(s.queues, x.snap.endpoint);
      turn := Value(q == [] || q[0] == k.delivery);
      Take(k, choices(pauses), Put(s, k.handler, x.(pc := if q != [] && q[0] != k.delivery then NotHead else Gates)));
    }

    // The lock handler x of k held is free, and every other lock is as it was.
    predicate LockIsGone(k: Ticket, x: Handler, before: Sys, after: Sys) {
      var ep := x.snap.endpoint;
      && (x.locked ==> !(ep in after.locks && after.locks[ep] == k.handler))
      && (forall e | e in before.locks && (e != ep || before.locks[e] != k.handler) ::
            e in after.locks && after.locks[e] == before.locks[e])
      && after.locks.Keys <= before.locks.Keys
    }

    method ReleaseUnheadedLock(k: Ticket) returns (done: Outcome<()>)
      requires At(k, NotHead)
      modifies this
      ensures Follows(k)
      ensures At(k, if done.Raised? then Unwind else Protocol.Defer)
      ensures done.Value? ==> Done(k) == old(Done(k)) + [NotHead]
      ensures done.Value? ==> s.handlers[k.handler].delay == 0.25
      ensures done.Value? ==> JustMoved(k) && LockIsGone(k, old(s.handlers[k.handler]), Before(), s)
    {
      var ok := Await(k, NotHead);
      if !ok { return Raised; }
      var x := s.handlers[k.handler];
      Take(k, choices(pauses), Put(s, k.handler, x.(pc := Protocol.Defer, delay := ORDERED_WAIT, locked := false)).(
                                 locks := Unlocked(s, k.handler)));
      return Value(());
    }

    // check_gates and acquire_slot.
    method PassGates(k: Ticket) returns (allowed: Outcome<bool>)
      requires At(k, Gates)
      modifies this
      ensures Follows(k)
      ensures allowed.Raised? ==> At(k, Unwind)
      ensures allowed.Value? ==> Done(k) == old(Done(k)) + [Gates]
      ensures allowed.Value? ==> At(k, if allowed.value then Begin else Protocol.Defer)
      ensures allowed.Value? ==> JustMoved(k) && (allowed.value <==> LastChoice().gate.Allowed?)
      ensures allowed.Value? && LastChoice().gate.AutoDisabled? ==>
                var ep := old(s.handlers[k.handler].snap.endpoint);
                ep in s.endpoints && s.endpoints[ep].status.Disabled?
      ensures allowed.Value? && !LastChoice().gate.AutoDisabled? ==> s.endpoints == Before().endpoints
      ensures allowed.Value? && !allowed.value ==>
                s.handlers[k.handler].delay
                == if LastChoice().gate.RateLimited? || LastChoice().gate.AtCapacity? then 0.5 else 30.0
    {
      var ok := Await(k, Gates);
      if !ok { return Raised; }
      var x := s.handlers[k.handler];
      var choice := choices(pauses);
      allowed := Value(choice.gate.Allowed?);
      match choice.gate {
        case Allowed => Take(k, choice, Put(s, k.handler, x.(pc := Begin)));
        case BreakerDenied =>
          Take(k, choice, Put(s, k.handler, x.(pc := Protocol.Defer, delay := BREAKER_RECHECK_DELAY)));
        case AutoDisabled =>
          var ep := x.snap.endpoint;
          if ep !in s.endpoints {
            Take(k, choice, Fail(s, k.handler));
            return Raised;
          }
          Take(k, choice, Put(s, k.handler, x.(pc := Protocol.Defer, delay := BREAKER_RECHECK_DELAY)).(
                            endpoints := s.endpoints[ep := s.endpoints[ep].(status := Disabled)]));
        case RateLimited =>
          Take(k, choice, Put(s, k.handler, x.(pc := Protocol.Defer, delay := RATE_LIMIT_RETRY_DELAY)));
        case AtCapacity =>
          Take(k, choice, Put(s, k.handler, x.(pc := Protocol.Defer, delay := CONCURRENCY_RETRY_DELAY)));
      }
    }

    // ZADD of the delivery, due after the delay: defer_delivery, or the retry after a failed attempt.
    method ScheduleRetry(k: Ticket, ghost pc: Pc) returns (done: Outcome<()>)
      requires At(k, pc) && (pc.Schedule? || pc.Defer?)
      modifies this
      ensures Follows(k)
      ensures At(k, if done.Raised? then Unwind else if pc.Schedule? then Refresh else Unlock)
      ensures done.Value? ==> k.delivery in s.retries && JustMoved(k)
      ensures done.Value? ==> s.retries[k.delivery] == LastChoice().now + old(s.handlers[k.handler]).delay
      ensures done.Value? ==> s.retries == Before().retries[k.delivery := s.retries[k.delivery]]
      ensures done.Value? ==> Done(k) == old(Done(k)) + [pc]
    {
      var ok := Await(k, pc);
      if !ok { return Raised; }
      var x := s.handlers[k.handler];
      var choice := choices(pauses);
      Take(k, choice, Put(s, k.handler, x.(pc := if x.pc.Schedule? then Refresh else Unlock)).(
                        retries := s.retries[k.delivery := choice.now + x.delay]));
      return Value(());
    }

    // ---- process_delivery ----

    // The commit of 'delivering' for a row that is there: one attempt more than the snapshot knows of.
    method NumberAttempt(k: Ticket) returns (number: nat)
      requires At(k, Begin) && k.delivery in s.rows && !s.handlers[k.handler].snap.status.Delivered?
      modifies this
      ensures Follows(k) && At(k, Post) && Done(k) == old(Done(k)) + [Begin]
      ensures number == old(s.handlers[k.handler].snap.attempts) + 1 == s.handlers[k.handler].snap.attempts
      ensures k.delivery in s.rows && s.rows[k.delivery].attempts == number
      ensures !old(s.handlers[k.handler]).snap.status.Delivering? ==> s.rows[k.delivery].status.Delivering?
    {
      number := s.handlers[k.handler].snap.attempts + 1;
      var t := Numbering(s, k.handler);
      NumberingBegins(s, k.handler, choices(pauses));
      Take(k, choices(pauses), t);
    }

    // None for a delivery the snapshot already has as delivered.
    method CommitDelivering(k: Ticket) returns (number: Outcome<Option<nat>>)
      requires At(k, Begin)
      modifies this
      ensures Follows(k)
      ensures number.Raised? ==> At(k, Unwind)
      ensures number.Value? ==> Done(k) == old(Done(k)) + [Begin]
      ensures number.Value? ==> At(k, if number.value.Some? then Post else Refresh)
      ensures number.Value? ==> (number.value.None? <==> old(s.handlers[k.handler].snap.status).Delivered?)
      ensures number.Value? && number.value.Some? ==>
                && number.value.value == old(s.handlers[k.handler].snap.attempts) + 1
                && s.handlers[k.handler].snap.attempts == number.value.value
                && k.delivery in s.rows && s.rows[k.delivery].attempts == number.value.value
                && (!old(s.handlers[k.handler]).snap.status.Delivering? ==> s.rows[k.delivery].status.Delivering?)
    {
      var ok := Await(k, Begin);
      if !ok { return Raised; }
      if k.delivery !in s.rows {
        Take(k, choices(pauses), Fail(s, k.handler));
        return Raised;
      }
      if s.handlers[k.handler].snap.status.Delivered? {
        Take(k, choices(pauses), Put(s, k.handler, s.handlers[k.handler].(pc := Refresh)));
        return Value(None);
      }
      var attempt := NumberAttempt(k);
      return Value(Some(attempt));
    }

    method PostRequest(k: Ticket) returns (done: Outcome<()>)
      requires At(k, Post)
      modifies this
      ensures Follows(k)
      ensures At(k, if done.Raised? then Unwind else Wait)
      ensures done.Value? ==> Done(k) == old(Done(k)) + [Post]
      ensures done.Value? ==>
                var ep := old(s.handlers[k.handler].snap.endpoint);
                JustMoved(k) && List(s.hist.sent, ep) == List(Before().hist.sent, ep) + [k.delivery]
    {
      var ok := Await(k, Post);
      if !ok { return Raised; }
      var x := s.handlers[k.handler];
      var ep := x.snap.endpoint;
      Take(k, choices(pauses), s.(handlers := s.handlers[k.handler := x.(pc := Wait)],
                                 hist := s.hist.(sent := s.hist.sent[ep := List(s.hist.sent, ep) + [k.delivery]])));
      return Value(());
    }

    method AwaitResponse(k: Ticket) returns (response: Outcome<Response>)
      requires At(k, Wait)
      modifies this
      ensures Follows(k)
      ensures response.Raised? ==> At(k, Unwind)
      ensures response.Value? ==> At(k, Conclude) && s.handlers[k.handler].response == response.value
      ensures response.Value? ==> Done(k) == old(Done(k)) + [Wait]
      ensures response.Value? ==> JustMoved(k) && response.value == LastChoice().response
    {
      var ok := Await(k, Wait);
      if !ok { return Raised; }
      var choice := choices(pauses);
      Take(k, choice, Put(s, k.handler, s.handlers[k.handler].(pc := Conclude, response := choice.response)));
      return Value(choice.response);
    }

    // The request goes out, and something comes back.
    method SendDelivery(k: Ticket) returns (response: Outcome<Response>)
      requires At(k, Post)
      modifies this
      ensures Follows(k)
      ensures response.Raised? ==> At(k, Unwind)
      ensures response.Value? ==> At(k, Conclude) && s.handlers[k.handler].response == response.value
      ensures response.Value? ==> Done(k) == old(Done(k)) + [Post] + [Wait]
      ensures response.Value? ==> JustMoved(k) && response.value == LastChoice().response
    {
      var _ :- PostRequest(k);
      response := AwaitResponse(k);
    }

    // The commit of the attempt row and the status; the delay if the delivery is to be retried.
    method CommitOutcome(k: Ticket) returns (delay: Outcome<Option<real>>)
      requires At(k, Conclude)
      modifies this
      ensures Follows(k)
      ensures delay.Raised? ==> At(k, Unwind)
      ensures delay.Value? ==> Done(k) == old(Done(k)) + [Conclude]
      ensures delay.Value? ==> At(k, if delay.value.Some? then Schedule else Refresh)
      ensures delay.Value? ==>
                var x := old(s.handlers[k.handler]);
                && k.delivery in s.rows && Recorded(s, k.delivery, x.snap.attempts)
                && (s.rows[k.delivery].status.Delivered? <==> x.response.Success?)
                && (s.rows[k.delivery].status.Failed? <==> delay.value.Some?)
                && (delay.value.None? ==> Settled(s.rows[k.delivery].status) && k.delivery in s.hist.settled)
      ensures delay.Value? ==> JustMoved(k)
      ensures delay.Value? ==>
                var x := old(s.handlers[k.handler]);
                && (delay.value.Some? ==>
                      s.handlers[k.handler].delay == delay.value.value
                      && IsGranted(s.configuredMax, x, LastChoice(), delay.value.value))
                && (s.rows[k.delivery].status.Dead? ==>
                      x.response.Failure? && forall w :: !IsGranted(s.configuredMax, x, LastChoice(), w))
    {
      var ok := Await(k, Conclude);
      if !ok { return Raised; }
      var x := s.handlers[k.handler];
      if k.delivery !in s.rows {
        Take(k, choices(pauses), Fail(s, k.handler));
        return Raised;
      }
      var choice := choices(pauses);
      var row := s.rows[k.delivery];
      var (status, wait) := Verdict(s.configuredMax, x, choice.jitter);
      VerdictByValue(s.configuredMax, x, choice);
      Take(k, choice,
           Put(s, k.handler, x.(snap := x.snap.(status := status), delay := wait,
                                pc := if Settled(status) then Refresh else Schedule)).(
             rows := s.rows[k.delivery := row.(status := status)],
             hist := Concluding(s.hist, k.delivery, x.snap.attempts, row, status)));
      return Value(if Settled(status) then None else Some(wait));
    }

    // The outcome, and the retry it may call for.
    method RecordAttempt(k: Ticket) returns (done: Outcome<()>)
      requires At(k, Conclude)
      modifies this
      ensures Follows(k)
      ensures At(k, if done.Raised? then Unwind else Refresh)
      ensures done.Value? ==> Concluded(old(Done(k)), Done(k))
    {
      var delay :- CommitOutcome(k);
      if delay.None? { return Value(()); }
      done := ScheduleRetry(k, Schedule);
    }

    // The rest of an attempt that has been counted.
    method SendAndRecord(k: Ticket) returns (done: Outcome<()>)
      requires At(k, Post)
      modifies this
      ensures Follows(k)
      ensures At(k, if done.Raised? then Unwind else Refresh)
      ensures done.Value? ==> Concluded(old(Done(k)) + [Post] + [Wait], Done(k))
    {
      var _ :- SendDelivery(k);
      done := RecordAttempt(k);
    }

    /** An attempt: it is counted, sent and recorded, in this order, and a retry is scheduled if one follows. The check
        for a snapshot that says 'delivered' never ends it early. */
    method ProcessDelivery(k: Ticket) returns (mayAck: Outcome<bool>)
      requires At(k, Begin)
      modifies this
      ensures Follows(k)
      ensures At(k, if mayAck.Raised? then Unwind else Refresh)
      ensures mayAck.Value? ==> mayAck.value && Attempted(old(Done(k)), Done(k))
    {
      SnapshotIsUnsettled(ss, steps, k.handler);
      var number :- CommitDelivering(k);
      if number.None? { return Value(true); }
      var _ :- SendAndRecord(k);
      return Value(true);
    }

    // ---- deliver_with_gates ----

    method RefreshDelivery(k: Ticket) returns (done: Outcome<()>)
      requires At(k, Refresh)
      modifies this
      ensures Follows(k)
      ensures At(k, if done.Raised? then Unwind else Pop)
      ensures done.Value? ==> Done(k) == old(Done(k)) + [Refresh]
      ensures done.Value? ==> k.delivery in s.rows && s.handlers[k.handler].snap == s.rows[k.delivery]
    {
      var ok := Await(k, Refresh);
      if !ok { return Raised; }
      if k.delivery !in s.rows {
        Take(k, choices(pauses), Fail(s, k.handler));
        return Raised;
      }
      Take(k, choices(pauses), Put(s, k.handler, s.handlers[k.handler].(pc := Pop, snap := s.rows[k.delivery])));
      return Value(());
    }

    // k's handler has just been at Pop, and took its delivery off the queue if that is final.
    ghost predicate HasPopped(k: Ticket)
      reads this
    {
      JustMoved(k) && IsPopOf(Before(), steps[|steps| - 1], k.handler) && PopsIfFinal(Before(), k.handler, s)
    }

    // LREM of the delivery, if its endpoint is ordered and it is settled.
    method PopSettledHead(k: Ticket) returns (done: Outcome<()>)
      requires At(k, Pop)
      modifies this
      ensures Follows(k)
      ensures At(k, if done.Raised? then Unwind else Unlock)
      ensures done.Value? ==> Done(k) == old(Done(k)) + [Pop]
      ensures done.Value? ==> HasPopped(k) && Before().handlers[k.handler] == old(s.handlers[k.handler])
    {
      var ok := Await(k, Pop);
      if !ok { return Raised; }
      var x := s.handlers[k.handler];
      if x.ordered && Settled(x.snap.status) && k.delivery in List(s.queues, x.snap.endpoint) {
        done := PopNow(k);
      } else {
        done := PassNow(k);
      }
    }

    method PopNow(k: Ticket) returns (done: Outcome<()>)
      requires At(k, Pop) && Pops(s, s.handlers[k.handler])
      modifies this
      ensures done.Value? && Follows(k) && At(k, Unlock) && Done(k) == old(Done(k)) + [Pop]
      ensures HasPopped(k) && Before() == old(s)
    {
      PoppingIsNext(s, k.handler, choices(pauses));
      MoveTo(k, choices(pauses), Popping(s, k.handler), Popping(s, k.handler).handlers[k.handler]);
      LastStepPops(ss, steps, k.handler);
      done := Value(());
    }

    method PassNow(k: Ticket) returns (done: Outcome<()>)
      requires At(k, Pop) && !Pops(s, s.handlers[k.handler])
      modifies this
      ensures done.Value? && Follows(k) && At(k, Unlock) && Done(k) == old(Done(k)) + [Pop]
      ensures HasPopped(k) && Before() == old(s)
    {
      PassingIsNext(s, k.handler, choices(pauses));
      MoveTo(k, choices(pauses), Passing(s, k.handler), Passing(s, k.handler).handlers[k.handler]);
      LastStepPops(ss, steps, k.handler);
      done := Value(());
    }

    // A step after which the handler goes on as y.
    method MoveTo(k: Ticket, choice: Choice, t: Sys, ghost y: Handler)
      requires Valid() && k.handler in mine && Next(s, Advance(k.handler, choice), t)
      requires k.handler in t.handlers && t.handlers[k.handler] == y && y.msg == k.msg && y.delivery == k.delivery
      modifies this
      ensures Follows(k) && At(k, y.pc) && s == t && s.handlers[k.handler] == y
      ensures Done(k) == old(Done(k)) + [old(s.handlers[k.handler].pc)]
      ensures JustMoved(k) && LastChoice() == choice && Before() == old(s)
    {
      Take(k, choice, t);
    }

    // The finally block.
    method ReleaseLock(k: Ticket) returns (done: Outcome<()>)
      requires At(k, Unlock)
      modifies this
      ensures Follows(k)
      ensures At(k, if done.Raised? then Unwind else Ack)
      ensures done.Value? ==> Done(k) == old(Done(k)) + [Unlock]
      ensures done.Value? ==> JustMoved(k) && LockIsGone(k, old(s.handlers[k.handler]), Before(), s)
    {
      var ok := Await(k, Unlock);
      if !ok { return Raised; }
      var x := s.handlers[k.handler];
      Take(k, choices(pauses), Put(s, k.handler, x.(pc := Ack, locked := false)).(locks := Unlocked(s, k.handler)));
      return Value(());
    }

    // An attempt, the refresh and the pop.
    method AttemptAndPop(k: Ticket) returns (mayAck: Outcome<bool>)
      requires At(k, Begin)
      modifies this
      ensures Follows(k)
      ensures At(k, if mayAck.Raised? then Unwind else Unlock)
      ensures mayAck.Value? ==> mayAck.value && AttemptedAndPopped(old(Done(k)), Done(k)) && HasPopped(k)
    {
      ghost var before := Done(k);
      mayAck := ProcessDelivery(k);
      if mayAck.Raised? { return; }
      ghost var attempted := Done(k);
      var _ :- RefreshDelivery(k);
      var _ :- PopSettledHead(k);
      assert Attempted(before, attempted) && Done(k) == attempted + [Refresh] + [Pop];
    }

    // The try block, for a handler that has passed the ordering checks.
    method TryDeliver(k: Ticket) returns (mayAck: Outcome<bool>)
      requires At(k, Gates)
      modifies this
      ensures Follows(k)
      ensures At(k, if mayAck.Raised? then Unwind else Unlock)
      ensures mayAck.Value? ==> mayAck.value && Tried(old(Done(k)), Done(k))
      ensures mayAck.Value? ==>
                || HasPopped(k)
                || (k.delivery in s.retries && Done(k) == old(Done(k)) + [Gates] + [Protocol.Defer])
    {
      var allowed :- PassGates(k);
      if !allowed {
        var _ :- ScheduleRetry(k, Protocol.Defer);
        return Value(true);
      }
      mayAck := AttemptAndPop(k);
    }

    // Not at the head: the lock goes, and the delivery is deferred.
    method DeferBehindHead(k: Ticket) returns (done: Outcome<()>)
      requires At(k, NotHead)
      modifies this
      ensures Follows(k)
      ensures At(k, if done.Raised? then Unwind else Unlock)
      ensures done.Value? ==> k.delivery in s.retries && Done(k) == old(Done(k)) + [NotHead] + [Protocol.Defer]
    {
      var _ :- ReleaseUnheadedLock(k);
      done := ScheduleRetry(k, Protocol.Defer);
    }

    // The lock is taken: is the queue empty, or this delivery at its head?
    method CheckHead(k: Ticket) returns (turn: Outcome<bool>)
      requires At(k, Peek) && s.handlers[k.handler].locked
      modifies this
      ensures Follows(k)
      ensures At(k, if turn.Raised? then Unwind else if turn.value then Gates else Unlock)
      ensures turn.Value? && turn.value ==> HasHead(k, old(s.handlers[k.handler].snap.endpoint))
      ensures turn.Value? && turn.value ==> Done(k) == old(Done(k)) + [Peek]
      ensures turn.Value? && !turn.value ==>
                k.delivery in s.retries && Done(k) == old(Done(k)) + [Peek] + [NotHead] + [Protocol.Defer]
    {
      turn := PeekHead(k);
      if turn.Value? && !turn.value {
        var _ :- DeferBehindHead(k);
      }
    }

    // Whether an ordered delivery has its turn: it took the lock and found the queue empty or itself at its head. If
    // not, it is back on the retry queue.
    method TakeTurn(k: Ticket) returns (turn: Outcome<bool>)
      requires At(k, Lock)
      modifies this
      ensures Follows(k)
      ensures At(k, if turn.Raised? then Unwind else if turn.value then Gates else Unlock)
      ensures turn.Value? && turn.value ==> HasHead(k, old(s.handlers[k.handler].snap.endpoint))
      ensures turn.Value? && turn.value ==> Done(k) == old(Done(k)) + [Lock] + [Peek]
      ensures turn.Value? && !turn.value ==> k.delivery in s.retries && Deferred(old(Done(k)), Done(k))
    {
      var acquired :- AcquireLock(k);
      if !acquired {
        var _ :- ScheduleRetry(k, Protocol.Defer);
        return Value(false);
      }
      turn := CheckHead(k);
    }

    // The ordering checks and the try block. A delivery that has no turn leaves before the try block, with its lock, if
    // it took one, released already.
    method PassThrough(k: Ticket, ordered: bool) returns (mayAck: Outcome<bool>)
      requires At(k, if ordered then Lock else Gates)
      modifies this
      ensures Follows(k)
      ensures At(k, if mayAck.Raised? then Unwind else Unlock)
      ensures mayAck.Value? ==> mayAck.value && Through(old(Done(k)), Done(k), ordered)
    {
      if ordered {
        var turn :- TakeTurn(k);
        if !turn { return Value(true); }
      }
      mayAck := TryDeliver(k);
    }

    // And the finally block, which finds nothing to release if there was no turn.
    method DeliverTo(k: Ticket, ordered: bool) returns (mayAck: Outcome<bool>)
      requires At(k, if ordered then Lock else Gates)
      modifies this
      ensures Follows(k)
      ensures At(k, if mayAck.Raised? then Unwind else Ack)
      ensures mayAck.Value? ==> mayAck.value && WentThrough(old(Done(k)), Done(k), ordered)
    {
      ghost var before := Done(k);
      mayAck := PassThrough(k, ordered);
      if mayAck.Raised? { return; }
      ghost var during := Done(k);
      var _ :- ReleaseLock(k);
      assert Through(before, during, ordered) && Done(k) == during + [Unlock];
    }

    // From the endpoint on.
    method DeliverUnsettled(k: Ticket) returns (mayAck: Outcome<bool>)
      requires At(k, LoadEndpoint)
      modifies this
      ensures Follows(k)
      ensures At(k, if mayAck.Raised? then Unwind else Ack)
      ensures mayAck.Value? ==> mayAck.value && EndpointHandled(old(Done(k)), Done(k))
    {
      var endpoint :- SelectEndpoint(k);
      if endpoint.None? || !endpoint.value.status.Active? { return Value(true); }
      mayAck := DeliverTo(k, endpoint.value.ordered);
    }

    method DeliverWithGates(k: Ticket) returns (mayAck: Outcome<bool>)
      requires At(k, Load)
      modifies this
      ensures Follows(k)
      ensures At(k, if mayAck.Raised? then Unwind else Ack)
      ensures mayAck.Value? ==> mayAck.value && Handled(old(Done(k)), Done(k))
      ensures PopsAlways(ss, steps, k.handler)
    {
      mayAck := DeliverLoaded(k);
      RunsPopAlways(ss, steps, k.handler);
    }

    method DeliverLoaded(k: Ticket) returns (mayAck: Outcome<bool>)
      requires At(k, Load)
      modifies this
      ensures Follows(k)
      ensures At(k, if mayAck.Raised? then Unwind else Ack)
      ensures mayAck.Value? ==> mayAck.value && Handled(old(Done(k)), Done(k))
    {
      var delivery :- SelectDelivery(k);
      if delivery.None? || Settled(delivery.value.status) { return Value(true); }
      mayAck := DeliverUnsettled(k);
    }

    // ---- handle_message and its callers ----

    /** XACK: if it is done, the message is no longer pending. */
    method Acknowledge(k: Ticket) returns (done: Outcome<()>)
      requires At(k, Ack)
      modifies this
      ensures Follows(k)
      ensures done.Raised? ==> At(k, Unwind)
      ensures done.Value? ==> Valid() && k.handler !in mine && k.msg !in s.pel
      ensures done.Value? ==> Done(k) == old(Done(k)) + [Ack]
      ensures done.Value? ==> JustMoved(k) && s.pel == Before().pel - {k.msg}
    {
      var ok := Await(k, Ack);
      if !ok { return Raised; }
      Take(k, choices(pauses), s.(pel := s.pel - {k.msg}, handlers := s.handlers - {k.handler}));
      return Value(());
    }

    /** An operation of k's handler raised, or met a row or endpoint that was deleted. */
    ghost predicate HasFailed(k: Ticket)
      reads this
    {
      exists m: nat :: FailsAt(ss, steps, m, k.handler)
    }

    // The rest of an exception's way out.
    method LeaveByException(k: Ticket)
      requires At(k, Unwind)
      modifies this
      ensures Valid() && Follows(k) && k.handler !in mine
      ensures LeftByException(Done(k)) && HasFailed(k)
      ensures JustMoved(k) && s.pel == Before().pel && LockIsGone(k, old(s.handlers[k.handler]), Before(), s)
    {
      ghost var m := ExceptionsHaveACause(ss, steps, |steps|, k.handler);
      ghost var was, taken := ss, steps;
      Pause();
      LeaveNow(k);
      FailedEarlier(was, taken, ss, steps, m, k.handler);
    }

    method LeaveNow(k: Ticket)
      requires At(k, Unwind)
      modifies this
      ensures Valid() && Follows(k) && k.handler !in mine && Done(k) == old(Done(k)) + [Unwind]
      ensures JustMoved(k) && s.pel == Before().pel && LockIsGone(k, old(s.handlers[k.handler]), Before(), s)
    {
      Take(k, choices(pauses), s.(locks := Unlocked(s, k.handler), handlers := s.handlers - {k.handler}));
    }

    /** One message, to its end. The handler is gone afterwards. Either it went through one of the orders of `Handled`
        and acknowledged its message, or it left by an exception and did not; and whatever happened, and whatever else
        was going on, nothing that is owed is lost. */
    method HandleMessage(k: Ticket) returns (acked: bool)
      requires At(k, Load)
      modifies this
      ensures Valid() && Follows(k) && k.handler !in mine
      ensures acked ==> k.msg !in s.pel && Acknowledged(old(Done(k)), Done(k))
      ensures !acked ==> LeftByException(Done(k)) && HasFailed(k)
      ensures forall d | Owed(s, d) :: HasCopy(s, d)
    {
      ghost var before := Done(k);
      var mayAck := DeliverWithGates(k);
      ghost var during := Done(k);
      acked := AcknowledgeOrLeave(k, mayAck.Value?);
      assert acked ==> Handled(before, during) && Done(k) == during + [Ack];
      AllOwedHaveCopies(ss, steps);
    }

    method AcknowledgeOrLeave(k: Ticket, mayAck: bool) returns (acked: bool)
      requires At(k, if mayAck then Ack else Unwind)
      modifies this
      ensures Valid() && Follows(k) && k.handler !in mine
      ensures acked ==> mayAck && k.msg !in s.pel && Done(k) == old(Done(k)) + [Ack]
      ensures !acked ==> LeftByException(Done(k)) && HasFailed(k)
    {
      acked := false;
      if mayAck {
        var done := Acknowledge(k);
        acked := done.Value?;
      }
      if !acked { LeaveByException(k); }
    }

    // A handler of this process for message m, whose delivery is d.
    method Start(ghost step: Step, m: Id, d: Id, t: Sys) returns (k: Ticket)
      requires Valid() && IsRun(ss + [t], steps + [step]) && t.handlers == s.handlers[s.next := NewHandler(m, d)]
      modifies this
      ensures k.msg == m && k.delivery == d && At(k, Load) && k.handler !in old(mine) && mine == old(mine) + {k.handler}
      ensures s == t && Stay(old(s), old(mine), s) && ss == old(ss) + [t] && steps == old(steps) + [step]
      ensures k.handler == old(s.next)
    {
      NextIsFree(ss, steps);
      k := Ticket(s.next, m, d);
      s, mine := t, mine + {k.handler};
      ss, steps := ss + [t], steps + [step];
    }

    /** One entry read from the stream, as consume_shard does: it becomes pending at once, and is handled to its end. If
        it was not acknowledged, its handler left by an exception. */
    method ConsumeOne(m: Id) returns (acked: bool)
      requires Valid() && m in s.unread
      modifies this
      ensures Valid() && mine == old(mine) && Stay(old(s), mine, s) && old(ss) <= ss && old(steps) <= steps
      ensures acked ==> m !in s.pel
      ensures |old(steps)| < |steps| && steps[|old(steps)|] == Claim(m) && m in ss[|old(steps)| + 1].pel
      ensures var k := Ticket(old(s.next), m, old(s.unread[m])); !acked ==> LeftByException(Done(k)) && HasFailed(k)
    {
      var d := s.unread[m];
      var t := s.(unread := s.unread - {m}, pel := s.pel[m := d],
                  handlers := s.handlers[s.next := NewHandler(m, d)], next := s.next + 1);
      RunExtends(ss, steps, Claim(m), t);
      var k := Start(Claim(m), m, d, t);
      acked := HandleMessage(k);
    }

    // ---- reclaim_stale ----

    // The tickets from `done` on are waiting to be handled; the process had the handlers `before` besides.
    ghost predicate Waiting(tickets: seq<Ticket>, done: nat, before: set<Id>)
      reads this
    {
      && Valid() && done <= |tickets| && mine == before + Handlers(tickets[done..])
      && (forall j | done <= j < |tickets| :: At(tickets[j], Load) && tickets[j].handler !in before)
      && (forall i, j | 0 <= i < j < |tickets| :: tickets[i].handler != tickets[j].handler)
    }

    /** XAUTOCLAIM: takes over those of the candidates that are pending, in order, all at once. */
    method Autoclaim(candidates: seq<Id>) returns (tickets: seq<Ticket>)
      requires Valid()
      modifies this
      ensures Waiting(tickets, 0, old(mine))
      ensures Messages(tickets) == StillPending(candidates, old(s.pel))
      ensures Stay(old(s), old(mine), s) && old(ss) <= ss && steps == old(steps) + Reclaims(Messages(tickets))
    {
      tickets := [];
      for i := 0 to |candidates|
        invariant Waiting(tickets, 0, old(mine)) && s.pel == old(s.pel)
        invariant Messages(tickets) == StillPending(candidates[..i], old(s.pel))
        invariant Stay(old(s), old(mine), s) && old(ss) <= ss && steps == old(steps) + Reclaims(Messages(tickets))
      {
        assert candidates[..i + 1][..i] == candidates[..i];
        if candidates[i] in s.pel {
          ReclaimsOneMore(Messages(tickets), candidates[i]);
          tickets := ClaimOne(candidates[i], tickets, old(mine));
        }
      }
      assert candidates[..|candidates|] == candidates;
    }

    method ClaimOne(m: Id, tickets: seq<Ticket>, ghost before: set<Id>) returns (more: seq<Ticket>)
      requires Waiting(tickets, 0, before) && m in s.pel
      modifies this
      ensures Waiting(more, 0, before) && Messages(more) == Messages(tickets) + [m] && s.pel == old(s.pel)
      ensures Stay(old(s), old(mine), s) && old(ss) <= ss && steps == old(steps) + [Reclaim(m)]
    {
      var d := s.pel[m];
      var t := s.(handlers := s.handlers[s.next := NewHandler(m, d)], next := s.next + 1);
      RunExtends(ss, steps, Reclaim(m), t);
      var k := Start(Reclaim(m), m, d, t);
      more := tickets + [k];
      HandlersOfMore(tickets, k);
    }

    method HandleAll(tickets: seq<Ticket>, ghost before: set<Id>)
      requires Waiting(tickets, 0, before)
      modifies this
      ensures Valid() && mine == before
      ensures Stay(old(s), before, s) && old(ss) <= ss && old(steps) <= steps
    {
      for i := 0 to |tickets|
        invariant Waiting(tickets, i, before)
        invariant Stay(old(s), before, s) && old(ss) <= ss && old(steps) <= steps
      {
        HandleOne(tickets, i, before);
      }
    }

    method HandleOne(tickets: seq<Ticket>, i: nat, ghost before: set<Id>)
      requires i < |tickets| && Waiting(tickets, i, before)
      modifies this
      ensures Waiting(tickets, i + 1, before)
      ensures Stay(old(s), before, s) && old(ss) <= ss && old(steps) <= steps
    {
      assert At(tickets[i], Load);
      ghost var was := mine;
      HandlersOfRest(tickets, i);
      var _ := HandleMessage(tickets[i]);
      OneLess(was, mine, before, Handlers(tickets[i..]), tickets[i].handler);
    }

    // One batch: XAUTOCLAIM, and each message it returned handled to its end.
    method ReclaimBatch(batch: seq<Id>) returns (n: nat, ghost start: nat)
      requires Valid()
      modifies this
      ensures Valid() && mine == old(mine)
      ensures Stay(old(s), mine, s) && old(ss) <= ss && old(steps) <= steps
      ensures |old(steps)| <= start && IsClaimed(ss, steps, batch, n, start)
    {
      Pause();
      start := |steps|;
      ghost var found := StillPending(batch, s.pel);
      var tickets := Autoclaim(batch);
      n := |tickets|;
      assert steps[start..start + n] == Reclaims(found);
      HandleAll(tickets, old(mine));
    }

    /** Takes over stale entries batch by batch, until a batch is empty or the cursor has come round, and handles every
        one of them to its end. `counts` and `starts` say how many each batch gave, and when it was claimed. */
    method ReclaimStale(batches: seq<seq<Id>>) returns (reclaimed: nat, ghost counts: seq<nat>, ghost starts: seq<nat>)
      requires Valid()
      modifies this
      ensures Valid() && mine == old(mine)
      ensures Stay(old(s), mine, s) && old(ss) <= ss && old(steps) <= steps
      ensures reclaimed == Total(counts) && AreClaimed(ss, steps, batches, counts, starts, |old(steps)|)
      ensures forall j | 0 <= j < |counts| - 1 :: counts[j] > 0
      ensures |counts| == |batches| || (counts != [] && counts[|counts| - 1] == 0)
    {
      reclaimed, counts, starts := 0, [], [];
      for i := 0 to |batches|
        invariant Valid() && mine == old(mine)
        invariant Stay(old(s), mine, s) && old(ss) <= ss && old(steps) <= steps
        invariant |counts| == i && reclaimed == Total(counts)
        invariant AreClaimed(ss, steps, batches, counts, starts, |old(steps)|)
        invariant forall j | 0 <= j < i :: counts[j] > 0
      {
        ghost var was, taken := ss, steps;
        ghost var start;
        var n;
        n, start := ReclaimBatch(batches[i]);
        OneMoreClaimed(was, taken, ss, steps, batches, counts, starts, |old(steps)|, n, start);
        reclaimed, counts, starts := reclaimed + n, counts + [n], starts + [start];
        if n == 0 { break; }
      }
    }
  }
}
