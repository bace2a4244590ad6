/**
 Where things come from, over every run of the protocol: how long a delivery waits on the retry queue, what makes a
 handler leave by an exception, and what a replay has done by the time it XADDs.
 */
module Provenance {
  import opened Protocol
  import opened AtLeastOnce
  import opened Environment
  import Ordering
  import Retry

  // ---- The wait of a delivery on the retry queue ----

  // The handler is about to put its delivery on the retry queue.
  predicate IsWaiting(x: Handler) {
    x.pc.Schedule? || x.pc.Defer?
  }

  // The outcome it is about to commit is a failure that the policy retries after `wait`.
  ghost predicate IsGranted(configuredMax: int, x: Handler, c: Choice, wait: real) {
    && x.response.Failure?
    && var f := Retry.Failure(x.response.status, x.response.retryAfter, c.jitter);
       Retry.IsRetried(f, x.snap.attempts, configuredMax) && Retry.WaitsFor(f, x.snap.attempts, wait)
  }

  /** The handler's next step decides that its delivery waits so long: a quarter of a second for a lock or for its turn,
      half a second for the rate limit or the concurrency cap, half a minute for the breaker, and after a failed attempt
      what the policy says, by value. */
  ghost predicate Decides(s: Sys, h: Id, c: Choice, wait: real) {
    && h in s.handlers
    && var x := s.handlers[h];
       match x.pc
       case Lock => x.snap.endpoint in s.locks && wait == 0.25
       case NotHead => wait == 0.25
       case Gates => !c.gate.Allowed? && wait == if c.gate.RateLimited? || c.gate.AtCapacity? then 0.5 else 30.0
       case Conclude => IsGranted(s.configuredMax, x, c, wait)
       case _ => false
  }

  /** The handler's next step cannot be carried out: its row is gone when it commits or refreshes, or its endpoint when
      it disables that. */
  predicate GivesUp(s: Sys, h: Id, c: Choice) {
    && h in s.handlers
    && var x := s.handlers[h];
       || ((x.pc.Begin? || x.pc.Conclude? || x.pc.Refresh?) && x.delivery !in s.rows)
       || (x.pc.Gates? && c.gate.AutoDisabled? && x.snap.endpoint !in s.endpoints)
  }

  /** All that this module follows of a handler's own step: when it decides on a wait, when it gives up, and that only
      the scheduling itself touches the retry queue. */
  ghost predicate Yields(s: Sys, h: Id, c: Choice, t: Sys)
    requires h in s.handlers
  {
    && (h in t.handlers && IsWaiting(t.handlers[h]) ==> Decides(s, h, c, t.handlers[h].delay))
    && (h in t.handlers && t.handlers[h].pc.Unwind? <==> GivesUp(s, h, c))
    && (!IsWaiting(s.handlers[h]) ==> t.retries == s.retries)
  }

  lemma LoadYields(s: Sys, h: Id, c: Choice, t: Sys)
    requires h in s.handlers && s.handlers[h].pc.Load? && NextLoad(s, h, t)
    ensures Yields(s, h, c, t)
  {}

  lemma LoadEndpointYields(s: Sys, h: Id, c: Choice, t: Sys)
    requires h in s.handlers && s.handlers[h].pc.LoadEndpoint? && NextLoadEndpoint(s, h, t)
    ensures Yields(s, h, c, t)
  {}

  lemma LockYields(s: Sys, h: Id, c: Choice, t: Sys)
    requires h in s.handlers && s.handlers[h].pc.Lock? && NextLock(s, h, t)
    ensures Yields(s, h, c, t)
  {}

  lemma PeekYields(s: Sys, h: Id, c: Choice, t: Sys)
    requires h in s.handlers && s.handlers[h].pc.Peek? && NextPeek(s, h, t)
    ensures Yields(s, h, c, t)
  {}

  lemma NotHeadYields(s: Sys, h: Id, c: Choice, t: Sys)
    requires h in s.handlers && s.handlers[h].pc.NotHead? && NextNotHead(s, h, t)
    ensures Yields(s, h, c, t)
  {}

  lemma GatesYield(s: Sys, h: Id, c: Choice, t: Sys)
    requires h in s.handlers && s.handlers[h].pc.Gates? && NextGates(s, h, c.gate, t)
    ensures Yields(s, h, c, t)
  {}

  lemma BeginYields(s: Sys, h: Id, c: Choice, t: Sys)
    requires h in s.handlers && s.handlers[h].pc.Begin? && NextBegin(s, h, t)
    ensures Yields(s, h, c, t)
  {}

  lemma PostYields(s: Sys, h: Id, c: Choice, t: Sys)
    requires h in s.handlers && s.handlers[h].pc.Post? && NextPost(s, h, t)
    ensures Yields(s, h, c, t)
  {}

  lemma WaitYields(s: Sys, h: Id, c: Choice, t: Sys)
    requires h in s.handlers && s.handlers[h].pc.Wait? && NextWait(s, h, c.response, t)
    ensures Yields(s, h, c, t)
  {}

  lemma ConcludeYields(s: Sys, h: Id, c: Choice, t: Sys)
    requires h in s.handlers && s.handlers[h].pc.Conclude? && NextConclude(s, h, c.jitter, t)
    ensures Yields(s, h, c, t)
  {
    VerdictByValue(s.configuredMax, s.handlers[h], c);
  }

  lemma RefreshYields(s: Sys, h: Id, c: Choice, t: Sys)
    requires h in s.handlers && s.handlers[h].pc.Refresh? && NextRefresh(s, h, t)
    ensures Yields(s, h, c, t)
  {}

  lemma PopYields(s: Sys, h: Id, c: Choice, t: Sys)
    requires h in s.handlers && s.handlers[h].pc.Pop? && NextPop(s, h, t)
    ensures Yields(s, h, c, t)
  {}

  lemma UnlockYields(s: Sys, h: Id, c: Choice, t: Sys)
    requires h in s.handlers && s.handlers[h].pc.Unlock? && NextUnlock(s, h, t)
    ensures Yields(s, h, c, t)
  {}

  lemma ZaddYields(s: Sys, h: Id, c: Choice, t: Sys)
    requires h in s.handlers && IsWaiting(s.handlers[h]) && NextZadd(s, h, c.now, t)
    ensures Yields(s, h, c, t)
  {}

  lemma LeaveYields(s: Sys, h: Id, c: Choice, t: Sys)
    requires h in s.handlers && NextLeave(s, h, t)
    ensures Yields(s, h, c, t)
  {}

  lemma AdvanceYields(s: Sys, h: Id, c: Choice, t: Sys)
    requires h in s.handlers && NextAdvance(s, h, c, t)
    ensures Yields(s, h, c, t)
  {
    match s.handlers[h].pc {
      case Load => LoadYields(s, h, c, t);
      case LoadEndpoint => LoadEndpointYields(s, h, c, t);
      case Lock => LockYields(s, h, c, t);
      case Peek => PeekYields(s, h, c, t);
      case NotHead => NotHeadYields(s, h, c, t);
      case Gates => GatesYield(s, h, c, t);
      case Begin => BeginYields(s, h, c, t);
      case Post => PostYields(s, h, c, t);
      case Wait => WaitYields(s, h, c, t);
      case Conclude => ConcludeYields(s, h, c, t);
      case Schedule | Defer => ZaddYields(s, h, c, t);
      case Refresh => RefreshYields(s, h, c, t);
      case Pop => PopYields(s, h, c, t);
      case Unlock => UnlockYields(s, h, c, t);
      case Ack | Unwind => LeaveYields(s, h, c, t);
    }
  }

  lemma VerdictByValue(configuredMax: int, x: Handler, c: Choice)
    ensures var (status, wait) := Verdict(configuredMax, x, c.jitter);
            && (status.Delivered? <==> x.response.Success?)
            && (status.Failed? ==> IsGranted(configuredMax, x, c, wait))
            && (status.Dead? ==> x.response.Failure? && forall w :: !IsGranted(configuredMax, x, c, w))
            && (status.Delivered? || status.Failed? || status.Dead?)
  {
    if x.response.Failure? {
      Retry.NextDelayByValue(Retry.Failure(x.response.status, x.response.retryAfter, c.jitter), x.snap.attempts,
                             configuredMax);
    }
  }

  predicate IsStepOf(step: Step, h: Id) {
    (step.Advance? || step.Raise? || step.Crash?) && step.handler == h
  }

  // A handler is where it was unless it takes a step itself, or is new.
  lemma OthersStay(s: Sys, step: Step, t: Sys, h: Id)
    requires Numbered(s) && Next(s, step, t) && !IsStepOf(step, h) && h in t.handlers
    ensures if h in s.handlers then t.handlers[h] == s.handlers[h] else t.handlers[h].pc.Load?
  {
    if h in s.handlers {
      OthersLeaveMine(s, {h}, step, t);
    } else {
      NewHandlersLoad(s, step, t, h);
    }
  }

  lemma NewHandlersLoad(s: Sys, step: Step, t: Sys, h: Id)
    requires Numbered(s) && Next(s, step, t) && h in t.handlers && h !in s.handlers
    ensures t.handlers[h].pc.Load?
  {
    match step {
      case Advance(k, c) => AdvanceFrame(s, k, c, t);
      case ReplayStep(r) => ReplayLeavesHandlers(s, r, t);
      case Claim(m) => assert NextClaim(s, m, t);
      case Reclaim(m) => assert NextReclaim(s, m, t);
      case Raise(k) =>
      case Crash(k) =>
      case _ => SourcesLeaveHandlers(s, step, t);
    }
  }

  // The wait of handler h was decided in this step, or before it.
  ghost predicate WaitsAsDecided(s: Sys, step: Step, t: Sys, h: Id)
    requires h in t.handlers
  {
    if IsStepOf(step, h) then step.Advance? && Decides(s, h, step.choice, t.handlers[h].delay)
    else h in s.handlers && t.handlers[h] == s.handlers[h]
  }

  lemma StepIntoWaiting(s: Sys, step: Step, t: Sys, h: Id)
    requires Numbered(s) && Next(s, step, t) && h in t.handlers && IsWaiting(t.handlers[h])
    ensures WaitsAsDecided(s, step, t, h)
  {
    if IsStepOf(step, h) {
      if step.Advance? { AdvanceYields(s, h, step.choice, t); }
    } else {
      OthersStay(s, step, t, h);
    }
  }

  // Step m of the run decided how long the delivery of handler h waits, and h has done nothing since.
  ghost predicate DecidedAt(ss: seq<Sys>, steps: seq<Step>, m: nat, n: nat, h: Id) {
    && m < n <= |steps| && n < |ss| && h in ss[n].handlers
    && steps[m].Advance? && steps[m].handler == h && Decides(ss[m], h, steps[m].choice, ss[n].handlers[h].delay)
    && forall i: nat | m < i < n :: !IsStepOf(steps[i], h)
  }

  lemma StepOfRun(ss: seq<Sys>, steps: seq<Step>, n: nat)
    requires IsRun(ss, steps) && 0 < n <= |steps|
    ensures Next(ss[n - 1], steps[n - 1], ss[n]) && Numbered(ss[n - 1])
  {
    assert Leads(ss, steps, n - 1);
    RunKeepsInv(ss, steps, n - 1);
  }

  lemma LeadIntoWaiting(ss: seq<Sys>, steps: seq<Step>, n: nat, h: Id)
    requires IsRun(ss, steps) && 0 < n <= |steps| && h in ss[n].handlers && IsWaiting(ss[n].handlers[h])
    ensures WaitsAsDecided(ss[n - 1], steps[n - 1], ss[n], h)
  {
    StepOfRun(ss, steps, n);
    StepIntoWaiting(ss[n - 1], steps[n - 1], ss[n], h);
  }

  lemma {:induction false} WaitWasDecided(ss: seq<Sys>, steps: seq<Step>, n: nat, h: Id) returns (m: nat)
    requires IsRun(ss, steps) && n <= |steps| && h in ss[n].handlers && IsWaiting(ss[n].handlers[h])
    ensures DecidedAt(ss, steps, m, n, h)
  {
    LeadIntoWaiting(ss, steps, n, h);
    if IsStepOf(steps[n - 1], h) {
      m := n - 1;
    } else {
      m := WaitWasDecided(ss, steps, n - 1, h);
    }
  }

  // A handler of d puts it on the retry queue.
  ghost predicate Schedules(s: Sys, step: Step, d: Id) {
    && step.Advance? && step.handler in s.handlers
    && s.handlers[step.handler].delivery == d && IsWaiting(s.handlers[step.handler])
  }

  lemma ZaddSchedules(s: Sys, h: Id, c: Choice, t: Sys)
    requires h in s.handlers && NextZadd(s, h, c.now, t)
    ensures var x := s.handlers[h];
            && x.delivery in t.retries && t.retries[x.delivery] == c.now + x.delay
            && forall d | d != x.delivery :: (d in t.retries <==> d in s.retries)
                                             && (d in s.retries ==> t.retries[d] == s.retries[d])
  {}

  lemma AdvanceSchedules(s: Sys, h: Id, c: Choice, t: Sys, d: Id)
    requires h in s.handlers && NextAdvance(s, h, c, t) && d in t.retries
    ensures if Schedules(s, Advance(h, c), d) then t.retries[d] == c.now + s.handlers[h].delay
            else d in s.retries && t.retries[d] == s.retries[d]
  {
    if IsWaiting(s.handlers[h]) { ZaddSchedules(s, h, c, t); } else { AdvanceYields(s, h, c, t); }
  }

  lemma ReplaySchedulesNothing(s: Sys, r: Id, t: Sys)
    requires r in s.replays && NextReplay(s, r, t)
    ensures t.retries == if s.replays[r].pc.Committed? then s.retries - {s.replays[r].delivery} else s.retries
  {
    match s.replays[r].pc {
      case Selected => ResetSchedulesNothing(s, r, t);
      case Committed => assert NextRemove(s, r, t);
      case Removed => RequeueSchedulesNothing(s, r, t);
      case Pushed => assert NextReadd(s, r, t);
    }
  }

  lemma ResetSchedulesNothing(s: Sys, r: Id, t: Sys)
    requires r in s.replays && NextReset(s, r, t)
    ensures t.retries == s.retries
  {}

  lemma RequeueSchedulesNothing(s: Sys, r: Id, t: Sys)
    requires r in s.replays && NextRequeue(s, r, t)
    ensures t.retries == s.retries
  {}

  lemma OutsideSchedulesNothing(s: Sys, step: Step, t: Sys)
    requires Next(s, step, t) && !step.Advance? && !step.ReplayStep?
    ensures t.retries == if step.MoveDue? then s.retries - {step.delivery} else s.retries
  {
    match step {
      case AddEndpoint(_) | SetEndpoint(_, _) | DeleteEndpoint(_) => assert NextEndpoint(s, step, t);
      case IngestCommit(ep) => assert NextIngestCommit(s, ep, t);
      case IngestPush(d) => assert NextIngestPush(s, d, t);
      case IngestAdd(d) => assert NextIngestAdd(s, d, t);
      case ReplaySelect(d) => assert NextReplaySelect(s, d, t);
      case MoveDue(d, now) => assert NextMoveDue(s, d, now, t);
      case Claim(m) => assert NextClaim(s, m, t);
      case Reclaim(m) => assert NextReclaim(s, m, t);
      case Raise(_) | Crash(_) | Expire(_) =>
    }
  }

  lemma StepSchedules(s: Sys, step: Step, t: Sys, d: Id)
    requires Next(s, step, t) && d in t.retries
    ensures if Schedules(s, step, d) then t.retries[d] == step.choice.now + s.handlers[step.handler].delay
            else d in s.retries && t.retries[d] == s.retries[d]
  {
    if step.Advance? {
      AdvanceSchedules(s, step.handler, step.choice, t, d);
    } else if step.ReplayStep? {
      ReplaySchedulesNothing(s, step.replay, t);
    } else {
      OutsideSchedulesNothing(s, step, t);
    }
  }

  // Step j is the last that put d on the retry queue, due when it is now.
  ghost predicate ScheduledAt(ss: seq<Sys>, steps: seq<Step>, j: nat, n: nat, d: Id) {
    && j < n <= |steps| && n < |ss| && d in ss[n].retries && Schedules(ss[j], steps[j], d)
    && ss[n].retries[d] == steps[j].choice.now + ss[j].handlers[steps[j].handler].delay
    && forall i: nat | j < i < n :: !Schedules(ss[i], steps[i], d)
  }

  lemma {:induction false} MemberWasScheduled(ss: seq<Sys>, steps: seq<Step>, n: nat, d: Id) returns (j: nat)
    requires IsRun(ss, steps) && n <= |steps| && d in ss[n].retries
    ensures ScheduledAt(ss, steps, j, n, d)
  {
    assert Leads(ss, steps, n - 1);
    StepSchedules(ss[n - 1], steps[n - 1], ss[n], d);
    if Schedules(ss[n - 1], steps[n - 1], d) {
      j := n - 1;
    } else {
      j := MemberWasScheduled(ss, steps, n - 1, d);
    }
  }

  /** Every entry of the retry queue waits as long as was decided for it: it is due at the time of the last ZADD of its
      delivery, plus the wait that the same handler's step before that, at m, decided. */
  lemma DueAsDecided(ss: seq<Sys>, steps: seq<Step>, n: nat, d: Id) returns (m: nat, j: nat, wait: real)
    requires IsRun(ss, steps) && n <= |steps| && d in ss[n].retries
    ensures m < j && ScheduledAt(ss, steps, j, n, d) && DecidedAt(ss, steps, m, j, steps[j].handler)
    ensures Decides(ss[m], steps[j].handler, steps[m].choice, wait)
    ensures ss[n].retries[d] == steps[j].choice.now + wait
  {
    j := MemberWasScheduled(ss, steps, n, d);
    m := WaitWasDecided(ss, steps, j, steps[j].handler);
    wait := ss[j].handlers[steps[j].handler].delay;
  }

  /** So nothing is retried early: a delivery goes back to its stream only once that time has come. It can then, and it
      leaves the retry queue for one new entry. */
  lemma NothingIsRetriedEarly(ss: seq<Sys>, steps: seq<Step>, n: nat, d: Id, now: real)
    returns (m: nat, j: nat, wait: real)
    requires IsRun(ss, steps) && n < |steps| && steps[n] == MoveDue(d, now)
    ensures m < j && ScheduledAt(ss, steps, j, n, d) && DecidedAt(ss, steps, m, j, steps[j].handler)
    ensures Decides(ss[m], steps[j].handler, steps[m].choice, wait) && steps[j].choice.now + wait <= now
    ensures ss[n + 1].retries == ss[n].retries - {d}
    ensures ss[n + 1].unread == ss[n].unread[ss[n].next := d] && ss[n].next !in ss[n].unread
  {
    assert Leads(ss, steps, n);
    RunKeepsInv(ss, steps, n);
    m, j, wait := DueAsDecided(ss, steps, n, d);
  }

  lemma DueCanBeMoved(s: Sys, d: Id, now: real) returns (t: Sys)
    requires d in s.retries && s.retries[d] <= now
    ensures Next(s, MoveDue(d, now), t)
  {
    t := s.(retries := s.retries - {d}, unread := s.unread[s.next := d], next := s.next + 1);
  }

  // ---- The pop ----

  predicate IsFinal(status: Status) {
    status == Delivered || status == Dead
  }

  /** What handler h's step at Pop does: if its endpoint is ordered and its snapshot says delivered or dead, the first
      occurrence of its delivery leaves the queue, which is the head if it stands there; in every other case, and for
      every other endpoint, the queue stays. */
  ghost predicate PopsIfFinal(s: Sys, h: Id, t: Sys)
    requires h in s.handlers
  {
    var x := s.handlers[h];
    var ep := x.snap.endpoint;
    var q, r := List(s.queues, ep), List(t.queues, ep);
    && (if x.ordered && IsFinal(x.snap.status) && x.delivery in q then
          && (exists k :: Ordering.IsFirst(q, x.delivery, k) && r == q[..k] + q[k + 1..])
          && (q[0] == x.delivery ==> r == q[1..])
          && Count(t.hist.popped, ep) == Count(s.hist.popped, ep) + 1
        else r == q && Count(t.hist.popped, ep) == Count(s.hist.popped, ep))
    && forall e | e != ep :: List(t.queues, e) == List(s.queues, e)
  }

  lemma SettledHeadIsPopped(s: Sys, h: Id, c: Choice, t: Sys)
    requires h in s.handlers && s.handlers[h].pc.Pop? && Next(s, Advance(h, c), t)
    ensures PopsIfFinal(s, h, t)
  {
    assert NextPop(s, h, t);
    var x := s.handlers[h];
    var q := List(s.queues, x.snap.endpoint);
    if x.delivery in q {
      var k := FirstOccurrence(q, x.delivery);
      Ordering.RemoveFirstAt(q, x.delivery, k);
    }
  }

  lemma {:induction false} FirstOccurrence(q: seq<Id>, d: Id) returns (k: nat)
    requires d in q
    ensures Ordering.IsFirst(q, d, k)
  {
    k := 0;
    if q[0] != d {
      var j := FirstOccurrence(q[1..], d);
      k := j + 1;
      assert q[..k] == [q[0]] + q[1..][..j];
    }
  }

  // Every step at Pop that handler h takes in this run.
  ghost predicate PopsAlways(ss: seq<Sys>, steps: seq<Step>, h: Id) {
    forall i: nat | i < |steps| && i + 1 < |ss| && IsPopOf(ss[i], steps[i], h) :: PopsIfFinal(ss[i], h, ss[i + 1])
  }

  predicate IsPopOf(s: Sys, step: Step, h: Id) {
    step.Advance? && step.handler == h && h in s.handlers && s.handlers[h].pc.Pop?
  }

  lemma RunsPopAlways(ss: seq<Sys>, steps: seq<Step>, h: Id)
    requires IsRun(ss, steps)
    ensures PopsAlways(ss, steps, h)
  {
    forall i: nat | i < |steps| && i + 1 < |ss| && IsPopOf(ss[i], steps[i], h)
      ensures PopsIfFinal(ss[i], h, ss[i + 1])
    {
      assert Leads(ss, steps, i);
      SettledHeadIsPopped(ss[i], h, steps[i].choice, ss[i + 1]);
    }
  }

  lemma LastStepPops(ss: seq<Sys>, steps: seq<Step>, h: Id)
    requires IsRun(ss, steps) && steps != [] && IsPopOf(ss[|steps| - 1], steps[|steps| - 1], h)
    ensures PopsIfFinal(ss[|steps| - 1], h, ss[|steps|])
  {
    assert Leads(ss, steps, |steps| - 1);
    SettledHeadIsPopped(ss[|steps| - 1], h, steps[|steps| - 1].choice, ss[|steps|]);
  }

  // ---- Exceptions ----

  // At step m handler h raised, or could not go on.
  ghost predicate FailsAt(ss: seq<Sys>, steps: seq<Step>, m: nat, h: Id) {
    && m < |steps| && m < |ss|
    && (steps[m] == Raise(h) || (steps[m].Advance? && steps[m].handler == h && GivesUp(ss[m], h, steps[m].choice)))
  }

  lemma FailedEarlier(ss: seq<Sys>, steps: seq<Step>, more: seq<Sys>, moreSteps: seq<Step>, m: nat, h: Id)
    requires FailsAt(ss, steps, m, h) && ss <= more && steps <= moreSteps
    ensures FailsAt(more, moreSteps, m, h)
  {}

  lemma StepIntoUnwind(s: Sys, step: Step, t: Sys, h: Id)
    requires Numbered(s) && Next(s, step, t) && h in t.handlers && t.handlers[h].pc.Unwind?
    ensures if IsStepOf(step, h) then step.Raise? || (step.Advance? && GivesUp(s, h, step.choice))
            else h in s.handlers && t.handlers[h] == s.handlers[h]
  {
    if IsStepOf(step, h) {
      if step.Advance? { AdvanceYields(s, h, step.choice, t); }
    } else {
      OthersStay(s, step, t, h);
    }
  }

  lemma LeadIntoUnwind(ss: seq<Sys>, steps: seq<Step>, n: nat, h: Id)
    requires IsRun(ss, steps) && 0 < n <= |steps| && h in ss[n].handlers && ss[n].handlers[h].pc.Unwind?
    ensures if IsStepOf(steps[n - 1], h) then FailsAt(ss, steps, n - 1, h)
            else h in ss[n - 1].handlers && ss[n].handlers[h] == ss[n - 1].handlers[h]
  {
    StepOfRun(ss, steps, n);
    StepIntoUnwind(ss[n - 1], steps[n - 1], ss[n], h);
  }

  /** A handler is on its way out by an exception only because an operation of its raised, or because its row or
      endpoint had been deleted. */
  lemma {:induction false} ExceptionsHaveACause(ss: seq<Sys>, steps: seq<Step>, n: nat, h: Id) returns (m: nat)
    requires IsRun(ss, steps) && n <= |steps| && h in ss[n].handlers && ss[n].handlers[h].pc.Unwind?
    ensures m < n && FailsAt(ss, steps, m, h) && forall i: nat | m < i < n :: !IsStepOf(steps[i], h)
  {
    LeadIntoUnwind(ss, steps, n, h);
    if IsStepOf(steps[n - 1], h) {
      m := n - 1;
    } else {
      m := ExceptionsHaveACause(ss, steps, n - 1, h);
    }
  }

  // ---- Replays ----

  function Earlier(pc: ReplayPc): ReplayPc
    requires !pc.Selected?
  {
    match pc
    case Committed => Selected
    case Removed => Committed
    case Pushed => Removed
  }

  // The replay r of d is created by this step, for a dead row.
  ghost predicate SelectsDead(s: Sys, step: Step, r: Id, x: Replay) {
    && step == ReplaySelect(x.delivery) && r == s.next && x.pc.Selected?
    && x.delivery in s.rows && s.rows[x.delivery].status == Dead && s.rows[x.delivery].endpoint == x.endpoint
    && x.endpoint in s.endpoints && s.endpoints[x.endpoint].ordered == x.ordered
  }

  lemma OwnReplayStep(s: Sys, r: Id, t: Sys)
    requires r in s.replays && NextReplay(s, r, t)
    ensures forall q | q != r ::
              (q in t.replays <==> q in s.replays) && (q in s.replays ==> t.replays[q] == s.replays[q])
    ensures r in t.replays ==> !t.replays[r].pc.Selected?
                               && s.replays[r] == t.replays[r].(pc := Earlier(t.replays[r].pc))
  {
    match s.replays[r].pc {
      case Selected => ResetStage(s, r, t);
      case Committed => RemoveStage(s, r, t);
      case Removed => RequeueStage(s, r, t);
      case Pushed => ReaddStage(s, r, t);
    }
  }

  lemma ResetStage(s: Sys, r: Id, t: Sys)
    requires r in s.replays && NextReset(s, r, t)
    ensures t.replays == if s.replays[r].delivery in s.rows then s.replays[r := s.replays[r].(pc := Committed)]
                         else s.replays - {r}
  {}

  lemma RemoveStage(s: Sys, r: Id, t: Sys)
    requires r in s.replays && NextRemove(s, r, t)
    ensures t.replays == s.replays[r := s.replays[r].(pc := Removed)]
  {}

  lemma ReaddStage(s: Sys, r: Id, t: Sys)
    requires r in s.replays && NextReadd(s, r, t)
    ensures t.replays == s.replays - {r}
  {}

  lemma RequeueStage(s: Sys, r: Id, t: Sys)
    requires r in s.replays && NextRequeue(s, r, t)
    ensures t.replays == s.replays[r := s.replays[r].(pc := Pushed)]
  {}

  lemma OthersLeaveReplays(s: Sys, step: Step, t: Sys)
    requires Next(s, step, t) && !step.Advance? && !step.ReplayStep? && !step.ReplaySelect?
    ensures t.replays == s.replays
  {
    match step {
      case AddEndpoint(_) | SetEndpoint(_, _) | DeleteEndpoint(_) => assert NextEndpoint(s, step, t);
      case IngestCommit(ep) => assert NextIngestCommit(s, ep, t);
      case IngestPush(d) => assert NextIngestPush(s, d, t);
      case IngestAdd(d) => assert NextIngestAdd(s, d, t);
      case MoveDue(d, now) => assert NextMoveDue(s, d, now, t);
      case Claim(m) => assert NextClaim(s, m, t);
      case Reclaim(m) => assert NextReclaim(s, m, t);
      case Raise(_) | Crash(_) | Expire(_) =>
    }
  }

  lemma StepIntoStage(s: Sys, step: Step, t: Sys, r: Id)
    requires Next(s, step, t) && r in t.replays
    ensures || (r in s.replays && t.replays[r] == s.replays[r])
            || (step == ReplayStep(r) && r in s.replays && !t.replays[r].pc.Selected?
                && s.replays[r] == t.replays[r].(pc := Earlier(t.replays[r].pc)))
            || SelectsDead(s, step, r, t.replays[r])
  {
    match step {
      case Advance(h, c) => AdvanceFrame(s, h, c, t);
      case ReplayStep(q) => OwnReplayStep(s, q, t);
      case ReplaySelect(d) => assert NextReplaySelect(s, d, t);
      case _ => OthersLeaveReplays(s, step, t);
    }
  }

  // Step m of replay r led to where it is at n.
  ghost predicate StageAt(ss: seq<Sys>, steps: seq<Step>, m: nat, n: nat, r: Id) {
    && m < n <= |steps| && n < |ss| && r in ss[n].replays && !ss[n].replays[r].pc.Selected?
    && steps[m] == ReplayStep(r) && r in ss[m].replays && r in ss[m + 1].replays
    && ss[m].replays[r] == ss[n].replays[r].(pc := Earlier(ss[n].replays[r].pc))
  }

  lemma {:induction false} StageBefore(ss: seq<Sys>, steps: seq<Step>, n: nat, r: Id) returns (m: nat)
    requires IsRun(ss, steps) && n <= |steps| && r in ss[n].replays
    ensures if ss[n].replays[r].pc.Selected? then m < n && SelectsDead(ss[m], steps[m], r, ss[n].replays[r])
            else StageAt(ss, steps, m, n, r)
  {
    assert Leads(ss, steps, n - 1);
    StepIntoStage(ss[n - 1], steps[n - 1], ss[n], r);
    m := n - 1;
    if r in ss[n - 1].replays && ss[n].replays[r] == ss[n - 1].replays[r] { m := StageBefore(ss, steps, n - 1, r); }
  }

  lemma ResetRestarts(s: Sys, r: Id, t: Sys)
    requires r in s.replays && s.replays[r].pc.Selected? && NextReplay(s, r, t)
    ensures var d := s.replays[r].delivery;
            t.rows == if d in s.rows then s.rows[d := Row(s.rows[d].endpoint, Pending, 0)] else s.rows
    ensures r in t.replays <==> s.replays[r].delivery in s.rows
  {
    assert NextReset(s, r, t);
  }

  lemma RequeueAppends(s: Sys, r: Id, t: Sys)
    requires r in s.replays && s.replays[r].pc.Removed? && NextReplay(s, r, t)
    ensures var x := s.replays[r];
            forall ep: Id :: List(t.queues, ep) == List(s.queues, ep)
                                                   + if x.ordered && ep == x.endpoint then [x.delivery] else []
  {
    assert NextRequeue(s, r, t);
  }

  lemma ReaddAdds(s: Sys, r: Id, t: Sys)
    requires r in s.replays && s.replays[r].pc.Pushed? && NextReplay(s, r, t)
    ensures t.unread == s.unread[s.next := s.replays[r].delivery] && r !in t.replays
  {
    assert NextReadd(s, r, t);
  }

  /** What a replay has done by the time it XADDs, at step n, in this order: at a the delivery's row was dead; at b it
      was reset to pending with no attempts; at c the delivery left the retry queue, and at q it joined the end of its
      endpoint's queue, if that is ordered; and at n it gets one new entry. */
  lemma ReplayRestarts(ss: seq<Sys>, steps: seq<Step>, n: nat, r: Id) returns (a: nat, b: nat, c: nat, q: nat)
    requires IsRun(ss, steps) && n < |steps| && steps[n] == ReplayStep(r)
    requires r in ss[n].replays && ss[n].replays[r].pc.Pushed?
    ensures a < b < c < q < n && steps[b] == steps[c] == steps[q] == ReplayStep(r)
    ensures var x := ss[n].replays[r];
            && SelectsDead(ss[a], steps[a], r, x.(pc := Selected))
            && x.delivery in ss[b].rows
            && ss[b + 1].rows == ss[b].rows[x.delivery := Row(ss[b].rows[x.delivery].endpoint, Pending, 0)]
            && ss[c + 1].retries == ss[c].retries - {x.delivery}
            && (forall ep: Id :: List(ss[q + 1].queues, ep) == List(ss[q].queues, ep)
                                   + if x.ordered && ep == x.endpoint then [x.delivery] else [])
            && ss[n + 1].unread == ss[n].unread[ss[n].next := x.delivery] && r !in ss[n + 1].replays
  {
    q := StageBefore(ss, steps, n, r);
    c := StageBefore(ss, steps, q, r);
    b := StageBefore(ss, steps, c, r);
    a := StageBefore(ss, steps, b, r);
    assert Leads(ss, steps, b) && Leads(ss, steps, c) && Leads(ss, steps, q) && Leads(ss, steps, n);
    ResetRestarts(ss[b], r, ss[b + 1]);
    ReplaySchedulesNothing(ss[c], r, ss[c + 1]);
    RequeueAppends(ss[q], r, ss[q + 1]);
    ReaddAdds(ss[n], r, ss[n + 1]);
  }
}
