/**
 Mutual exclusion on ordered endpoints, over runs in which no lock expires under a handler that still holds it. Crashes,
 exceptions, duplicates, reclaimed live work and replays are all allowed.
 */
module OrderedLock {
  import opened Protocol
  import opened AtLeastOnce

  /** A step that leaves every lock holder inside its lease. */
  predicate KeepsLeases(s: Sys, step: Step) {
    step.Expire? && step.endpoint in s.locks ==>
      !(s.locks[step.endpoint] in s.handlers && s.handlers[s.locks[step.endpoint]].locked)
  }

  ghost predicate IsLeasedRun(ss: seq<Sys>, steps: seq<Step>) {
    IsRun(ss, steps) && forall i: nat | i < |steps| :: KeepsLeases(ss[i], steps[i])
  }

  predicate PastLoad(x: Handler) {
    !x.pc.Load? && !x.pc.Ack? && !x.pc.Unwind?
  }

  predicate PastEndpoint(x: Handler) {
    PastLoad(x) && !x.pc.LoadEndpoint?
  }

  // Between the head check and the end of the critical section.
  predicate HasTurn(x: Handler) {
    x.pc.Gates? || x.pc.Begin? || Mid(x) || x.pc.Schedule? || x.pc.Refresh? || x.pc.Pop?
  }

  predicate InSection(x: Handler) {
    x.pc.Peek? || x.pc.NotHead? || HasTurn(x)
  }

  // ---- The invariant ----

  predicate LockOk(s: Sys, h: Id, x: Handler) {
    && (x.locked ==> !x.pc.Load? && !x.pc.LoadEndpoint? && !x.pc.Lock? && !x.pc.Ack?
                     && x.snap.endpoint in s.locks && s.locks[x.snap.endpoint] == h)
    && (x.ordered && InSection(x) ==> x.locked)
    && (x.pc.Lock? || x.pc.Peek? || x.pc.NotHead? ==> x.ordered)
  }

  // A handler's snapshot names its delivery's endpoint, whose ordering it knows; neither ever changes.
  predicate OrderingOk(s: Sys, x: Handler) {
    var ep := x.snap.endpoint;
    && (PastLoad(x) ==> ep < s.next && (x.delivery in s.rows ==> s.rows[x.delivery].endpoint == ep))
    && (PastEndpoint(x) && ep in s.endpoints ==> x.ordered == s.endpoints[ep].ordered)
  }

  ghost predicate Locks(s: Sys) {
    && (forall h | h in s.handlers :: LockOk(s, h, s.handlers[h]) && OrderingOk(s, s.handlers[h]))
    && (forall ep | ep in s.endpoints :: ep < s.next)
    && (forall d | d in s.rows :: s.rows[d].endpoint < s.next)
  }

  /** Two handlers in one ordered endpoint's critical section are one. */
  lemma SectionIsExclusive(s: Sys, h: Id, k: Id)
    requires Locks(s) && h in s.handlers && k in s.handlers
    requires s.handlers[h].ordered && InSection(s.handlers[h]) && s.handlers[k].ordered && InSection(s.handlers[k])
    requires s.handlers[h].snap.endpoint == s.handlers[k].snap.endpoint
    ensures h == k
  {
    assert LockOk(s, h, s.handlers[h]) && LockOk(s, k, s.handlers[k]);
  }

  // ---- A handler's step ----

  // Handler h goes on or is gone, and no other handler's lock goes.
  ghost predicate LockMoves(s: Sys, h: Id, t: Sys) {
    && h in s.handlers && t.next == s.next
    && t.handlers == (if h in t.handlers then s.handlers[h := t.handlers[h]] else s.handlers - {h})
    && (forall e | e in s.locks && s.locks[e] != h :: e in t.locks && t.locks[e] == s.locks[e])
    && t.endpoints.Keys == s.endpoints.Keys
    && (forall e | e in s.endpoints :: t.endpoints[e].ordered == s.endpoints[e].ordered)
    && (forall d | d in t.rows :: d in s.rows && t.rows[d].endpoint == s.rows[d].endpoint)
    && (h in t.handlers ==> LockOk(t, h, t.handlers[h]) && OrderingOk(t, t.handlers[h]))
  }

  lemma LockMove(s: Sys, h: Id, t: Sys)
    requires Locks(s) && LockMoves(s, h, t)
    ensures Locks(t)
  {
    forall k | k in t.handlers ensures LockOk(t, k, t.handlers[k]) && OrderingOk(t, t.handlers[k]) {
      if k != h { assert LockOk(s, k, s.handlers[k]) && OrderingOk(s, s.handlers[k]); }
    }
  }

  lemma FailKeepsLocks(s: Sys, h: Id)
    requires Locks(s) && h in s.handlers
    ensures Locks(Fail(s, h))
  {
    assert LockOk(s, h, s.handlers[h]) && OrderingOk(s, s.handlers[h]);
    LockMove(s, h, Fail(s, h));
  }

  lemma LoadKeepsLocks(s: Sys, h: Id, t: Sys)
    requires Locks(s) && h in s.handlers && NextLoad(s, h, t)
    ensures Locks(t)
  {
    assert LockOk(s, h, s.handlers[h]) && OrderingOk(s, s.handlers[h]);
    LockMove(s, h, t);
  }

  lemma LoadEndpointKeepsLocks(s: Sys, h: Id, t: Sys)
    requires Locks(s) && h in s.handlers && NextLoadEndpoint(s, h, t)
    ensures Locks(t)
  {
    assert LockOk(s, h, s.handlers[h]) && OrderingOk(s, s.handlers[h]);
    LockMove(s, h, t);
  }

  lemma LockKeepsLocks(s: Sys, h: Id, t: Sys)
    requires Locks(s) && h in s.handlers && NextLock(s, h, t)
    ensures Locks(t)
  {
    assert LockOk(s, h, s.handlers[h]) && OrderingOk(s, s.handlers[h]);
    LockMove(s, h, t);
  }

  lemma PeekKeepsLocks(s: Sys, h: Id, t: Sys)
    requires Locks(s) && h in s.handlers && NextPeek(s, h, t)
    ensures Locks(t)
  {
    assert LockOk(s, h, s.handlers[h]) && OrderingOk(s, s.handlers[h]);
    LockMove(s, h, t);
  }

  lemma NotHeadKeepsLocks(s: Sys, h: Id, t: Sys)
    requires Locks(s) && h in s.handlers && NextNotHead(s, h, t)
    ensures Locks(t)
  {
    assert LockOk(s, h, s.handlers[h]) && OrderingOk(s, s.handlers[h]);
    LockMove(s, h, t);
  }

  lemma GatesKeepsLocks(s: Sys, h: Id, gate: Gate, t: Sys)
    requires Locks(s) && h in s.handlers && NextGates(s, h, gate, t)
    ensures Locks(t)
  {
    assert LockOk(s, h, s.handlers[h]) && OrderingOk(s, s.handlers[h]);
    LockMove(s, h, t);
  }

  lemma BeginKeepsLocks(s: Sys, h: Id, t: Sys)
    requires Locks(s) && h in s.handlers && NextBegin(s, h, t)
    ensures Locks(t)
  {
    assert LockOk(s, h, s.handlers[h]) && OrderingOk(s, s.handlers[h]);
    LockMove(s, h, t);
  }

  lemma PostKeepsLocks(s: Sys, h: Id, t: Sys)
    requires Locks(s) && h in s.handlers && NextPost(s, h, t)
    ensures Locks(t)
  {
    assert LockOk(s, h, s.handlers[h]) && OrderingOk(s, s.handlers[h]);
    LockMove(s, h, t);
  }

  lemma WaitKeepsLocks(s: Sys, h: Id, response: Response, t: Sys)
    requires Locks(s) && h in s.handlers && NextWait(s, h, response, t)
    ensures Locks(t)
  {
    assert LockOk(s, h, s.handlers[h]) && OrderingOk(s, s.handlers[h]);
    LockMove(s, h, t);
  }

  lemma ConcludeKeepsLocks(s: Sys, h: Id, jitter: real, t: Sys)
    requires Locks(s) && h in s.handlers && NextConclude(s, h, jitter, t)
    ensures Locks(t)
  {
    assert LockOk(s, h, s.handlers[h]) && OrderingOk(s, s.handlers[h]);
    LockMove(s, h, t);
  }

  lemma ZaddKeepsLocks(s: Sys, h: Id, now: real, t: Sys)
    requires Locks(s) && h in s.handlers && NextZadd(s, h, now, t)
    ensures Locks(t)
  {
    assert LockOk(s, h, s.handlers[h]) && OrderingOk(s, s.handlers[h]);
    LockMove(s, h, t);
  }

  lemma RefreshKeepsLocks(s: Sys, h: Id, t: Sys)
    requires Locks(s) && h in s.handlers && NextRefresh(s, h, t)
    ensures Locks(t)
  {
    assert LockOk(s, h, s.handlers[h]) && OrderingOk(s, s.handlers[h]);
    LockMove(s, h, t);
  }

  lemma PopKeepsLocks(s: Sys, h: Id, t: Sys)
    requires Locks(s) && h in s.handlers && NextPop(s, h, t)
    ensures Locks(t)
  {
    assert LockOk(s, h, s.handlers[h]) && OrderingOk(s, s.handlers[h]);
    LockMove(s, h, t);
  }

  lemma UnlockKeepsLocks(s: Sys, h: Id, t: Sys)
    requires Locks(s) && h in s.handlers && NextUnlock(s, h, t)
    ensures Locks(t)
  {
    assert LockOk(s, h, s.handlers[h]) && OrderingOk(s, s.handlers[h]);
    LockMove(s, h, t);
  }

  lemma LeaveKeepsLocks(s: Sys, h: Id, t: Sys)
    requires Locks(s) && h in s.handlers && NextLeave(s, h, t)
    ensures Locks(t)
  {
    assert LockOk(s, h, s.handlers[h]) && OrderingOk(s, s.handlers[h]);
    LockMove(s, h, t);
  }

  lemma CrashKeepsLocks(s: Sys, h: Id, t: Sys)
    requires Locks(s) && NextCrash(s, h, t)
    ensures Locks(t)
  {
    LockMove(s, h, t);
  }

  lemma AdvanceKeepsLocks(s: Sys, h: Id, c: Choice, t: Sys)
    requires Locks(s) && h in s.handlers && NextAdvance(s, h, c, t)
    ensures Locks(t)
  {
    match s.handlers[h].pc {
      case Load => LoadKeepsLocks(s, h, t);
      case LoadEndpoint => LoadEndpointKeepsLocks(s, h, t);
      case Lock => LockKeepsLocks(s, h, t);
      case Peek => PeekKeepsLocks(s, h, t);
      case NotHead => NotHeadKeepsLocks(s, h, t);
      case Gates => GatesKeepsLocks(s, h, c.gate, t);
      case Begin => BeginKeepsLocks(s, h, t);
      case Post => PostKeepsLocks(s, h, t);
      case Wait => WaitKeepsLocks(s, h, c.response, t);
      case Conclude => ConcludeKeepsLocks(s, h, c.jitter, t);
      case Schedule | Defer => ZaddKeepsLocks(s, h, c.now, t);
      case Refresh => RefreshKeepsLocks(s, h, t);
      case Pop => PopKeepsLocks(s, h, t);
      case Unlock => UnlockKeepsLocks(s, h, t);
      case Ack | Unwind => LeaveKeepsLocks(s, h, t);
    }
  }

  // ---- All other steps ----

  // Handlers are only added, at Load; held locks stay; endpoints keep their ordering.
  ghost predicate Widens(s: Sys, t: Sys) {
    && s.next <= t.next
    && (forall h | h in t.handlers :: (h in s.handlers && t.handlers[h] == s.handlers[h])
                                      || (t.handlers[h].pc.Load? && !t.handlers[h].locked))
    && (forall e | e in s.locks && s.locks[e] in s.handlers && s.handlers[s.locks[e]].locked ::
          e in t.locks && t.locks[e] == s.locks[e])
    && (forall e | e in t.endpoints :: e < t.next)
    && (forall e | e in t.endpoints && e < s.next ::
          e in s.endpoints && t.endpoints[e].ordered == s.endpoints[e].ordered)
    && (forall d | d in t.rows :: t.rows[d].endpoint < t.next)
    && (forall d | d in t.rows && d < s.next :: d in s.rows && t.rows[d].endpoint == s.rows[d].endpoint)
  }

  lemma WideningKeepsLocks(s: Sys, t: Sys)
    requires Locks(s) && Numbered(s) && Widens(s, t)
    ensures Locks(t)
  {
    forall k | k in t.handlers ensures LockOk(t, k, t.handlers[k]) && OrderingOk(t, t.handlers[k]) {
      if k in s.handlers { assert LockOk(s, k, s.handlers[k]) && OrderingOk(s, s.handlers[k]); }
    }
  }

  lemma EndpointKeepsLocks(s: Sys, step: Step, t: Sys)
    requires Locks(s) && Numbered(s) && NextEndpoint(s, step, t)
    ensures Locks(t)
  {
    WideningKeepsLocks(s, t);
  }

  lemma IngestCommitKeepsLocks(s: Sys, ep: Id, t: Sys)
    requires Locks(s) && Numbered(s) && NextIngestCommit(s, ep, t)
    ensures Locks(t)
  {
    WideningKeepsLocks(s, t);
  }

  lemma IngestPushKeepsLocks(s: Sys, d: Id, t: Sys)
    requires Locks(s) && Numbered(s) && NextIngestPush(s, d, t)
    ensures Locks(t)
  {
    WideningKeepsLocks(s, t);
  }

  lemma IngestAddKeepsLocks(s: Sys, d: Id, t: Sys)
    requires Locks(s) && Numbered(s) && NextIngestAdd(s, d, t)
    ensures Locks(t)
  {
    WideningKeepsLocks(s, t);
  }

  lemma SelectKeepsLocks(s: Sys, d: Id, t: Sys)
    requires Locks(s) && Numbered(s) && NextReplaySelect(s, d, t)
    ensures Locks(t)
  {
    WideningKeepsLocks(s, t);
  }

  lemma ResetKeepsLocks(s: Sys, r: Id, t: Sys)
    requires Locks(s) && Numbered(s) && r in s.replays && NextReset(s, r, t)
    ensures Locks(t)
  {
    WideningKeepsLocks(s, t);
  }

  lemma RemoveKeepsLocks(s: Sys, r: Id, t: Sys)
    requires Locks(s) && Numbered(s) && r in s.replays && NextRemove(s, r, t)
    ensures Locks(t)
  {
    WideningKeepsLocks(s, t);
  }

  lemma RequeueKeepsLocks(s: Sys, r: Id, t: Sys)
    requires Locks(s) && Numbered(s) && r in s.replays && NextRequeue(s, r, t)
    ensures Locks(t)
  {
    WideningKeepsLocks(s, t);
  }

  lemma ReaddKeepsLocks(s: Sys, r: Id, t: Sys)
    requires Locks(s) && Numbered(s) && r in s.replays && NextReadd(s, r, t)
    ensures Locks(t)
  {
    WideningKeepsLocks(s, t);
  }

  lemma MoveDueKeepsLocks(s: Sys, d: Id, now: real, t: Sys)
    requires Locks(s) && Numbered(s) && NextMoveDue(s, d, now, t)
    ensures Locks(t)
  {
    WideningKeepsLocks(s, t);
  }

  lemma ClaimKeepsLocks(s: Sys, m: Id, t: Sys)
    requires Locks(s) && Numbered(s) && NextClaim(s, m, t)
    ensures Locks(t)
  {
    WideningKeepsLocks(s, t);
  }

  lemma ReclaimKeepsLocks(s: Sys, m: Id, t: Sys)
    requires Locks(s) && Numbered(s) && NextReclaim(s, m, t)
    ensures Locks(t)
  {
    WideningKeepsLocks(s, t);
  }

  lemma ReplayKeepsLocks(s: Sys, r: Id, t: Sys)
    requires Locks(s) && Numbered(s) && r in s.replays && NextReplay(s, r, t)
    ensures Locks(t)
  {
    match s.replays[r].pc {
      case Selected => ResetKeepsLocks(s, r, t);
      case Committed => RemoveKeepsLocks(s, r, t);
      case Removed => RequeueKeepsLocks(s, r, t);
      case Pushed => ReaddKeepsLocks(s, r, t);
    }
  }

  lemma ExpiryKeepsLocks(s: Sys, ep: Id)
    requires Locks(s) && Numbered(s) && ep in s.locks && KeepsLeases(s, Expire(ep))
    ensures Locks(s.(locks := s.locks - {ep}))
  {
    WideningKeepsLocks(s, s.(locks := s.locks - {ep}));
  }

  lemma StepKeepsLocks(s: Sys, step: Step, t: Sys)
    requires Locks(s) && Numbered(s) && Next(s, step, t) && KeepsLeases(s, step)
    ensures Locks(t)
  {
    match step {
      case AddEndpoint(_) | SetEndpoint(_, _) | DeleteEndpoint(_) => EndpointKeepsLocks(s, step, t);
      case IngestCommit(ep) => IngestCommitKeepsLocks(s, ep, t);
      case IngestPush(d) => IngestPushKeepsLocks(s, d, t);
      case IngestAdd(d) => IngestAddKeepsLocks(s, d, t);
      case ReplaySelect(d) => SelectKeepsLocks(s, d, t);
      case ReplayStep(r) => ReplayKeepsLocks(s, r, t);
      case MoveDue(d, now) => MoveDueKeepsLocks(s, d, now, t);
      case Claim(m) => ClaimKeepsLocks(s, m, t);
      case Reclaim(m) => ReclaimKeepsLocks(s, m, t);
      case Advance(h, c) => AdvanceKeepsLocks(s, h, c, t);
      case Raise(h) => FailKeepsLocks(s, h);
      case Crash(h) => CrashKeepsLocks(s, h, t);
      case Expire(ep) => ExpiryKeepsLocks(s, ep);
    }
  }

  lemma {:induction false} RunKeepsLocks(ss: seq<Sys>, steps: seq<Step>, n: nat)
    requires IsLeasedRun(ss, steps) && n <= |steps|
    ensures Locks(ss[n])
  {
    if n > 0 {
      RunKeepsLocks(ss, steps, n - 1);
      RunKeepsInv(ss, steps, n - 1);
      assert Leads(ss, steps, n - 1);
      StepKeepsLocks(ss[n - 1], steps[n - 1], ss[n]);
    }
  }

  // ---- Locks that nobody will release ----

  /** The endpoint's lock carries the name of a handler that does not hold it: it is gone, or has stopped caring. */
  ghost predicate IsOrphan(s: Sys, ep: Id) {
    && ep in s.locks
    && !(s.locks[ep] in s.handlers && s.handlers[s.locks[ep]].locked && s.handlers[s.locks[ep]].snap.endpoint == ep)
  }

  /** Such a step orphans it: its holder crashes, or raises between taking the lock and the `try` whose `finally` would
      release it. */
  ghost predicate Orphans(s: Sys, step: Step, ep: Id) {
    && ep in s.locks && !IsOrphan(s, ep)
    && var h := s.locks[ep];
       step == Crash(h) || (step == Raise(h) && (s.handlers[h].pc.Peek? || s.handlers[h].pc.NotHead?))
  }

  // A handler's own step takes a lock that is free, releases its own, and leaves all others, orphaned or not.
  ghost predicate MindsItsLock(s: Sys, h: Id, t: Sys) {
    forall e: Id :: IsOrphan(t, e) <==> IsOrphan(s, e)
  }

  lemma LoadMindsItsLock(s: Sys, h: Id, t: Sys)
    requires Locks(s) && h in s.handlers && NextLoad(s, h, t)
    ensures MindsItsLock(s, h, t)
  {
    assert LockOk(s, h, s.handlers[h]);
  }

  lemma LoadEndpointMindsItsLock(s: Sys, h: Id, t: Sys)
    requires Locks(s) && h in s.handlers && NextLoadEndpoint(s, h, t)
    ensures MindsItsLock(s, h, t)
  {}

  lemma LockMindsItsLock(s: Sys, h: Id, t: Sys)
    requires Locks(s) && h in s.handlers && NextLock(s, h, t)
    ensures MindsItsLock(s, h, t)
  {
    assert LockOk(s, h, s.handlers[h]);
  }

  lemma PeekMindsItsLock(s: Sys, h: Id, t: Sys)
    requires Locks(s) && h in s.handlers && NextPeek(s, h, t)
    ensures MindsItsLock(s, h, t)
  {}

  lemma NotHeadMindsItsLock(s: Sys, h: Id, t: Sys)
    requires Locks(s) && h in s.handlers && NextNotHead(s, h, t)
    ensures MindsItsLock(s, h, t)
  {
    assert LockOk(s, h, s.handlers[h]);
  }

  lemma GatesMindItsLock(s: Sys, h: Id, gate: Gate, t: Sys)
    requires Locks(s) && h in s.handlers && NextGates(s, h, gate, t)
    ensures MindsItsLock(s, h, t)
  {}

  lemma BeginMindsItsLock(s: Sys, h: Id, t: Sys)
    requires Locks(s) && h in s.handlers && NextBegin(s, h, t)
    ensures MindsItsLock(s, h, t)
  {}

  lemma PostMindsItsLock(s: Sys, h: Id, t: Sys)
    requires Locks(s) && h in s.handlers && NextPost(s, h, t)
    ensures MindsItsLock(s, h, t)
  {}

  lemma WaitMindsItsLock(s: Sys, h: Id, response: Response, t: Sys)
    requires Locks(s) && h in s.handlers && NextWait(s, h, response, t)
    ensures MindsItsLock(s, h, t)
  {}

  lemma ConcludeMindsItsLock(s: Sys, h: Id, jitter: real, t: Sys)
    requires Locks(s) && h in s.handlers && NextConclude(s, h, jitter, t)
    ensures MindsItsLock(s, h, t)
  {}

  lemma ZaddMindsItsLock(s: Sys, h: Id, now: real, t: Sys)
    requires Locks(s) && h in s.handlers && NextZadd(s, h, now, t)
    ensures MindsItsLock(s, h, t)
  {}

  lemma RefreshMindsItsLock(s: Sys, h: Id, t: Sys)
    requires Locks(s) && h in s.handlers && NextRefresh(s, h, t)
    ensures MindsItsLock(s, h, t)
  {
    assert OrderingOk(s, s.handlers[h]);
  }

  lemma PopMindsItsLock(s: Sys, h: Id, t: Sys)
    requires Locks(s) && h in s.handlers && NextPop(s, h, t)
    ensures MindsItsLock(s, h, t)
  {}

  lemma UnlockMindsItsLock(s: Sys, h: Id, t: Sys)
    requires Locks(s) && h in s.handlers && NextUnlock(s, h, t)
    ensures MindsItsLock(s, h, t)
  {
    assert LockOk(s, h, s.handlers[h]);
  }

  lemma LeaveMindsItsLock(s: Sys, h: Id, t: Sys)
    requires Locks(s) && h in s.handlers && NextLeave(s, h, t)
    ensures MindsItsLock(s, h, t)
  {
    assert LockOk(s, h, s.handlers[h]);
  }

  lemma AdvanceMindsItsLock(s: Sys, h: Id, c: Choice, t: Sys)
    requires Locks(s) && h in s.handlers && NextAdvance(s, h, c, t)
    ensures MindsItsLock(s, h, t)
  {
    match s.handlers[h].pc {
      case Load => LoadMindsItsLock(s, h, t);
      case LoadEndpoint => LoadEndpointMindsItsLock(s, h, t);
      case Lock => LockMindsItsLock(s, h, t);
      case Peek => PeekMindsItsLock(s, h, t);
      case NotHead => NotHeadMindsItsLock(s, h, t);
      case Gates => GatesMindItsLock(s, h, c.gate, t);
      case Begin => BeginMindsItsLock(s, h, t);
      case Post => PostMindsItsLock(s, h, t);
      case Wait => WaitMindsItsLock(s, h, c.response, t);
      case Conclude => ConcludeMindsItsLock(s, h, c.jitter, t);
      case Schedule | Defer => ZaddMindsItsLock(s, h, c.now, t);
      case Refresh => RefreshMindsItsLock(s, h, t);
      case Pop => PopMindsItsLock(s, h, t);
      case Unlock => UnlockMindsItsLock(s, h, t);
      case Ack | Unwind => LeaveMindsItsLock(s, h, t);
    }
  }

  // The steps that are not a handler's leave locks and those who hold them.
  lemma OutsideLeavesLocks(s: Sys, step: Step, t: Sys)
    requires Numbered(s) && Next(s, step, t) && !step.Advance? && !step.Raise? && !step.Crash?
    ensures t.locks == if step.Expire? then s.locks - {step.endpoint} else s.locks
    ensures forall h | h in t.handlers && t.handlers[h].locked :: h in s.handlers && t.handlers[h] == s.handlers[h]
    ensures forall h | h in s.handlers :: h in t.handlers && t.handlers[h] == s.handlers[h]
  {
    match step {
      case AddEndpoint(_) | SetEndpoint(_, _) | DeleteEndpoint(_) => assert NextEndpoint(s, step, t);
      case IngestCommit(ep) => assert NextIngestCommit(s, ep, t);
      case IngestPush(d) => assert NextIngestPush(s, d, t);
      case IngestAdd(d) => assert NextIngestAdd(s, d, t);
      case ReplaySelect(d) => assert NextReplaySelect(s, d, t);
      case ReplayStep(r) => ReplayLeavesLocks(s, r, t);
      case MoveDue(d, now) => assert NextMoveDue(s, d, now, t);
      case Claim(m) => assert NextClaim(s, m, t);
      case Reclaim(m) => assert NextReclaim(s, m, t);
      case Expire(_) =>
    }
  }

  lemma ReplayLeavesLocks(s: Sys, r: Id, t: Sys)
    requires r in s.replays && NextReplay(s, r, t)
    ensures t.locks == s.locks && t.handlers == s.handlers
  {
    match s.replays[r].pc {
      case Selected => ResetLeavesLocks(s, r, t);
      case Committed => assert NextRemove(s, r, t);
      case Removed => RequeueLeavesLocks(s, r, t);
      case Pushed => assert NextReadd(s, r, t);
    }
  }

  lemma ResetLeavesLocks(s: Sys, r: Id, t: Sys)
    requires r in s.replays && NextReset(s, r, t)
    ensures t.locks == s.locks && t.handlers == s.handlers
  {}

  lemma RequeueLeavesLocks(s: Sys, r: Id, t: Sys)
    requires r in s.replays && NextRequeue(s, r, t)
    ensures t.locks == s.locks && t.handlers == s.handlers
  {}

  // What becomes of the endpoint's lock in this step.
  ghost predicate FateOfLock(s: Sys, step: Step, t: Sys, ep: Id) {
    IsOrphan(t, ep) <==> if IsOrphan(s, ep) then step != Expire(ep) else Orphans(s, step, ep)
  }

  lemma AdvanceFate(s: Sys, h: Id, c: Choice, t: Sys, ep: Id)
    requires Locks(s) && h in s.handlers && NextAdvance(s, h, c, t)
    ensures FateOfLock(s, Advance(h, c), t, ep)
  {
    AdvanceMindsItsLock(s, h, c, t);
  }

  lemma RaiseFate(s: Sys, h: Id, t: Sys, ep: Id)
    requires Locks(s) && h in s.handlers && t == Fail(s, h)
    ensures FateOfLock(s, Raise(h), t, ep)
  {
    assert LockOk(s, h, s.handlers[h]);
  }

  lemma CrashFate(s: Sys, h: Id, t: Sys, ep: Id)
    requires NextCrash(s, h, t)
    ensures FateOfLock(s, Crash(h), t, ep)
  {}

  lemma OutsideFate(s: Sys, step: Step, t: Sys, ep: Id)
    requires Numbered(s) && Next(s, step, t) && KeepsLeases(s, step)
    requires !step.Advance? && !step.Raise? && !step.Crash?
    ensures FateOfLock(s, step, t, ep)
  {
    OutsideLeavesLocks(s, step, t);
    HoldersStay(s, step, t, ep);
  }

  lemma HoldersStay(s: Sys, step: Step, t: Sys, ep: Id)
    requires KeepsLeases(s, step) && !step.Advance? && !step.Raise? && !step.Crash?
    requires t.locks == if step.Expire? then s.locks - {step.endpoint} else s.locks
    requires forall h | h in t.handlers && t.handlers[h].locked :: h in s.handlers && t.handlers[h] == s.handlers[h]
    requires forall h | h in s.handlers :: h in t.handlers && t.handlers[h] == s.handlers[h]
    ensures FateOfLock(s, step, t, ep)
  {}

  /** Who releases what: while no lock expires under a live holder, every other step leaves no lock behind. A lock is
      orphaned by exactly the steps named above, and an orphan lasts exactly until it expires. */
  lemma OrphansExactly(s: Sys, step: Step, t: Sys, ep: Id)
    requires Locks(s) && Numbered(s) && Next(s, step, t) && KeepsLeases(s, step)
    ensures FateOfLock(s, step, t, ep)
  {
    if step.Advance? {
      AdvanceFate(s, step.handler, step.choice, t, ep);
    } else if step.Raise? {
      RaiseFate(s, step.handler, t, ep);
    } else if step.Crash? {
      CrashFate(s, step.handler, t, ep);
    } else {
      OutsideFate(s, step, t, ep);
    }
  }

  // Step m orphaned the lock, and it has not expired since.
  ghost predicate OrphanedSince(ss: seq<Sys>, steps: seq<Step>, ep: Id, m: nat, n: nat)
    requires IsRun(ss, steps) && n <= |steps|
  {
    m < n && Orphans(ss[m], steps[m], ep) && forall i: nat | m < i < n :: steps[i] != Expire(ep)
  }

  ghost predicate WasOrphaned(ss: seq<Sys>, steps: seq<Step>, ep: Id, n: nat)
    requires IsRun(ss, steps) && n <= |steps|
  {
    exists m: nat :: OrphanedSince(ss, steps, ep, m, n)
  }

  /** Hence, over runs: every way through a handler but those two releases the lock it took, so a lock that nobody holds
      is one that was left behind in one of them, and keeps its endpoint waiting until it expires. */
  lemma {:induction false} OrphanedExactlySince(ss: seq<Sys>, steps: seq<Step>, ep: Id, n: nat)
    requires IsLeasedRun(ss, steps) && n <= |steps|
    ensures IsOrphan(ss[n], ep) <==> WasOrphaned(ss, steps, ep, n)
  {
    if n > 0 {
      OrphanedExactlySince(ss, steps, ep, n - 1);
      LeadOrphans(ss, steps, ep, n);
      if IsOrphan(ss[n - 1], ep) {
        var m: nat :| OrphanedSince(ss, steps, ep, m, n - 1);
        if steps[n - 1] != Expire(ep) {
          assert OrphanedSince(ss, steps, ep, m, n);
        } else {
          forall k: nat ensures !OrphanedSince(ss, steps, ep, k, n) {}
        }
      } else if Orphans(ss[n - 1], steps[n - 1], ep) {
        assert OrphanedSince(ss, steps, ep, n - 1, n);
      } else {
        forall k: nat ensures !OrphanedSince(ss, steps, ep, k, n) { assert !OrphanedSince(ss, steps, ep, k, n - 1); }
      }
    }
  }

  lemma LeadOrphans(ss: seq<Sys>, steps: seq<Step>, ep: Id, n: nat)
    requires IsLeasedRun(ss, steps) && 0 < n <= |steps|
    ensures FateOfLock(ss[n - 1], steps[n - 1], ss[n], ep)
  {
    RunKeepsLocks(ss, steps, n - 1);
    RunKeepsInv(ss, steps, n - 1);
    assert Leads(ss, steps, n - 1);
    OrphansExactly(ss[n - 1], steps[n - 1], ss[n], ep);
  }

  /** Attempts on an ordered endpoint never overlap, not even when the queue was found empty, and replays or not. */
  lemma AttemptsNeverOverlap(ss: seq<Sys>, steps: seq<Step>, n: nat, h: Id, k: Id)
    requires IsLeasedRun(ss, steps) && n <= |steps|
    requires h in ss[n].handlers && ss[n].handlers[h].pc.Wait? && k in ss[n].handlers && ss[n].handlers[k].pc.Wait?
    requires var ep := ss[n].handlers[h].snap.endpoint;
             && ss[n].handlers[k].snap.endpoint == ep && ep in ss[n].endpoints && ss[n].endpoints[ep].ordered
    ensures h == k
  {
    RunKeepsLocks(ss, steps, n);
    assert OrderingOk(ss[n], ss[n].handlers[h]) && OrderingOk(ss[n], ss[n].handlers[k]);
    SectionIsExclusive(ss[n], h, k);
  }
}
