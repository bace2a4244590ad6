/**
 At-least-once as it reads off the rows: when an XADDed delivery whose row is unsettled has a copy. It fails, and this
 says at which step and until when, for every run of the protocol.
 */
module RowCoverage {
  import opened Protocol
  import opened AtLeastOnce

  /** What one would like to hold of every row: unsettled, XADDed and not dropped, its delivery has a copy. */
  ghost predicate Covered(s: Sys, d: Id) {
    Outstanding(s, d) && !Settled(s.rows[d].status) ==> HasCopy(s, d)
  }

  /** A stale commit over a row whose delivery has no copy any more. */
  ghost predicate Strands(s: Sys, step: Step, d: Id) {
    && step.Advance? && IsStaleCommit(s, step.handler, step.choice) && s.handlers[step.handler].delivery == d
    && Outstanding(s, d) && !HasCopy(s, d)
  }

  /** The step that uncovers a row is exactly such a commit. */
  lemma UncoversExactly(s: Sys, step: Step, t: Sys, d: Id)
    requires Inv(s) && Next(s, step, t) && Covered(s, d)
    ensures !Covered(t, d) <==> Strands(s, step, d)
  {
    if Strands(s, step, d) {
      StrandingUncovers(s, step, t, d);
    } else if !Covered(t, d) {
      OnlyStrandingUncovers(s, step, t, d);
    }
  }

  lemma OnlyStrandingUncovers(s: Sys, step: Step, t: Sys, d: Id)
    requires Inv(s) && Next(s, step, t) && Covered(s, d) && !Covered(t, d)
    ensures Strands(s, step, d)
  {
    StepCarries(s, step, t);
    assert Outstanding(s, d) && !HasCopy(s, d);
    UnsettlesExactly(s, step, t, d);
    if step.ReplayStep? { ResetMakesCopy(s, step.replay, t, d); }
  }

  lemma ResetMakesCopy(s: Sys, r: Id, t: Sys, d: Id)
    requires r in s.replays && s.replays[r].pc.Selected? && s.replays[r].delivery == d && d in s.rows
    requires NextReplay(s, r, t)
    ensures HasCopy(t, d)
  {
    assert NextReset(s, r, t);
    assert IsCopy(t, d, InReplay(r));
  }

  lemma StrandingUncovers(s: Sys, step: Step, t: Sys, d: Id)
    requires Inv(s) && Next(s, step, t) && Strands(s, step, d)
    ensures !Covered(t, d)
  {
    StaleCommitTouchesNoCopy(s, step.handler, step.choice, t);
    CommitMakesNoCopy(s, step.handler, t, d);
    UnsettlesExactly(s, step, t, d);
  }

  lemma CommitMakesNoCopy(s: Sys, h: Id, t: Sys, d: Id)
    requires OnlyCommits(s, h, t) && !Cleared(s.handlers[h])
    ensures HasCopy(t, d) ==> HasCopy(s, d)
  {
    forall c | IsCopy(t, d, c) ensures IsCopy(s, d, c) {
      if c.InPel? {
        forall k | k in s.handlers && s.handlers[k].msg == c.msg ensures !Cleared(s.handlers[k]) {
          assert k != h ==> t.handlers[k] == s.handlers[k];
        }
      }
    }
  }

  // A commit of a handler that goes on: it touches its row and the history.
  ghost predicate OnlyCommits(s: Sys, h: Id, t: Sys) {
    && h in s.handlers && h in t.handlers && !Cleared(t.handlers[h]) && t.handlers[h].msg == s.handlers[h].msg
    && t.handlers == s.handlers[h := t.handlers[h]]
    && t.unread == s.unread && t.pel == s.pel && t.retries == s.retries && t.replays == s.replays
    && t.rows.Keys == s.rows.Keys && t.hist.enqueued == s.hist.enqueued && t.hist.dropped == s.hist.dropped
  }

  lemma StaleBeginning(s: Sys, h: Id, t: Sys)
    requires h in s.handlers && s.handlers[h].delivery in s.rows && NextBegin(s, h, t)
    requires !s.handlers[h].snap.status.Delivered?
    ensures OnlyCommits(s, h, t)
  {}

  lemma StaleConclusion(s: Sys, h: Id, jitter: real, t: Sys)
    requires h in s.handlers && s.handlers[h].delivery in s.rows && NextConclude(s, h, jitter, t)
    requires Verdict(s.configuredMax, s.handlers[h], jitter).0.Failed?
    ensures OnlyCommits(s, h, t)
  {}

  lemma StaleCommitTouchesNoCopy(s: Sys, h: Id, c: Choice, t: Sys)
    requires h in s.handlers && NextAdvance(s, h, c, t) && IsStaleCommit(s, h, c)
    ensures OnlyCommits(s, h, t) && !Cleared(s.handlers[h])
  {
    if s.handlers[h].pc.Begin? {
      StaleBeginning(s, h, t);
    } else {
      StaleConclusion(s, h, c.jitter, t);
    }
  }

  lemma CoveredUpTo(ss: seq<Sys>, steps: seq<Step>, d: Id, n: nat)
    requires IsRun(ss, steps) && n < |steps| && Covered(ss[n], d)
    ensures !Covered(ss[n + 1], d) <==> Strands(ss[n], steps[n], d)
  {
    RunKeepsInv(ss, steps, n);
    assert Leads(ss, steps, n);
    UncoversExactly(ss[n], steps[n], ss[n + 1], d);
  }

  // ---- How a stranded row is covered again ----

  // Its acknowledgement is the only one that is coming, and its message is still pending.
  ghost predicate OnlyOneCleared(s: Sys, h: Id, d: Id) {
    && h in s.handlers && s.handlers[h].delivery == d && s.handlers[h].msg in s.pel && Cleared(s.handlers[h])
    && forall k | k in s.handlers && k != h && s.handlers[k].msg == s.handlers[h].msg :: !Cleared(s.handlers[k])
  }

  // A handler of d is about to put it on the retry queue, to settle it, or to drop it.
  predicate Finishes(s: Sys, h: Id, c: Choice, d: Id) {
    && h in s.handlers && s.handlers[h].delivery == d
    && var x := s.handlers[h];
       || x.pc.Schedule? || x.pc.Defer?
       || (x.pc.Conclude? && Settled(Verdict(s.configuredMax, x, c.jitter).0))
       || (x.pc.LoadEndpoint? && (x.snap.endpoint in s.endpoints ==> !s.endpoints[x.snap.endpoint].status.Active?))
  }

  /** The steps that bring a stranded delivery back: a handler of it schedules a retry, settles it or drops it; the one
      handler cleared to acknowledge a pending entry of it dies or raises; a replay that selected it before it was
      overwritten resets it; or its endpoint is deleted, and the row with it. */
  ghost predicate Restores(s: Sys, step: Step, d: Id) {
    match step
    case Advance(h, c) => Finishes(s, h, c, d)
    case Raise(h) => OnlyOneCleared(s, h, d)
    case Crash(h) => OnlyOneCleared(s, h, d)
    case ReplayStep(r) => r in s.replays && s.replays[r].pc.Selected? && s.replays[r].delivery == d
    case DeleteEndpoint(ep) => d in s.rows && s.rows[d].endpoint == ep
    case _ => false
  }

  /** The step that covers a row again is exactly one of these. */
  lemma RestoresExactly(s: Sys, step: Step, t: Sys, d: Id)
    requires Inv(s) && Next(s, step, t) && !Covered(s, d)
    ensures Covered(t, d) <==> Restores(s, step, d)
  {
    if Restores(s, step, d) {
      RestoringCovers(s, step, t, d);
    } else {
      OthersRestoreNothing(s, step, t, d);
    }
  }

  lemma RestoringCovers(s: Sys, step: Step, t: Sys, d: Id)
    requires Inv(s) && Next(s, step, t) && d in s.rows && Restores(s, step, d)
    ensures Covered(t, d)
  {
    match step {
      case Advance(h, c) => FinishingCovers(s, h, c, t, d);
      case Raise(h) => assert IsCopy(t, d, InPel(s.handlers[h].msg));
      case Crash(h) => assert IsCopy(t, d, InPel(s.handlers[h].msg));
      case ReplayStep(r) => ResetMakesCopy(s, r, t, d);
      case DeleteEndpoint(ep) =>
    }
  }

  lemma ZaddCovers(s: Sys, h: Id, now: real, t: Sys)
    requires h in s.handlers && NextZadd(s, h, now, t)
    ensures Covered(t, s.handlers[h].delivery)
  {
    assert IsCopy(t, s.handlers[h].delivery, InRetries);
  }

  lemma SettlingCovers(s: Sys, h: Id, jitter: real, t: Sys)
    requires h in s.handlers && NextConclude(s, h, jitter, t)
    requires Settled(Verdict(s.configuredMax, s.handlers[h], jitter).0)
    ensures Covered(t, s.handlers[h].delivery)
  {}

  lemma DroppingCovers(s: Sys, h: Id, c: Choice, t: Sys)
    requires h in s.handlers && Finishes(s, h, c, s.handlers[h].delivery) && NextLoadEndpoint(s, h, t)
    ensures Covered(t, s.handlers[h].delivery)
  {}

  lemma FinishingCovers(s: Sys, h: Id, c: Choice, t: Sys, d: Id)
    requires Finishes(s, h, c, d) && NextAdvance(s, h, c, t)
    ensures Covered(t, d)
  {
    match s.handlers[h].pc {
      case Schedule | Defer => ZaddCovers(s, h, c.now, t);
      case Conclude => SettlingCovers(s, h, c.jitter, t);
      case LoadEndpoint => DroppingCovers(s, h, c, t);
    }
  }

  // Handler h moves on or is gone, and d is put nowhere. It stays cleared, unless it is about another delivery.
  ghost predicate PutsNowhere(s: Sys, h: Id, t: Sys, d: Id) {
    && h in s.handlers && t.unread == s.unread && t.replays == s.replays && (d in t.retries ==> d in s.retries)
    && (forall m | m in t.pel :: m in s.pel && t.pel[m] == s.pel[m])
    && if h in t.handlers
       then t.handlers == s.handlers[h := t.handlers[h]] && t.handlers[h].msg == s.handlers[h].msg
            && (Cleared(s.handlers[h]) && !Cleared(t.handlers[h]) ==> !OnlyOneCleared(s, h, d))
       else t.handlers == s.handlers - {h}
            && (Cleared(s.handlers[h]) ==> s.handlers[h].msg !in t.pel || !OnlyOneCleared(s, h, d))
  }

  lemma PutsNowhereMakesNoCopy(s: Sys, h: Id, t: Sys, d: Id)
    requires Numbered(s) && PutsNowhere(s, h, t, d)
    ensures HasCopy(t, d) ==> HasCopy(s, d)
  {
    forall c | IsCopy(t, d, c) ensures IsCopy(s, d, c) {
      if c.InPel? {
        forall k | k in s.handlers && s.handlers[k].msg == c.msg ensures !Cleared(s.handlers[k]) {
          OthersStayCleared(s, h, t, d, c.msg, k);
        }
      }
    }
  }

  lemma OthersStayCleared(s: Sys, h: Id, t: Sys, d: Id, m: Id, k: Id)
    requires Numbered(s) && PutsNowhere(s, h, t, d) && m in t.pel && t.pel[m] == d && NoneCleared(t, m)
    requires k in s.handlers && s.handlers[k].msg == m
    ensures !Cleared(s.handlers[k])
  {
    if k != h {
      assert k in t.handlers && t.handlers[k] == s.handlers[k];
    } else if Cleared(s.handlers[h]) {
      forall j | j in s.handlers && j != h && s.handlers[j].msg == m ensures !Cleared(s.handlers[j]) {
        assert j in t.handlers && t.handlers[j] == s.handlers[j];
      }
      assert OnlyOneCleared(s, h, d);
    }
  }

  // If d is owed by its row, it goes on being so.
  predicate Remains(s: Sys, t: Sys, d: Id) {
    Outstanding(s, d) && !Settled(s.rows[d].status) ==> Outstanding(t, d) && !Settled(t.rows[d].status)
  }

  ghost predicate Bypasses(s: Sys, h: Id, t: Sys, d: Id) {
    PutsNowhere(s, h, t, d) && Remains(s, t, d)
  }

  lemma LoadBypasses(s: Sys, h: Id, t: Sys, d: Id)
    requires h in s.handlers && NextLoad(s, h, t)
    ensures Bypasses(s, h, t, d)
  {}

  lemma LoadEndpointBypasses(s: Sys, h: Id, c: Choice, t: Sys, d: Id)
    requires h in s.handlers && NextLoadEndpoint(s, h, t) && !Finishes(s, h, c, d)
    ensures Bypasses(s, h, t, d)
  {}

  lemma LockBypasses(s: Sys, h: Id, t: Sys, d: Id)
    requires h in s.handlers && NextLock(s, h, t)
    ensures Bypasses(s, h, t, d)
  {}

  lemma PeekBypasses(s: Sys, h: Id, t: Sys, d: Id)
    requires h in s.handlers && NextPeek(s, h, t)
    ensures Bypasses(s, h, t, d)
  {}

  lemma NotHeadBypasses(s: Sys, h: Id, t: Sys, d: Id)
    requires h in s.handlers && NextNotHead(s, h, t)
    ensures Bypasses(s, h, t, d)
  {}

  lemma GatesBypass(s: Sys, h: Id, gate: Gate, t: Sys, d: Id)
    requires h in s.handlers && NextGates(s, h, gate, t)
    ensures Bypasses(s, h, t, d)
  {}

  lemma BeginBypasses(s: Sys, h: Id, t: Sys, d: Id)
    requires h in s.handlers && NextBegin(s, h, t)
    ensures Bypasses(s, h, t, d)
  {}

  lemma PostBypasses(s: Sys, h: Id, t: Sys, d: Id)
    requires h in s.handlers && NextPost(s, h, t)
    ensures Bypasses(s, h, t, d)
  {}

  lemma WaitBypasses(s: Sys, h: Id, response: Response, t: Sys, d: Id)
    requires h in s.handlers && NextWait(s, h, response, t)
    ensures Bypasses(s, h, t, d)
  {}

  lemma ConcludeBypasses(s: Sys, h: Id, c: Choice, t: Sys, d: Id)
    requires h in s.handlers && NextConclude(s, h, c.jitter, t) && !Finishes(s, h, c, d)
    ensures Bypasses(s, h, t, d)
  {}

  lemma ZaddBypasses(s: Sys, h: Id, now: real, t: Sys, d: Id)
    requires h in s.handlers && NextZadd(s, h, now, t) && s.handlers[h].delivery != d
    ensures Bypasses(s, h, t, d)
  {}

  lemma RefreshBypasses(s: Sys, h: Id, t: Sys, d: Id)
    requires h in s.handlers && NextRefresh(s, h, t) && d in s.rows
    ensures Bypasses(s, h, t, d)
  {}

  lemma PopBypasses(s: Sys, h: Id, t: Sys, d: Id)
    requires h in s.handlers && NextPop(s, h, t)
    ensures Bypasses(s, h, t, d)
  {}

  lemma UnlockBypasses(s: Sys, h: Id, t: Sys, d: Id)
    requires h in s.handlers && NextUnlock(s, h, t)
    ensures Bypasses(s, h, t, d)
  {}

  lemma LeaveBypasses(s: Sys, h: Id, t: Sys, d: Id)
    requires h in s.handlers && NextLeave(s, h, t)
    ensures Bypasses(s, h, t, d)
  {}

  lemma AdvanceBypasses(s: Sys, h: Id, c: Choice, t: Sys, d: Id)
    requires h in s.handlers && NextAdvance(s, h, c, t) && d in s.rows && !Finishes(s, h, c, d)
    ensures Bypasses(s, h, t, d)
  {
    match s.handlers[h].pc {
      case Load => LoadBypasses(s, h, t, d);
      case LoadEndpoint => LoadEndpointBypasses(s, h, c, t, d);
      case Lock => LockBypasses(s, h, t, d);
      case Peek => PeekBypasses(s, h, t, d);
      case NotHead => NotHeadBypasses(s, h, t, d);
      case Gates => GatesBypass(s, h, c.gate, t, d);
      case Begin => BeginBypasses(s, h, t, d);
      case Post => PostBypasses(s, h, t, d);
      case Wait => WaitBypasses(s, h, c.response, t, d);
      case Conclude => ConcludeBypasses(s, h, c, t, d);
      case Schedule | Defer => ZaddBypasses(s, h, c.now, t, d);
      case Refresh => RefreshBypasses(s, h, t, d);
      case Pop => PopBypasses(s, h, t, d);
      case Unlock => UnlockBypasses(s, h, t, d);
      case Ack | Unwind => LeaveBypasses(s, h, t, d);
    }
  }

  lemma RaiseBypasses(s: Sys, h: Id, d: Id)
    requires h in s.handlers && !OnlyOneCleared(s, h, d)
    ensures Bypasses(s, h, Fail(s, h), d)
  {}

  lemma CrashBypasses(s: Sys, h: Id, t: Sys, d: Id)
    requires NextCrash(s, h, t) && !OnlyOneCleared(s, h, d)
    ensures Bypasses(s, h, t, d)
  {}

  // ---- The steps that are not a handler's ----

  // Entries, handlers and replays are added for other deliveries, or about entries that are there.
  ghost predicate AddsNone(s: Sys, t: Sys, d: Id) {
    && (forall m | m in t.unread && t.unread[m] == d :: m in s.unread && s.unread[m] == d)
    && (forall m | m in t.pel && t.pel[m] == d :: m in s.pel && s.pel[m] == d)
    && (d in t.retries ==> d in s.retries)
    && (forall h | h in s.handlers :: h in t.handlers && t.handlers[h] == s.handlers[h])
    && (forall r | r in t.replays && t.replays[r].delivery == d && !t.replays[r].pc.Selected? ::
          r in s.replays && s.replays[r].delivery == d && !s.replays[r].pc.Selected?)
  }

  lemma AddsNoneMakesNoCopy(s: Sys, t: Sys, d: Id)
    requires AddsNone(s, t, d)
    ensures HasCopy(t, d) ==> HasCopy(s, d)
  {
    forall c | IsCopy(t, d, c) ensures IsCopy(s, d, c) {}
  }

  ghost predicate AddsNothingTo(s: Sys, t: Sys, d: Id) {
    AddsNone(s, t, d) && Remains(s, t, d)
  }

  lemma EndpointsAddNothing(s: Sys, step: Step, t: Sys, d: Id)
    requires NextEndpoint(s, step, t) && !Restores(s, step, d)
    ensures AddsNothingTo(s, t, d)
  {}

  lemma IngestCommitAddsNothing(s: Sys, ep: Id, t: Sys, d: Id)
    requires Numbered(s) && NextIngestCommit(s, ep, t)
    ensures AddsNothingTo(s, t, d)
  {}

  lemma IngestPushAddsNothing(s: Sys, e: Id, t: Sys, d: Id)
    requires NextIngestPush(s, e, t)
    ensures AddsNothingTo(s, t, d)
  {}

  lemma IngestAddAddsNothing(s: Sys, e: Id, t: Sys, d: Id)
    requires NextIngestAdd(s, e, t) && e != d
    ensures AddsNothingTo(s, t, d)
  {}

  lemma SelectAddsNothing(s: Sys, e: Id, t: Sys, d: Id)
    requires Numbered(s) && NextReplaySelect(s, e, t)
    ensures AddsNothingTo(s, t, d)
  {}

  lemma ResetAddsNothing(s: Sys, r: Id, t: Sys, d: Id)
    requires r in s.replays && NextReset(s, r, t) && s.replays[r].delivery != d
    ensures AddsNothingTo(s, t, d)
  {}

  lemma RemoveAddsNothing(s: Sys, r: Id, t: Sys, d: Id)
    requires r in s.replays && NextRemove(s, r, t)
    ensures AddsNothingTo(s, t, d)
  {}

  lemma RequeueAddsNothing(s: Sys, r: Id, t: Sys, d: Id)
    requires r in s.replays && NextRequeue(s, r, t)
    ensures AddsNothingTo(s, t, d)
  {}

  lemma ReaddAddsNothing(s: Sys, r: Id, t: Sys, d: Id)
    requires r in s.replays && NextReadd(s, r, t) && !IsCopy(s, d, InReplay(r))
    ensures AddsNothingTo(s, t, d)
  {}

  lemma ReplayAddsNothing(s: Sys, r: Id, t: Sys, d: Id)
    requires r in s.replays && NextReplay(s, r, t) && !HasCopy(s, d) && !Restores(s, ReplayStep(r), d)
    ensures AddsNothingTo(s, t, d)
  {
    assert !IsCopy(s, d, InReplay(r));
    match s.replays[r].pc {
      case Selected => ResetAddsNothing(s, r, t, d);
      case Committed => RemoveAddsNothing(s, r, t, d);
      case Removed => RequeueAddsNothing(s, r, t, d);
      case Pushed => ReaddAddsNothing(s, r, t, d);
    }
  }

  lemma MoveDueAddsNothing(s: Sys, e: Id, now: real, t: Sys, d: Id)
    requires NextMoveDue(s, e, now, t) && !IsCopy(s, d, InRetries)
    ensures AddsNothingTo(s, t, d)
  {}

  lemma ClaimAddsNothing(s: Sys, m: Id, t: Sys, d: Id)
    requires Numbered(s) && NextClaim(s, m, t) && !IsCopy(s, d, InStream(m))
    ensures AddsNothingTo(s, t, d)
  {}

  lemma ReclaimAddsNothing(s: Sys, m: Id, t: Sys, d: Id)
    requires Numbered(s) && NextReclaim(s, m, t)
    ensures AddsNothingTo(s, t, d)
  {}

  lemma OthersAddNothing(s: Sys, step: Step, t: Sys, d: Id)
    requires Base(s) && Next(s, step, t) && Outstanding(s, d) && !HasCopy(s, d) && !Restores(s, step, d)
    requires !step.Advance? && !step.Raise? && !step.Crash?
    ensures AddsNothingTo(s, t, d)
  {
    match step {
      case AddEndpoint(_) | SetEndpoint(_, _) | DeleteEndpoint(_) => EndpointsAddNothing(s, step, t, d);
      case IngestCommit(ep) => IngestCommitAddsNothing(s, ep, t, d);
      case IngestPush(e) => IngestPushAddsNothing(s, e, t, d);
      case IngestAdd(e) => IngestAddAddsNothing(s, e, t, d);
      case ReplaySelect(e) => SelectAddsNothing(s, e, t, d);
      case ReplayStep(r) => ReplayAddsNothing(s, r, t, d);
      case MoveDue(e, now) => MoveDueAddsNothing(s, e, now, t, d);
      case Claim(m) => ClaimAddsNothing(s, m, t, d);
      case Reclaim(m) => ReclaimAddsNothing(s, m, t, d);
      case Expire(ep) =>
    }
  }

  lemma OthersRestoreNothing(s: Sys, step: Step, t: Sys, d: Id)
    requires Base(s) && Next(s, step, t) && Outstanding(s, d) && !HasCopy(s, d) && !Restores(s, step, d)
    ensures !HasCopy(t, d) && Remains(s, t, d)
  {
    if step.Advance? || step.Raise? || step.Crash? {
      match step {
        case Advance(h, c) => AdvanceBypasses(s, h, c, t, d);
        case Raise(h) => RaiseBypasses(s, h, d);
        case Crash(h) => CrashBypasses(s, h, t, d);
      }
      PutsNowhereMakesNoCopy(s, step.handler, t, d);
    } else {
      OthersAddNothing(s, step, t, d);
      AddsNoneMakesNoCopy(s, t, d);
    }
  }

  // Step m strands d, and no step since brings it back.
  ghost predicate StrandedSince(ss: seq<Sys>, steps: seq<Step>, d: Id, m: nat, n: nat)
    requires IsRun(ss, steps) && n <= |steps|
  {
    && m < n && Strands(ss[m], steps[m], d)
    && forall i: nat | m < i < n :: !Restores(ss[i], steps[i], d)
  }

  ghost predicate Stranded(ss: seq<Sys>, steps: seq<Step>, d: Id, n: nat)
    requires IsRun(ss, steps) && n <= |steps|
  {
    exists m: nat :: StrandedSince(ss, steps, d, m, n)
  }

  /** Exactly when the rows tell the truth: at a point of a run, a row is uncovered if and only if some earlier step was
      a stale commit over it with no copy left, and no step since has restored it. */
  lemma {:induction false} UncoveredExactlySinceStranding(ss: seq<Sys>, steps: seq<Step>, d: Id, n: nat)
    requires IsRun(ss, steps) && n <= |steps|
    ensures !Covered(ss[n], d) <==> Stranded(ss, steps, d, n)
  {
    if n > 0 {
      UncoveredExactlySinceStranding(ss, steps, d, n - 1);
      RunKeepsInv(ss, steps, n - 1);
      assert Leads(ss, steps, n - 1);
      if Covered(ss[n - 1], d) {
        UncoversExactly(ss[n - 1], steps[n - 1], ss[n], d);
        StrandedJustNow(ss, steps, d, n);
      } else {
        RestoresExactly(ss[n - 1], steps[n - 1], ss[n], d);
        StrandedStill(ss, steps, d, n);
      }
    }
  }

  lemma StrandedJustNow(ss: seq<Sys>, steps: seq<Step>, d: Id, n: nat)
    requires IsRun(ss, steps) && 0 < n <= |steps|
    requires !Stranded(ss, steps, d, n - 1)
    ensures Stranded(ss, steps, d, n) <==> Strands(ss[n - 1], steps[n - 1], d)
  {
    if Strands(ss[n - 1], steps[n - 1], d) {
      assert StrandedSince(ss, steps, d, n - 1, n);
    } else {
      forall m: nat ensures !StrandedSince(ss, steps, d, m, n) {
        assert !StrandedSince(ss, steps, d, m, n - 1);
      }
    }
  }

  // What is uncovered is not settled, so no stale commit strands it a second time.
  lemma StrandedStill(ss: seq<Sys>, steps: seq<Step>, d: Id, n: nat)
    requires IsRun(ss, steps) && 0 < n <= |steps| && !Covered(ss[n - 1], d)
    requires Stranded(ss, steps, d, n - 1)
    ensures Stranded(ss, steps, d, n) <==> !Restores(ss[n - 1], steps[n - 1], d)
  {
    var m: nat :| StrandedSince(ss, steps, d, m, n - 1);
    if !Restores(ss[n - 1], steps[n - 1], d) {
      assert StrandedSince(ss, steps, d, m, n);
    } else {
      forall k: nat ensures !StrandedSince(ss, steps, d, k, n) {
        if k == n - 1 { assert !Strands(ss[n - 1], steps[n - 1], d); }
      }
    }
  }

  /** Hence, with both halves about steps only: every row of d is covered throughout a run if and only if no step of the
      run is a stale commit over d with no copy left. */
  lemma RowsAreCoveredExactlyWhenNothingStrands(ss: seq<Sys>, steps: seq<Step>, d: Id)
    requires IsRun(ss, steps)
    ensures (forall n: nat | n < |ss| :: Covered(ss[n], d))
       <==> (forall n: nat | n < |steps| :: !Strands(ss[n], steps[n], d))
  {
    if forall n: nat | n < |ss| :: Covered(ss[n], d) {
      forall n: nat | n < |steps| ensures !Strands(ss[n], steps[n], d) {
        assert Covered(ss[n + 1], d);
        CoveredUpTo(ss, steps, d, n);
      }
    } else {
      var n: nat :| n < |ss| && !Covered(ss[n], d);
      UncoveredExactlySinceStranding(ss, steps, d, n);
      var m: nat :| StrandedSince(ss, steps, d, m, n);
    }
  }
}
