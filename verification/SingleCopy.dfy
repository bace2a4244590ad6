/**
 Runs in which nobody steals live work: the deliveries in the system are conserved, one copy each.

 Crashes and exceptions are still allowed anywhere before a handler is cleared to acknowledge its message, and replays
 still interleave with everything; only two replays of one delivery at once are excluded.
 */
module SingleCopy {
  import opened Protocol
  import opened AtLeastOnce

  /** A step an undisturbed system may take. */
  predicate Tame(s: Sys, step: Step) {
    match step
    case Reclaim(m) => forall h | h in s.handlers :: s.handlers[h].msg != m
    case ReplaySelect(d) => forall r | r in s.replays :: s.replays[r].delivery != d
    case Raise(h) => h in s.handlers && !Cleared(s.handlers[h])
    case Crash(h) => h in s.handlers && !Cleared(s.handlers[h])
    case _ => true
  }

  ghost predicate IsTameRun(ss: seq<Sys>, steps: seq<Step>) {
    IsRun(ss, steps) && forall i: nat | i < |steps| :: Tame(ss[i], steps[i])
  }

  // Every message in work has one handler and is pending.
  ghost predicate OneHandlerEach(s: Sys) {
    && (forall h | h in s.handlers :: s.handlers[h].msg in s.pel)
    && (forall h, k | h in s.handlers && k in s.handlers && s.handlers[h].msg == s.handlers[k].msg :: h == k)
  }

  ghost predicate OneReplayEach(s: Sys) {
    && (forall r, q | r in s.replays && q in s.replays && s.replays[r].delivery == s.replays[q].delivery :: r == q)
    && (forall r | r in s.replays && s.replays[r].pc.Selected? && s.replays[r].delivery in s.rows ::
          s.rows[s.replays[r].delivery].status.Dead?)
  }

  ghost predicate Unique(s: Sys) {
    forall d, c, c' | d in s.rows && IsCopy(s, d, c) && IsCopy(s, d, c') :: c == c'
  }

  // A copy means there is something left to do.
  ghost predicate CopiesAreOwed(s: Sys) {
    forall d, c | d in s.rows && IsCopy(s, d, c) ::
      !Settled(s.rows[d].status) && d in s.hist.enqueued && d !in s.hist.dropped
  }

  // A delivery is either still being ingested, untouched, or has been XADDed; and no row was ever overwritten.
  ghost predicate IngestedOnce(s: Sys) {
    forall d | d in s.rows ::
      && d !in s.hist.overwritten
      && (d in s.ingests <==> d !in s.hist.enqueued)
      && (d in s.ingests ==> s.rows[d].status.Pending? && d !in s.hist.dropped && d !in s.hist.settled)
  }

  ghost predicate Fresh(s: Sys) {
    forall d | d in s.hist.overwritten || d in s.hist.dropped :: d < s.next
  }

  // The bookkeeping around the copies.
  ghost predicate Books(s: Sys) {
    OneHandlerEach(s) && OneReplayEach(s) && IngestedOnce(s) && Fresh(s)
  }

  ghost predicate Copies(s: Sys) {
    Unique(s) && CopiesAreOwed(s)
  }

  ghost predicate TameInv(s: Sys) {
    Inv(s) && Books(s) && Copies(s)
  }

  // ---- How copies may change ----

  // Delivery d has no copy but perhaps `home`, and no other delivery has gained one.
  ghost predicate Carries(s: Sys, t: Sys, d: Id, home: Copy) {
    forall e, c | e in t.rows && IsCopy(t, e, c) :: if e == d then c == home else e in s.rows && IsCopy(s, e, c)
  }

  ghost predicate SameExcept(s: Sys, t: Sys, d: Id) {
    && (forall e | e in t.rows && e in s.rows && e != d :: t.rows[e] == s.rows[e])
    && (forall e | e != d ::
          (e in s.hist.enqueued ==> e in t.hist.enqueued) && (e in t.hist.dropped ==> e in s.hist.dropped))
  }

  lemma CarryKeepsCopies(s: Sys, t: Sys, d: Id, home: Copy)
    requires Copies(s) && Carries(s, t, d, home) && SameExcept(s, t, d)
    requires d in t.rows && IsCopy(t, d, home) ==>
               !Settled(t.rows[d].status) && d in t.hist.enqueued && d !in t.hist.dropped
    ensures Copies(t)
  {}

  ghost predicate DropsNothing(s: Sys, t: Sys) {
    forall e | e in t.rows && e in t.hist.dropped :: e in s.hist.dropped
  }

  // No delivery has gained a copy.
  ghost predicate Shrinks(s: Sys, t: Sys) {
    forall e, c | e in t.rows && IsCopy(t, e, c) :: e in s.rows && IsCopy(s, e, c)
  }

  lemma ShrinkKeepsCopies(s: Sys, t: Sys)
    requires Copies(s) && Shrinks(s, t)
    requires forall e | e in t.rows && e in s.rows :: t.rows[e] == s.rows[e]
    requires s.hist.enqueued <= t.hist.enqueued && DropsNothing(s, t)
    ensures Copies(t)
  {}

  // An uncleared handler is its delivery's one copy.
  lemma HandlerIsTheCopy(s: Sys, h: Id)
    requires TameInv(s) && h in s.handlers && !Cleared(s.handlers[h]) && s.handlers[h].delivery in s.rows
    ensures IsCopy(s, s.handlers[h].delivery, InPel(s.handlers[h].msg))
    ensures forall c | IsCopy(s, s.handlers[h].delivery, c) :: c == InPel(s.handlers[h].msg)
  {
    assert IsCopy(s, s.handlers[h].delivery, InPel(s.handlers[h].msg));
  }

  // ---- A handler's own move ----

  ghost predicate Becomes(s: Sys, h: Id, y: Handler, t: Sys) {
    && h in s.handlers && t.handlers == s.handlers[h := y]
    && y.msg == s.handlers[h].msg && y.delivery == s.handlers[h].delivery
    && t.unread == s.unread && t.pel == s.pel && t.replays == s.replays && t.ingests == s.ingests && t.next == s.next
    && t.rows.Keys == s.rows.Keys && t.hist.enqueued == s.hist.enqueued
  }

  // A pending entry stays out of the count once its handler is cleared.
  lemma StillCleared(s: Sys, h: Id, y: Handler, t: Sys, m: Id)
    requires Becomes(s, h, y, t) && NoneCleared(t, m) && (s.handlers[h].msg != m || !Cleared(s.handlers[h]))
    ensures NoneCleared(s, m)
  {
    forall k | k in s.handlers && s.handlers[k].msg == m ensures !Cleared(s.handlers[k]) {
      if k != h { assert t.handlers[k] == s.handlers[k]; }
    }
  }

  /** An uncleared handler moves. Its delivery's copy stays the pending entry, or moves to the retry queue as the
      handler is cleared, or goes as the handler is cleared. */
  lemma UnclearedMove(s: Sys, h: Id, y: Handler, t: Sys)
    requires TameInv(s) && Becomes(s, h, y, t) && !Cleared(s.handlers[h]) && SameExcept(s, t, y.delivery)
    requires y.delivery in s.rows
    requires t.retries.Keys == s.retries.Keys || (Cleared(y) && t.retries.Keys == s.retries.Keys + {y.delivery})
    requires !Cleared(y) || t.retries.Keys != s.retries.Keys ==>
               !Settled(t.rows[y.delivery].status) && t.hist.dropped == s.hist.dropped
    ensures Copies(t)
  {
    var home := if t.retries.Keys == s.retries.Keys then InPel(y.msg) else InRetries;
    HandlerIsTheCopy(s, h);
    HandlerTakesCopy(s, h, y, t, home);
    assert t.handlers[h] == y && (Cleared(y) ==> !NoneCleared(t, y.msg));
    CarryKeepsCopies(s, t, y.delivery, home);
  }

  // Every copy there is, but for one just put on the retry queue, was there.
  lemma CopyWas(s: Sys, h: Id, y: Handler, t: Sys, e: Id, c: Copy)
    requires Becomes(s, h, y, t) && !Cleared(s.handlers[h]) && IsCopy(t, e, c)
    requires c.InRetries? ==> e in s.retries
    ensures IsCopy(s, e, c)
  {
    if c.InPel? { StillCleared(s, h, y, t, c.msg); }
  }

  // Its delivery's copy is the pending entry, or the retry queue if it was put there.
  lemma HandlerTakesCopy(s: Sys, h: Id, y: Handler, t: Sys, home: Copy)
    requires TameInv(s) && Becomes(s, h, y, t) && !Cleared(s.handlers[h]) && y.delivery in s.rows
    requires t.retries.Keys == s.retries.Keys || (Cleared(y) && t.retries.Keys == s.retries.Keys + {y.delivery})
    requires home == if t.retries.Keys == s.retries.Keys then InPel(y.msg) else InRetries
    ensures Carries(s, t, y.delivery, home)
  {
    HandlerIsTheCopy(s, h);
    assert t.handlers[h] == y && (Cleared(y) ==> !NoneCleared(t, y.msg));
    forall e, c | e in t.rows && IsCopy(t, e, c) ensures if e == y.delivery then c == home else IsCopy(s, e, c) {
      if e != y.delivery || c != InRetries || home != InRetries { CopyWas(s, h, y, t, e, c); }
    }
  }

  /** A cleared handler, or one whose row is gone, moves without touching any delivery's copy. */
  lemma IdleMove(s: Sys, h: Id, y: Handler, t: Sys)
    requires TameInv(s) && Becomes(s, h, y, t)
    requires t.rows == s.rows && DropsNothing(s, t)
    requires forall e | e in s.rows && e in t.retries :: e in s.retries
    requires Cleared(s.handlers[h]) ==> Cleared(y) || y.delivery !in s.rows
    ensures Copies(t)
  {
    assert t.handlers[h] == y;
    forall e, c | e in t.rows && IsCopy(t, e, c) ensures IsCopy(s, e, c) {
      if c.InPel? { StillCleared(s, h, y, t, c.msg); }
    }
    ShrinkKeepsCopies(s, t);
  }

  // ---- A handler's steps ----

  lemma FailIsTame(s: Sys, h: Id)
    requires TameInv(s) && h in s.handlers
    requires Cleared(s.handlers[h]) ==> s.handlers[h].delivery !in s.rows
    ensures Copies(Fail(s, h)) && Books(Fail(s, h))
  {
    IdleMove(s, h, Fail(s, h).handlers[h], Fail(s, h));
  }

  ghost predicate BooksMay(s: Sys, h: Id, y: Handler, t: Sys) {
    && Becomes(s, h, y, t)
    && t.hist.settled <= s.hist.settled + {y.delivery} && t.hist.dropped <= s.hist.dropped + {y.delivery}
    && t.hist.overwritten == s.hist.overwritten
    && (forall e | e in s.rows && (e != y.delivery || Cleared(s.handlers[h])) :: t.rows[e] == s.rows[e])
    && (y.delivery in s.rows && y.delivery in s.ingests ==>
          t.hist.settled == s.hist.settled && t.hist.dropped == s.hist.dropped)
  }

  lemma BooksMove(s: Sys, h: Id, y: Handler, t: Sys)
    requires TameInv(s) && BooksMay(s, h, y, t)
    ensures Books(t)
  {
    IngestsMove(s, h, y, t);
    if !Cleared(s.handlers[h]) && y.delivery in s.rows {
      HandlerIsTheCopy(s, h);
    }
  }

  lemma IngestsMove(s: Sys, h: Id, y: Handler, t: Sys)
    requires TameInv(s) && BooksMay(s, h, y, t)
    ensures IngestedOnce(t)
  {
    if !Cleared(s.handlers[h]) && y.delivery in s.rows {
      HandlerIsTheCopy(s, h);
    }
  }

  lemma LoadIsTame(s: Sys, h: Id, t: Sys)
    requires TameInv(s) && h in s.handlers && NextLoad(s, h, t)
    ensures Copies(t) && Books(t)
  {
    if s.handlers[h].delivery in s.rows {
      HandlerIsTheCopy(s, h);
      UnclearedMove(s, h, t.handlers[h], t);
    } else {
      IdleMove(s, h, t.handlers[h], t);
    }
    BooksMove(s, h, t.handlers[h], t);
  }

  lemma LoadEndpointIsTame(s: Sys, h: Id, t: Sys)
    requires TameInv(s) && h in s.handlers && NextLoadEndpoint(s, h, t)
    ensures Copies(t) && Books(t)
  {
    if s.handlers[h].delivery in s.rows {
      HandlerIsTheCopy(s, h);
      UnclearedMove(s, h, t.handlers[h], t);
    } else {
      IdleMove(s, h, t.handlers[h], t);
    }
    BooksMove(s, h, t.handlers[h], t);
  }

  lemma LockIsTame(s: Sys, h: Id, t: Sys)
    requires TameInv(s) && h in s.handlers && NextLock(s, h, t)
    ensures Copies(t) && Books(t)
  {
    IdleMove(s, h, t.handlers[h], t);
    BooksMove(s, h, t.handlers[h], t);
  }

  lemma PeekIsTame(s: Sys, h: Id, t: Sys)
    requires TameInv(s) && h in s.handlers && NextPeek(s, h, t)
    ensures Copies(t) && Books(t)
  {
    IdleMove(s, h, t.handlers[h], t);
    BooksMove(s, h, t.handlers[h], t);
  }

  lemma NotHeadIsTame(s: Sys, h: Id, t: Sys)
    requires TameInv(s) && h in s.handlers && NextNotHead(s, h, t)
    ensures Copies(t) && Books(t)
  {
    IdleMove(s, h, t.handlers[h], t);
    BooksMove(s, h, t.handlers[h], t);
  }

  lemma GatesIsTame(s: Sys, h: Id, gate: Gate, t: Sys)
    requires TameInv(s) && h in s.handlers && NextGates(s, h, gate, t)
    ensures Copies(t) && Books(t)
  {
    IdleMove(s, h, t.handlers[h], t);
    BooksMove(s, h, t.handlers[h], t);
  }

  lemma BeginIsTame(s: Sys, h: Id, t: Sys)
    requires TameInv(s) && h in s.handlers && NextBegin(s, h, t)
    ensures Copies(t) && Books(t)
  {
    if s.handlers[h].delivery in s.rows {
      HandlerIsTheCopy(s, h);
      UnclearedMove(s, h, t.handlers[h], t);
    } else {
      IdleMove(s, h, t.handlers[h], t);
    }
    BooksMove(s, h, t.handlers[h], t);
  }

  lemma PostIsTame(s: Sys, h: Id, t: Sys)
    requires TameInv(s) && h in s.handlers && NextPost(s, h, t)
    ensures Copies(t) && Books(t)
  {
    IdleMove(s, h, t.handlers[h], t);
    if s.handlers[h].delivery in s.rows { HandlerIsTheCopy(s, h); }
    BooksMove(s, h, t.handlers[h], t);
  }

  lemma WaitIsTame(s: Sys, h: Id, response: Response, t: Sys)
    requires TameInv(s) && h in s.handlers && NextWait(s, h, response, t)
    ensures Copies(t) && Books(t)
  {
    IdleMove(s, h, t.handlers[h], t);
    BooksMove(s, h, t.handlers[h], t);
  }

  lemma ConcludeIsTame(s: Sys, h: Id, jitter: real, t: Sys)
    requires TameInv(s) && h in s.handlers && NextConclude(s, h, jitter, t)
    ensures Copies(t) && Books(t)
  {
    if s.handlers[h].delivery in s.rows {
      HandlerIsTheCopy(s, h);
      UnclearedMove(s, h, t.handlers[h], t);
    } else {
      IdleMove(s, h, t.handlers[h], t);
    }
    BooksMove(s, h, t.handlers[h], t);
  }

  lemma ZaddIsTame(s: Sys, h: Id, now: real, t: Sys)
    requires TameInv(s) && h in s.handlers && NextZadd(s, h, now, t)
    ensures Copies(t) && Books(t)
  {
    if s.handlers[h].delivery in s.rows {
      HandlerIsTheCopy(s, h);
      UnclearedMove(s, h, t.handlers[h], t);
    } else {
      IdleMove(s, h, t.handlers[h], t);
    }
    BooksMove(s, h, t.handlers[h], t);
  }

  lemma RefreshIsTame(s: Sys, h: Id, t: Sys)
    requires TameInv(s) && h in s.handlers && NextRefresh(s, h, t)
    ensures Copies(t) && Books(t)
  {
    IdleMove(s, h, t.handlers[h], t);
    BooksMove(s, h, t.handlers[h], t);
  }

  lemma PopIsTame(s: Sys, h: Id, t: Sys)
    requires TameInv(s) && h in s.handlers && NextPop(s, h, t)
    ensures Copies(t) && Books(t)
  {
    IdleMove(s, h, t.handlers[h], t);
    BooksMove(s, h, t.handlers[h], t);
  }

  lemma UnlockIsTame(s: Sys, h: Id, t: Sys)
    requires TameInv(s) && h in s.handlers && NextUnlock(s, h, t)
    ensures Copies(t) && Books(t)
  {
    IdleMove(s, h, t.handlers[h], t);
    BooksMove(s, h, t.handlers[h], t);
  }

  // A handler that leaves takes its pending entry along, or leaves it as the copy it was.
  lemma LeavingIsTame(s: Sys, h: Id, t: Sys)
    requires TameInv(s) && Leaves(s, h, t)
    requires t.pel == s.pel ==> !Cleared(s.handlers[h])
    requires t.ingests == s.ingests
    ensures Copies(t) && Books(t)
  {
    LeavingShrinks(s, h, t);
    LeavingKeepsBooks(s, h, t);
    ShrinkKeepsCopies(s, t);
  }

  lemma LeavingShrinks(s: Sys, h: Id, t: Sys)
    requires Leaves(s, h, t) && (t.pel == s.pel ==> !Cleared(s.handlers[h]))
    ensures Shrinks(s, t)
  {
    forall e, c | e in t.rows && IsCopy(t, e, c) ensures IsCopy(s, e, c) {
      if c.InPel? {
        forall k | k in s.handlers && s.handlers[k].msg == c.msg ensures !Cleared(s.handlers[k]) {
          if k != h { assert k in t.handlers && t.handlers[k] == s.handlers[k]; }
        }
      }
    }
  }

  lemma LeavingKeepsBooks(s: Sys, h: Id, t: Sys)
    requires Books(s) && Leaves(s, h, t) && t.ingests == s.ingests
    ensures Books(t)
  {}

  lemma LeaveIsTame(s: Sys, h: Id, t: Sys)
    requires TameInv(s) && h in s.handlers && NextLeave(s, h, t)
    ensures Copies(t) && Books(t)
  {
    assert s.handlers[h].msg in s.pel;
    LeavingIsTame(s, h, t);
  }

  lemma CrashIsTame(s: Sys, h: Id, t: Sys)
    requires TameInv(s) && NextCrash(s, h, t) && !Cleared(s.handlers[h])
    ensures Copies(t) && Books(t)
  {
    LeavingIsTame(s, h, t);
  }

  lemma AdvanceIsTame(s: Sys, h: Id, c: Choice, t: Sys)
    requires TameInv(s) && h in s.handlers && NextAdvance(s, h, c, t)
    ensures Copies(t) && Books(t)
  {
    match s.handlers[h].pc {
      case Load => LoadIsTame(s, h, t);
      case LoadEndpoint => LoadEndpointIsTame(s, h, t);
      case Lock => LockIsTame(s, h, t);
      case Peek => PeekIsTame(s, h, t);
      case NotHead => NotHeadIsTame(s, h, t);
      case Gates => GatesIsTame(s, h, c.gate, t);
      case Begin => BeginIsTame(s, h, t);
      case Post => PostIsTame(s, h, t);
      case Wait => WaitIsTame(s, h, c.response, t);
      case Conclude => ConcludeIsTame(s, h, c.jitter, t);
      case Schedule | Defer => ZaddIsTame(s, h, c.now, t);
      case Refresh => RefreshIsTame(s, h, t);
      case Pop => PopIsTame(s, h, t);
      case Unlock => UnlockIsTame(s, h, t);
      case Ack | Unwind => LeaveIsTame(s, h, t);
    }
  }

  // ---- All other steps ----

  lemma ExpiryIsTame(s: Sys, ep: Id)
    requires TameInv(s)
    ensures Copies(s.(locks := s.locks - {ep})) && Books(s.(locks := s.locks - {ep}))
  {
    assert Shrinks(s, s.(locks := s.locks - {ep}));
    ShrinkKeepsCopies(s, s.(locks := s.locks - {ep}));
  }

  lemma EndpointsAreTame(s: Sys, step: Step, t: Sys)
    requires TameInv(s) && NextEndpoint(s, step, t)
    ensures Copies(t) && Books(t)
  {
    assert Shrinks(s, t);
    ShrinkKeepsCopies(s, t);
  }

  lemma IngestCommitIsTame(s: Sys, ep: Id, t: Sys)
    requires TameInv(s) && NextIngestCommit(s, ep, t)
    ensures Copies(t) && Books(t)
  {
    forall e, c | e in t.rows && IsCopy(t, e, c) ensures e in s.rows && IsCopy(s, e, c) {
      assert IsCopy(s, e, c);
    }
    ShrinkKeepsCopies(s, t);
  }

  lemma IngestPushIsTame(s: Sys, d: Id, t: Sys)
    requires TameInv(s) && NextIngestPush(s, d, t)
    ensures Copies(t) && Books(t)
  {
    assert Shrinks(s, t);
    ShrinkKeepsCopies(s, t);
  }

  lemma IngestAddIsTame(s: Sys, d: Id, t: Sys)
    requires TameInv(s) && NextIngestAdd(s, d, t)
    ensures Copies(t) && Books(t)
  {
    forall e, c | e in t.rows && IsCopy(t, e, c) ensures if e == d then c == InStream(s.next) else IsCopy(s, e, c) {
      assert c == InStream(s.next) || IsCopy(s, e, c);
    }
    CarryKeepsCopies(s, t, d, InStream(s.next));
  }

  lemma SelectIsTame(s: Sys, d: Id, t: Sys)
    requires TameInv(s) && NextReplaySelect(s, d, t) && Tame(s, ReplaySelect(d))
    ensures Copies(t) && Books(t)
  {
    SelectKeepsBooks(s, d, t);
    assert Shrinks(s, t);
    ShrinkKeepsCopies(s, t);
  }

  lemma SelectKeepsBooks(s: Sys, d: Id, t: Sys)
    requires Numbered(s) && Books(s) && NextReplaySelect(s, d, t) && Tame(s, ReplaySelect(d))
    ensures Books(t)
  {}

  // The replay r goes on; its delivery's copy goes with it, from its commit until it has pushed it.
  ghost predicate ReplayMoves(s: Sys, r: Id, t: Sys, home: Copy) {
    && r in s.replays && (home == InReplay(r) || home == InStream(s.next))
    && t.handlers == s.handlers && t.pel == s.pel && t.retries.Keys <= s.retries.Keys && t.rows.Keys == s.rows.Keys
    && t.unread == (if home.InStream? then s.unread[s.next := s.replays[r].delivery] else s.unread)
    && (forall q | q in t.replays && q != r :: q in s.replays && t.replays[q] == s.replays[q])
    && (r in t.replays ==> home == InReplay(r) && t.replays[r].delivery == s.replays[r].delivery)
    && (r in t.replays && !s.replays[r].pc.Selected? ==> !t.replays[r].pc.Selected?)
    && (s.replays[r].pc.Selected? ==> home == InReplay(r))
  }

  lemma ReplayTakesCopy(s: Sys, r: Id, t: Sys, home: Copy)
    requires TameInv(s) && ReplayMoves(s, r, t, home)
    ensures Carries(s, t, s.replays[r].delivery, home)
  {
    var d := s.replays[r].delivery;
    assert !s.replays[r].pc.Selected? ==> IsCopy(s, d, InReplay(r));
    forall e, c | e in t.rows && IsCopy(t, e, c) ensures if e == d then c == home else IsCopy(s, e, c) {
      assert (c == home && e == d) || IsCopy(s, e, c);
    }
  }

  lemma ResetIsTame(s: Sys, r: Id, t: Sys)
    requires TameInv(s) && r in s.replays && NextReset(s, r, t)
    ensures Copies(t) && Books(t)
  {
    ReplayTakesCopy(s, r, t, InReplay(r));
    ResetKeepsBooks(s, r, t);
    ResetIsOwed(s, r, t);
    CarryKeepsCopies(s, t, s.replays[r].delivery, InReplay(r));
  }

  lemma ResetIsOwed(s: Sys, r: Id, t: Sys)
    requires IngestedOnce(s) && OneReplayEach(s) && r in s.replays && NextReset(s, r, t)
    ensures var d := s.replays[r].delivery;
            && SameExcept(s, t, d)
            && (d in t.rows ==> !Settled(t.rows[d].status) && d in t.hist.enqueued && d !in t.hist.dropped)
  {}

  lemma ResetKeepsBooks(s: Sys, r: Id, t: Sys)
    requires Books(s) && r in s.replays && NextReset(s, r, t)
    ensures Books(t)
  {}

  lemma RemoveIsTame(s: Sys, r: Id, t: Sys)
    requires TameInv(s) && r in s.replays && NextRemove(s, r, t)
    ensures Copies(t) && Books(t)
  {
    assert IsCopy(s, s.replays[r].delivery, InReplay(r));
    ReplayTakesCopy(s, r, t, InReplay(r));
    CarryKeepsCopies(s, t, s.replays[r].delivery, InReplay(r));
  }

  lemma RequeueIsTame(s: Sys, r: Id, t: Sys)
    requires TameInv(s) && r in s.replays && NextRequeue(s, r, t)
    ensures Copies(t) && Books(t)
  {
    assert IsCopy(s, s.replays[r].delivery, InReplay(r));
    ReplayTakesCopy(s, r, t, InReplay(r));
    CarryKeepsCopies(s, t, s.replays[r].delivery, InReplay(r));
  }

  lemma ReaddIsTame(s: Sys, r: Id, t: Sys)
    requires TameInv(s) && r in s.replays && NextReadd(s, r, t)
    ensures Copies(t) && Books(t)
  {
    assert IsCopy(s, s.replays[r].delivery, InReplay(r));
    ReplayTakesCopy(s, r, t, InStream(s.next));
    CarryKeepsCopies(s, t, s.replays[r].delivery, InStream(s.next));
  }

  lemma ReplayIsTame(s: Sys, r: Id, t: Sys)
    requires TameInv(s) && r in s.replays && NextReplay(s, r, t)
    ensures Copies(t) && Books(t)
  {
    match s.replays[r].pc {
      case Selected => ResetIsTame(s, r, t);
      case Committed => RemoveIsTame(s, r, t);
      case Removed => RequeueIsTame(s, r, t);
      case Pushed => ReaddIsTame(s, r, t);
    }
  }

  lemma MoveDueIsTame(s: Sys, d: Id, now: real, t: Sys)
    requires TameInv(s) && NextMoveDue(s, d, now, t)
    ensures Copies(t) && Books(t)
  {
    assert IsCopy(s, d, InRetries);
    forall e, c | e in t.rows && IsCopy(t, e, c) ensures if e == d then c == InStream(s.next) else IsCopy(s, e, c) {
      assert (c == InStream(s.next) && e == d) || IsCopy(s, e, c);
    }
    CarryKeepsCopies(s, t, d, InStream(s.next));
  }

  // A new handler takes nothing out of the count.
  lemma StartKeepsUncleared(s: Sys, t: Sys, m: Id)
    requires Numbered(s) && NoneCleared(t, m)
    requires forall h | h in s.handlers && h != s.next :: h in t.handlers && t.handlers[h] == s.handlers[h]
    ensures NoneCleared(s, m)
  {
    forall k | k in s.handlers && s.handlers[k].msg == m ensures !Cleared(s.handlers[k]) {
      assert t.handlers[k] == s.handlers[k];
    }
  }

  lemma ClaimIsTame(s: Sys, m: Id, t: Sys)
    requires TameInv(s) && NextClaim(s, m, t)
    ensures Copies(t) && Books(t)
  {
    assert IsCopy(s, s.unread[m], InStream(m));
    ClaimTakesCopy(s, m, t);
    CarryKeepsCopies(s, t, s.unread[m], InPel(m));
  }

  lemma ClaimTakesCopy(s: Sys, m: Id, t: Sys)
    requires Numbered(s) && Unique(s) && NextClaim(s, m, t)
    ensures Carries(s, t, s.unread[m], InPel(m))
  {
    var d := s.unread[m];
    assert IsCopy(s, d, InStream(m));
    forall e, c | e in t.rows && IsCopy(t, e, c) ensures if e == d then c == InPel(m) else IsCopy(s, e, c) {
      if c.InPel? && c.msg != m { StartKeepsUncleared(s, t, c.msg); }
      assert (c == InPel(m) && e == d) || IsCopy(s, e, c);
    }
  }

  lemma ReclaimIsTame(s: Sys, m: Id, t: Sys)
    requires TameInv(s) && NextReclaim(s, m, t) && Tame(s, Reclaim(m))
    ensures Copies(t) && Books(t)
  {
    forall e, c | e in t.rows && IsCopy(t, e, c) ensures IsCopy(s, e, c) {
      if c.InPel? { StartKeepsUncleared(s, t, c.msg); }
    }
    ShrinkKeepsCopies(s, t);
  }

  lemma StepIsTame(s: Sys, step: Step, t: Sys)
    requires TameInv(s) && Next(s, step, t) && Tame(s, step)
    ensures TameInv(t)
  {
    StepKeepsInv(s, step, t);
    match step {
      case AddEndpoint(_) | SetEndpoint(_, _) | DeleteEndpoint(_) => EndpointsAreTame(s, step, t);
      case IngestCommit(ep) => IngestCommitIsTame(s, ep, t);
      case IngestPush(d) => IngestPushIsTame(s, d, t);
      case IngestAdd(d) => IngestAddIsTame(s, d, t);
      case ReplaySelect(d) => SelectIsTame(s, d, t);
      case ReplayStep(r) => ReplayIsTame(s, r, t);
      case MoveDue(d, now) => MoveDueIsTame(s, d, now, t);
      case Claim(m) => ClaimIsTame(s, m, t);
      case Reclaim(m) => ReclaimIsTame(s, m, t);
      case Advance(h, c) => AdvanceIsTame(s, h, c, t);
      case Raise(h) => FailIsTame(s, h);
      case Crash(h) => CrashIsTame(s, h, t);
      case Expire(ep) => ExpiryIsTame(s, ep);
    }
  }

  lemma StartIsTame(configuredMax: int)
    ensures TameInv(Initial(configuredMax))
  {}

  lemma {:induction false} TameRunKeepsInv(ss: seq<Sys>, steps: seq<Step>, n: nat)
    requires IsTameRun(ss, steps) && n <= |steps|
    ensures TameInv(ss[n])
  {
    if n == 0 {
      RunStartIsTame(ss, steps);
    } else {
      TameRunKeepsInv(ss, steps, n - 1);
      RunStepIsTame(ss, steps, n);
    }
  }

  lemma RunStartIsTame(ss: seq<Sys>, steps: seq<Step>)
    requires IsRun(ss, steps)
    ensures TameInv(ss[0])
  {
    StartIsTame(ss[0].configuredMax);
  }

  lemma RunStepIsTame(ss: seq<Sys>, steps: seq<Step>, n: nat)
    requires IsTameRun(ss, steps) && 0 < n <= |steps| && TameInv(ss[n - 1])
    ensures TameInv(ss[n])
  {
    assert Leads(ss, steps, n - 1);
    StepIsTame(ss[n - 1], steps[n - 1], ss[n]);
  }

  /** Conservation: a delivery has a copy exactly while it has been XADDed, is not settled and was not dropped, and then
      it has exactly one. */
  lemma ExactlyOneCopy(ss: seq<Sys>, steps: seq<Step>, n: nat, d: Id)
    requires IsTameRun(ss, steps) && n <= |steps| && d in ss[n].rows
    ensures HasCopy(ss[n], d) <==>
              !Settled(ss[n].rows[d].status) && d in ss[n].hist.enqueued && d !in ss[n].hist.dropped
    ensures forall c, c' | IsCopy(ss[n], d, c) && IsCopy(ss[n], d, c') :: c == c'
  {
    TameRunKeepsInv(ss, steps, n);
    if HasCopy(ss[n], d) {
      var c :| IsCopy(ss[n], d, c);
    } else if Owed(ss[n], d) {
      RunKeepsInv(ss, steps, n);
    }
  }

  /** No two handlers work on one delivery, so no two send it at once. */
  lemma OneHandlerPerDelivery(ss: seq<Sys>, steps: seq<Step>, n: nat, h: Id, k: Id)
    requires IsTameRun(ss, steps) && n <= |steps|
    requires h in ss[n].handlers && !Cleared(ss[n].handlers[h]) && k in ss[n].handlers && !Cleared(ss[n].handlers[k])
    requires ss[n].handlers[h].delivery == ss[n].handlers[k].delivery && ss[n].handlers[h].delivery in ss[n].rows
    ensures h == k
  {
    TameRunKeepsInv(ss, steps, n);
    HandlerIsTheCopy(ss[n], h);
    HandlerIsTheCopy(ss[n], k);
  }

  // ---- Delivered is final ----

  function TimesSent(s: Sys, ep: Id, d: Id): nat {
    multiset(List(s.hist.sent, ep))[d]
  }

  // A delivered row is written by nobody and its delivery is sent by nobody.
  ghost predicate LeavesAlone(s: Sys, t: Sys, d: Id)
    requires d in s.rows
  {
    && (d in t.rows ==> t.rows[d] == s.rows[d])
    && forall ep: Id :: TimesSent(t, ep, d) == TimesSent(s, ep, d)
  }

  lemma NobodyWorksOnDelivered(s: Sys, h: Id)
    requires TameInv(s) && h in s.handlers && s.handlers[h].delivery in s.rows
    requires s.rows[s.handlers[h].delivery].status.Delivered?
    ensures Cleared(s.handlers[h])
  {
    if !Cleared(s.handlers[h]) { HandlerIsTheCopy(s, h); }
  }

  lemma AdvanceLeavesDelivered(s: Sys, h: Id, c: Choice, t: Sys, d: Id)
    requires TameInv(s) && h in s.handlers && NextAdvance(s, h, c, t)
    requires d in s.rows && s.rows[d].status.Delivered?
    ensures LeavesAlone(s, t, d)
  {
    if s.handlers[h].delivery == d { NobodyWorksOnDelivered(s, h); }
    AdvanceLeavesOthers(s, h, c, t, d);
  }

  // A handler writes no row but its delivery's, and sends nothing else; a cleared one does neither.
  lemma AdvanceLeavesOthers(s: Sys, h: Id, c: Choice, t: Sys, d: Id)
    requires h in s.handlers && NextAdvance(s, h, c, t)
    requires d in s.rows && (s.handlers[h].delivery != d || Cleared(s.handlers[h]))
    ensures LeavesAlone(s, t, d)
  {
    AdvanceFrame(s, h, c, t);
    match s.handlers[h].pc {
      case Begin => BeginLeavesOthers(s, h, t, d);
      case Conclude => ConcludeLeavesOthers(s, h, c.jitter, t, d);
      case Post => PostLeavesOthers(s, h, t, d);
      case _ =>
    }
  }

  lemma BeginLeavesOthers(s: Sys, h: Id, t: Sys, d: Id)
    requires h in s.handlers && NextBegin(s, h, t) && d in s.rows && s.handlers[h].delivery != d
    ensures LeavesAlone(s, t, d)
  {
    BeginFrame(s, h, t);
  }

  lemma ConcludeLeavesOthers(s: Sys, h: Id, jitter: real, t: Sys, d: Id)
    requires h in s.handlers && NextConclude(s, h, jitter, t) && d in s.rows && s.handlers[h].delivery != d
    ensures LeavesAlone(s, t, d)
  {
    ConcludeFrame(s, h, jitter, t);
  }

  lemma PostLeavesOthers(s: Sys, h: Id, t: Sys, d: Id)
    requires h in s.handlers && NextPost(s, h, t) && d in s.rows && s.handlers[h].delivery != d
    ensures LeavesAlone(s, t, d)
  {
    var ep0 := s.handlers[h].snap.endpoint;
    forall ep: Id ensures TimesSent(t, ep, d) == TimesSent(s, ep, d) {
      if ep == ep0 {
        assert List(t.hist.sent, ep) == List(s.hist.sent, ep) + [s.handlers[h].delivery];
      } else {
        assert List(t.hist.sent, ep) == List(s.hist.sent, ep);
      }
    }
  }

  lemma ReplayLeavesDelivered(s: Sys, r: Id, t: Sys, d: Id)
    requires TameInv(s) && r in s.replays && NextReplay(s, r, t)
    requires d in s.rows && s.rows[d].status.Delivered?
    ensures LeavesAlone(s, t, d)
  {
    if s.replays[r].pc.Selected? { ResetLeavesDelivered(s, r, t, d); } else { ReplayKeepsRow(s, r, t); }
  }

  lemma ResetLeavesDelivered(s: Sys, r: Id, t: Sys, d: Id)
    requires OneReplayEach(s) && r in s.replays && NextReset(s, r, t)
    requires d in s.rows && s.rows[d].status.Delivered?
    ensures LeavesAlone(s, t, d)
  {}

  lemma StepLeavesDelivered(s: Sys, step: Step, t: Sys, d: Id)
    requires TameInv(s) && Next(s, step, t)
    requires d in s.rows && s.rows[d].status.Delivered?
    ensures LeavesAlone(s, t, d)
  {
    if step.Advance? {
      AdvanceLeavesDelivered(s, step.handler, step.choice, t, d);
    } else if step.ReplayStep? {
      ReplayLeavesDelivered(s, step.replay, t, d);
    } else {
      OutsideLeavesAlone(s, step, t, d);
    }
  }

  lemma OutsideLeavesAlone(s: Sys, step: Step, t: Sys, d: Id)
    requires Next(s, step, t) && !step.Advance? && !step.ReplayStep? && d in s.rows && d < s.next
    ensures LeavesAlone(s, t, d)
  {
    OutsideSteps(s, step, t);
  }

  lemma DeliveredIsLeftAlone(ss: seq<Sys>, steps: seq<Step>, n: nat, d: Id)
    requires IsTameRun(ss, steps) && n < |steps| && d in ss[n].rows && ss[n].rows[d].status.Delivered?
    ensures LeavesAlone(ss[n], ss[n + 1], d)
  {
    TameRunKeepsInv(ss, steps, n);
    assert Leads(ss, steps, n);
    StepLeavesDelivered(ss[n], steps[n], ss[n + 1], d);
  }

  /** Once delivered, for as long as the row exists, a delivery stays delivered, is never sent again, and every handler
      it still has is only cleaning up. */
  lemma {:induction false} DeliveredIsFinal(ss: seq<Sys>, steps: seq<Step>, n: nat, m: nat, d: Id)
    requires IsTameRun(ss, steps) && n <= m <= |steps|
    requires d in ss[n].rows && ss[n].rows[d].status.Delivered? && d in ss[m].rows
    ensures ss[m].rows[d] == ss[n].rows[d]
    ensures forall ep: Id :: TimesSent(ss[m], ep, d) == TimesSent(ss[n], ep, d)
    ensures forall h | h in ss[m].handlers && ss[m].handlers[h].delivery == d :: Cleared(ss[m].handlers[h])
  {
    if n < m {
      RowWasThere(ss, steps, n, m, d);
      DeliveredIsFinal(ss, steps, n, m - 1, d);
      DeliveredIsLeftAlone(ss, steps, m - 1, d);
    }
    TameRunKeepsInv(ss, steps, m);
    forall h | h in ss[m].handlers && ss[m].handlers[h].delivery == d ensures Cleared(ss[m].handlers[h]) {
      NobodyWorksOnDelivered(ss[m], h);
    }
  }

  // A row that is there at two points of a run was there all the time between.
  lemma RowWasThere(ss: seq<Sys>, steps: seq<Step>, n: nat, m: nat, d: Id)
    requires IsRun(ss, steps) && n < m <= |steps| && d in ss[n].rows && d in ss[m].rows
    ensures d in ss[m - 1].rows
  {
    RunKeepsInv(ss, steps, n);
    RunKeepsRows(ss, steps, n, m - 1);
    RunKeepsRows(ss, steps, m - 1, m);
  }
}
