/**
 At-least-once delivery over every run of the protocol: any number of handlers, crashes and exceptions between any two
 steps, reclaimed live work, duplicate entries, stale snapshots, concurrent replays.
 */
module AtLeastOnce {
  import opened Protocol

  /** Where a delivery can wait to be attempted. */
  datatype Copy = InStream(msg: Id) | InRetries | InPel(msg: Id) | InReplay(replay: Id)

  ghost predicate NoneCleared(s: Sys, m: Id) {
    forall h | h in s.handlers && s.handlers[h].msg == m :: !Cleared(s.handlers[h])
  }

  /** A pending entry counts while none of its handlers is cleared to acknowledge it; a replay counts from its commit
      until it has XADDed. */
  ghost predicate IsCopy(s: Sys, d: Id, c: Copy) {
    match c
    case InStream(m) => m in s.unread && s.unread[m] == d
    case InRetries => d in s.retries
    case InPel(m) => m in s.pel && s.pel[m] == d && NoneCleared(s, m)
    case InReplay(r) => r in s.replays && s.replays[r].delivery == d && !s.replays[r].pc.Selected?
  }

  ghost predicate HasCopy(s: Sys, d: Id) {
    exists c :: IsCopy(s, d, c)
  }

  /** XADDed, and since it was ingested or last replayed neither settled nor acknowledged against a missing or inactive
      endpoint. */
  predicate Owed(s: Sys, d: Id) {
    d in s.rows && d in s.hist.enqueued && d !in s.hist.settled && d !in s.hist.dropped
  }

  // Identifiers are fresh, and a message is either unread or pending, never both.
  ghost predicate Numbered(s: Sys) {
    && (forall d | d in s.rows :: d < s.next)
    && (forall m | m in s.unread :: m < s.next && m !in s.pel && s.unread[m] < s.next)
    && (forall m | m in s.pel :: m < s.next && s.pel[m] < s.next)
    && (forall h | h in s.handlers :: h < s.next && s.handlers[h].msg < s.next && s.handlers[h].msg !in s.unread
                                      && s.handlers[h].delivery < s.next)
    && (forall h | h in s.handlers && s.handlers[h].msg in s.pel :: s.pel[s.handlers[h].msg] == s.handlers[h].delivery)
    && (forall r | r in s.replays :: r < s.next && s.replays[r].delivery < s.next)
    && (forall d | d in s.retries :: d < s.next)
    && (forall d | d in s.ingests :: d < s.next)
    && (forall d | d in s.hist.enqueued || d in s.hist.settled :: d < s.next)
  }

  // A handler that has not concluded works from an unsettled snapshot.
  predicate Working(x: Handler) {
    || x.pc.LoadEndpoint? || x.pc.Lock? || x.pc.Peek? || x.pc.NotHead? || x.pc.Gates? || x.pc.Begin? || Mid(x)
  }

  ghost predicate SnapshotsUnsettled(s: Sys) {
    forall h | h in s.handlers && Working(s.handlers[h]) :: !Settled(s.handlers[h].snap.status)
  }

  // The row agrees with the history, except where a handler overwrote it.
  ghost predicate RowsAgree(s: Sys) {
    && (forall d | d in s.rows && Settled(s.rows[d].status) :: d in s.hist.settled)
    && (forall d | d in s.rows && !Settled(s.rows[d].status) && d in s.hist.settled :: d in s.hist.overwritten)
  }

  ghost predicate NothingLost(s: Sys) {
    forall d | Owed(s, d) :: HasCopy(s, d)
  }

  // What is still being ingested has not been XADDed.
  predicate IngestsPending(s: Sys) {
    s.ingests.Keys !! s.hist.enqueued
  }

  ghost predicate Base(s: Sys) {
    Numbered(s) && SnapshotsUnsettled(s) && RowsAgree(s) && IngestsPending(s)
  }

  ghost predicate Inv(s: Sys) {
    Base(s) && NothingLost(s)
  }

  // ---- What every step does with the copies ----

  // Why a delivery may lose its last copy: its row is gone or settled, or it was dropped.
  predicate Released(s: Sys, d: Id) {
    d !in s.rows || Settled(s.rows[d].status) || d in s.hist.dropped
  }

  predicate Outstanding(s: Sys, d: Id) {
    d in s.rows && d in s.hist.enqueued && d !in s.hist.dropped
  }

  ghost predicate CopiesStay(s: Sys, t: Sys) {
    forall d | HasCopy(s, d) :: HasCopy(t, d) || Released(t, d)
  }

  // What has just been XADDed, or has just begun a new cycle, has a copy.
  ghost predicate NewOnesHaveCopies(s: Sys, t: Sys) {
    forall d | Outstanding(t, d) && !(Outstanding(s, d) && (d in s.hist.settled ==> d in t.hist.settled)) ::
      HasCopy(t, d)
  }

  ghost predicate Carried(s: Sys, t: Sys) {
    CopiesStay(s, t) && NewOnesHaveCopies(s, t)
  }

  lemma CarriedKeepsInv(s: Sys, t: Sys)
    requires Inv(s) && Base(t) && Carried(s, t)
    ensures Inv(t)
  {
    forall d | Owed(t, d) ensures HasCopy(t, d) {
      if Outstanding(s, d) && d !in s.hist.settled { assert Owed(s, d); }
    }
  }

  // Most steps make nothing outstanding.
  predicate Steady(s: Sys, t: Sys) {
    && t.rows.Keys <= s.rows.Keys && t.hist.enqueued == s.hist.enqueued
    && s.hist.settled <= t.hist.settled && s.hist.dropped <= t.hist.dropped
  }

  // ---- A handler's own move ----

  // Handler h becomes y and nothing else the invariant reads changes, except that rows and history may be written by
  // it and its delivery may be put on the retry queue.
  ghost predicate Moves(s: Sys, h: Id, y: Handler, t: Sys) {
    && h in s.handlers && t.handlers == s.handlers[h := y]
    && y.msg == s.handlers[h].msg && y.delivery == s.handlers[h].delivery
    && (Working(y) ==> !Settled(y.snap.status))
    && t.unread == s.unread && t.pel == s.pel && t.replays == s.replays && t.ingests == s.ingests && t.next == s.next
    && t.rows.Keys == s.rows.Keys && s.retries.Keys <= t.retries.Keys <= s.retries.Keys + {y.delivery}
    && t.hist.enqueued == s.hist.enqueued && s.hist.settled <= t.hist.settled <= s.hist.settled + s.rows.Keys
    && s.hist.dropped <= t.hist.dropped
    && (Cleared(y) && !Cleared(s.handlers[h]) ==> y.delivery in t.retries || Released(t, y.delivery))
  }

  lemma MoveKeepsCopies(s: Sys, h: Id, y: Handler, t: Sys)
    requires Numbered(s) && Moves(s, h, y, t)
    ensures CopiesStay(s, t)
  {
    forall d | HasCopy(s, d) ensures HasCopy(t, d) || Released(t, d) {
      var c :| IsCopy(s, d, c);
      if c.InPel? && s.handlers[h].msg == c.msg && Cleared(y) {
        assert d in t.retries ==> IsCopy(t, d, InRetries);
      } else {
        assert c.InPel? ==> NoneCleared(t, c.msg);
        assert IsCopy(t, d, c);
      }
    }
  }

  lemma MoveKeepsNumbers(s: Sys, h: Id, y: Handler, t: Sys)
    requires Numbered(s) && SnapshotsUnsettled(s) && Moves(s, h, y, t)
    ensures Numbered(t) && SnapshotsUnsettled(t)
  {}

  lemma MoveCarries(s: Sys, h: Id, y: Handler, t: Sys)
    requires Base(s) && Moves(s, h, y, t) && RowsAgree(t)
    ensures Base(t) && Carried(s, t)
  {
    MoveKeepsCopies(s, h, y, t);
    MoveKeepsNumbers(s, h, y, t);
    assert Steady(s, t);
  }

  lemma FailCarries(s: Sys, h: Id)
    requires Base(s) && h in s.handlers
    ensures Base(Fail(s, h)) && Carried(s, Fail(s, h))
  {
    MoveCarries(s, h, Fail(s, h).handlers[h], Fail(s, h));
  }

  lemma LoadCarries(s: Sys, h: Id, t: Sys)
    requires Base(s) && h in s.handlers && NextLoad(s, h, t)
    ensures Base(t) && Carried(s, t)
  {
    MoveCarries(s, h, t.handlers[h], t);
  }

  lemma LoadEndpointCarries(s: Sys, h: Id, t: Sys)
    requires Base(s) && h in s.handlers && NextLoadEndpoint(s, h, t)
    ensures Base(t) && Carried(s, t)
  {
    MoveCarries(s, h, t.handlers[h], t);
  }

  lemma LockCarries(s: Sys, h: Id, t: Sys)
    requires Base(s) && h in s.handlers && NextLock(s, h, t)
    ensures Base(t) && Carried(s, t)
  {
    MoveCarries(s, h, t.handlers[h], t);
  }

  lemma PeekCarries(s: Sys, h: Id, t: Sys)
    requires Base(s) && h in s.handlers && NextPeek(s, h, t)
    ensures Base(t) && Carried(s, t)
  {
    MoveCarries(s, h, t.handlers[h], t);
  }

  lemma NotHeadCarries(s: Sys, h: Id, t: Sys)
    requires Base(s) && h in s.handlers && NextNotHead(s, h, t)
    ensures Base(t) && Carried(s, t)
  {
    MoveCarries(s, h, t.handlers[h], t);
  }

  lemma GatesCarries(s: Sys, h: Id, gate: Gate, t: Sys)
    requires Base(s) && h in s.handlers && NextGates(s, h, gate, t)
    ensures Base(t) && Carried(s, t)
  {
    MoveCarries(s, h, t.handlers[h], t);
  }

  lemma BeginCarries(s: Sys, h: Id, t: Sys)
    requires Base(s) && h in s.handlers && NextBegin(s, h, t)
    ensures Base(t) && Carried(s, t)
  {
    MoveCarries(s, h, t.handlers[h], t);
  }

  lemma PostCarries(s: Sys, h: Id, t: Sys)
    requires Base(s) && h in s.handlers && NextPost(s, h, t)
    ensures Base(t) && Carried(s, t)
  {
    MoveCarries(s, h, t.handlers[h], t);
  }

  lemma WaitCarries(s: Sys, h: Id, response: Response, t: Sys)
    requires Base(s) && h in s.handlers && NextWait(s, h, response, t)
    ensures Base(t) && Carried(s, t)
  {
    MoveCarries(s, h, t.handlers[h], t);
  }

  lemma ConcludeRowsAgree(s: Sys, h: Id, jitter: real, t: Sys)
    requires RowsAgree(s) && h in s.handlers && NextConclude(s, h, jitter, t)
    ensures RowsAgree(t)
  {}

  lemma ConcludeMoves(s: Sys, h: Id, jitter: real, t: Sys)
    requires h in s.handlers && NextConclude(s, h, jitter, t)
    ensures h in t.handlers && Moves(s, h, t.handlers[h], t)
  {}

  lemma ConcludeCarries(s: Sys, h: Id, jitter: real, t: Sys)
    requires Base(s) && h in s.handlers && NextConclude(s, h, jitter, t)
    ensures Base(t) && Carried(s, t)
  {
    ConcludeRowsAgree(s, h, jitter, t);
    ConcludeMoves(s, h, jitter, t);
    MoveCarries(s, h, t.handlers[h], t);
  }

  lemma ZaddCarries(s: Sys, h: Id, now: real, t: Sys)
    requires Base(s) && h in s.handlers && NextZadd(s, h, now, t)
    ensures Base(t) && Carried(s, t)
  {
    MoveCarries(s, h, t.handlers[h], t);
  }

  lemma RefreshCarries(s: Sys, h: Id, t: Sys)
    requires Base(s) && h in s.handlers && NextRefresh(s, h, t)
    ensures Base(t) && Carried(s, t)
  {
    MoveCarries(s, h, t.handlers[h], t);
  }

  lemma PopCarries(s: Sys, h: Id, t: Sys)
    requires Base(s) && h in s.handlers && NextPop(s, h, t)
    ensures Base(t) && Carried(s, t)
  {
    MoveCarries(s, h, t.handlers[h], t);
  }

  lemma UnlockCarries(s: Sys, h: Id, t: Sys)
    requires Base(s) && h in s.handlers && NextUnlock(s, h, t)
    ensures Base(t) && Carried(s, t)
  {
    MoveCarries(s, h, t.handlers[h], t);
  }

  // ---- Handlers that leave ----

  // Handler h is gone; if it acknowledged its message it was cleared to.
  ghost predicate Leaves(s: Sys, h: Id, t: Sys) {
    && h in s.handlers && t.handlers == s.handlers - {h}
    && (t.pel == s.pel || (t.pel == s.pel - {s.handlers[h].msg} && Cleared(s.handlers[h])))
    && t.rows == s.rows && t.unread == s.unread && t.retries == s.retries && t.replays == s.replays
    && t.ingests == s.ingests && t.next == s.next
    && t.hist.enqueued == s.hist.enqueued && t.hist.settled == s.hist.settled && t.hist.dropped == s.hist.dropped
    && t.hist.overwritten == s.hist.overwritten
  }

  lemma LeavingCarries(s: Sys, h: Id, t: Sys)
    requires Base(s) && Leaves(s, h, t)
    ensures Base(t) && Carried(s, t)
  {
    forall d | HasCopy(s, d) ensures HasCopy(t, d) {
      var c :| IsCopy(s, d, c);
      assert IsCopy(t, d, c);
    }
    assert Steady(s, t);
  }

  lemma LeaveCarries(s: Sys, h: Id, t: Sys)
    requires Base(s) && h in s.handlers && NextLeave(s, h, t)
    ensures Base(t) && Carried(s, t)
  {
    LeavingCarries(s, h, t);
  }

  lemma CrashCarries(s: Sys, h: Id, t: Sys)
    requires Base(s) && NextCrash(s, h, t)
    ensures Base(t) && Carried(s, t)
  {
    LeavingCarries(s, h, t);
  }

  // ---- Everything else ----

  // All that the copies of deliveries are read from.
  ghost predicate SameQueues(s: Sys, t: Sys) {
    && t.unread == s.unread && t.pel == s.pel && t.retries == s.retries && t.handlers == s.handlers
    && t.replays == s.replays
  }

  lemma SameCopies(s: Sys, t: Sys)
    requires SameQueues(s, t) && Steady(s, t)
    ensures Carried(s, t)
  {
    forall d | HasCopy(s, d) ensures HasCopy(t, d) {
      var c :| IsCopy(s, d, c);
      assert IsCopy(t, d, c);
    }
  }

  lemma ExpiryCarries(s: Sys, ep: Id)
    requires Base(s)
    ensures Base(s.(locks := s.locks - {ep})) && Carried(s, s.(locks := s.locks - {ep}))
  {
    SameCopies(s, s.(locks := s.locks - {ep}));
  }

  lemma EndpointsCarry(s: Sys, step: Step, t: Sys)
    requires Base(s) && NextEndpoint(s, step, t)
    ensures Base(t) && Carried(s, t)
  {
    SameCopies(s, t);
  }

  // Copies that a step can only leave alone: it adds entries, handlers and replays under fresh names, and takes
  // nothing but what `gone` names.
  ghost predicate KeepsCopiesBut(s: Sys, t: Sys, gone: Copy) {
    && (forall m | m in s.unread && gone != InStream(m) :: m in t.unread && t.unread[m] == s.unread[m])
    && (gone != InRetries ==> s.retries.Keys <= t.retries.Keys)
    && (forall m | m in s.pel :: m in t.pel && t.pel[m] == s.pel[m])
    && (forall h | h in t.handlers && Cleared(t.handlers[h]) :: h in s.handlers && s.handlers[h] == t.handlers[h])
    && (forall r | r in s.replays && gone != InReplay(r) ::
          r in t.replays && t.replays[r].delivery == s.replays[r].delivery
          && (t.replays[r].pc.Selected? ==> s.replays[r].pc.Selected?))
  }

  lemma CopySurvives(s: Sys, t: Sys, gone: Copy, d: Id)
    requires KeepsCopiesBut(s, t, gone) && HasCopy(s, d) && !IsCopy(s, d, gone)
    ensures HasCopy(t, d)
  {
    var c :| IsCopy(s, d, c);
    assert IsCopy(t, d, c);
  }

  lemma NothingGone(s: Sys, t: Sys)
    requires Numbered(s) && KeepsCopiesBut(s, t, InStream(s.next))
    ensures CopiesStay(s, t)
  {
    forall d | HasCopy(s, d) ensures HasCopy(t, d) { CopySurvives(s, t, InStream(s.next), d); }
  }

  lemma IngestCommitCarries(s: Sys, ep: Id, t: Sys)
    requires Base(s) && NextIngestCommit(s, ep, t)
    ensures Base(t) && Carried(s, t)
  {
    NothingGone(s, t);
  }

  lemma IngestPushCarries(s: Sys, d: Id, t: Sys)
    requires Base(s) && NextIngestPush(s, d, t)
    ensures Base(t) && Carried(s, t)
  {
    NothingGone(s, t);
  }

  lemma IngestAddCarries(s: Sys, d: Id, t: Sys)
    requires Base(s) && NextIngestAdd(s, d, t)
    ensures Base(t) && Carried(s, t)
  {
    IngestAddKeepsNumbers(s, d, t);
    NothingGone(s, t);
    AddedHasCopy(s, d, t);
  }

  lemma IngestAddKeepsNumbers(s: Sys, d: Id, t: Sys)
    requires Numbered(s) && NextIngestAdd(s, d, t)
    ensures Numbered(t)
  {}

  lemma AddedHasCopy(s: Sys, d: Id, t: Sys)
    requires NextIngestAdd(s, d, t)
    ensures NewOnesHaveCopies(s, t)
  {
    assert IsCopy(t, d, InStream(s.next));
  }

  lemma SelectCarries(s: Sys, d: Id, t: Sys)
    requires Base(s) && NextReplaySelect(s, d, t)
    ensures Base(t) && Carried(s, t)
  {
    NothingGone(s, t);
  }

  lemma ResetCarries(s: Sys, r: Id, t: Sys)
    requires Base(s) && r in s.replays && NextReset(s, r, t)
    ensures Base(t) && Carried(s, t)
  {
    ResetKeepsNumbers(s, r, t);
    var e := s.replays[r].delivery;
    if e in s.rows { assert IsCopy(t, e, InReplay(r)); }
    forall d | HasCopy(s, d) ensures HasCopy(t, d) {
      CopySurvives(s, t, if e in s.rows then InStream(s.next) else InReplay(r), d);
    }
  }

  lemma ResetKeepsNumbers(s: Sys, r: Id, t: Sys)
    requires Numbered(s) && RowsAgree(s) && r in s.replays && NextReset(s, r, t)
    ensures Numbered(t) && RowsAgree(t)
  {}

  lemma RemoveCarries(s: Sys, r: Id, t: Sys)
    requires Base(s) && r in s.replays && NextRemove(s, r, t)
    ensures Base(t) && Carried(s, t)
  {
    assert IsCopy(t, s.replays[r].delivery, InReplay(r));
    forall d | HasCopy(s, d) ensures HasCopy(t, d) {
      if d != s.replays[r].delivery { OtherCopySurvives(s, t, s.replays[r].delivery, d); }
    }
  }

  lemma RequeueCarries(s: Sys, r: Id, t: Sys)
    requires Base(s) && r in s.replays && NextRequeue(s, r, t)
    ensures Base(t) && Carried(s, t)
  {
    NothingGone(s, t);
  }

  lemma ReaddCarries(s: Sys, r: Id, t: Sys)
    requires Base(s) && r in s.replays && NextReadd(s, r, t)
    ensures Base(t) && Carried(s, t)
  {
    assert IsCopy(t, s.replays[r].delivery, InStream(s.next));
    forall d | HasCopy(s, d) ensures HasCopy(t, d) {
      if d != s.replays[r].delivery { CopySurvives(s, t, InReplay(r), d); }
    }
  }

  lemma ReplayCarries(s: Sys, r: Id, t: Sys)
    requires Base(s) && r in s.replays && NextReplay(s, r, t)
    ensures Base(t) && Carried(s, t)
  {
    match s.replays[r].pc {
      case Selected => ResetCarries(s, r, t);
      case Committed => RemoveCarries(s, r, t);
      case Removed => RequeueCarries(s, r, t);
      case Pushed => ReaddCarries(s, r, t);
    }
  }

  // Taking one delivery off the retry queue leaves the others' copies.
  lemma OtherCopySurvives(s: Sys, t: Sys, taken: Id, d: Id)
    requires KeepsCopiesBut(s, t, InRetries) && s.retries.Keys - {taken} <= t.retries.Keys
    requires HasCopy(s, d) && d != taken
    ensures HasCopy(t, d)
  {
    var c :| IsCopy(s, d, c);
    assert IsCopy(t, d, c);
  }

  lemma MoveDueCarries(s: Sys, d: Id, now: real, t: Sys)
    requires Base(s) && NextMoveDue(s, d, now, t)
    ensures Base(t) && Carried(s, t)
  {
    MoveDueKeepsNumbers(s, d, now, t);
    assert IsCopy(t, d, InStream(s.next));
    forall e | HasCopy(s, e) ensures HasCopy(t, e) {
      if e != d { OtherCopySurvives(s, t, d, e); }
    }
  }

  lemma MoveDueKeepsNumbers(s: Sys, d: Id, now: real, t: Sys)
    requires Numbered(s) && NextMoveDue(s, d, now, t)
    ensures Numbered(t)
  {}

  // A handler starts with nothing read.
  lemma StartKeepsNumbers(s: Sys, m: Id, d: Id, t: Sys)
    requires Numbered(s) && SnapshotsUnsettled(s) && m < s.next && d < s.next
    requires t == s.(unread := s.unread - {m}, pel := s.pel[m := d],
                     handlers := s.handlers[s.next := NewHandler(m, d)], next := s.next + 1)
    requires forall h | h in s.handlers && s.handlers[h].msg == m :: s.handlers[h].delivery == d
    ensures Numbered(t) && SnapshotsUnsettled(t)
  {}

  lemma ClaimCarries(s: Sys, m: Id, t: Sys)
    requires Base(s) && NextClaim(s, m, t)
    ensures Base(t) && Carried(s, t)
  {
    StartKeepsNumbers(s, m, s.unread[m], t);
    ClaimKeepsCopies(s, m, t);
    assert Steady(s, t);
  }

  lemma ClaimKeepsCopies(s: Sys, m: Id, t: Sys)
    requires Numbered(s) && NextClaim(s, m, t)
    ensures CopiesStay(s, t)
  {
    forall d | HasCopy(s, d) ensures HasCopy(t, d) {
      if IsCopy(s, d, InStream(m)) {
        assert IsCopy(t, d, InPel(m));
      } else {
        CopySurvives(s, t, InStream(m), d);
      }
    }
  }

  lemma ReclaimCarries(s: Sys, m: Id, t: Sys)
    requires Base(s) && NextReclaim(s, m, t)
    ensures Base(t) && Carried(s, t)
  {
    assert s.unread - {m} == s.unread && s.pel[m := s.pel[m]] == s.pel;
    StartKeepsNumbers(s, m, s.pel[m], t);
    NothingGone(s, t);
    assert Steady(s, t);
  }

  lemma AdvanceCarries(s: Sys, h: Id, c: Choice, t: Sys)
    requires Base(s) && h in s.handlers && NextAdvance(s, h, c, t)
    ensures Base(t) && Carried(s, t)
  {
    match s.handlers[h].pc {
      case Load => LoadCarries(s, h, t);
      case LoadEndpoint => LoadEndpointCarries(s, h, t);
      case Lock => LockCarries(s, h, t);
      case Peek => PeekCarries(s, h, t);
      case NotHead => NotHeadCarries(s, h, t);
      case Gates => GatesCarries(s, h, c.gate, t);
      case Begin => BeginCarries(s, h, t);
      case Post => PostCarries(s, h, t);
      case Wait => WaitCarries(s, h, c.response, t);
      case Conclude => ConcludeCarries(s, h, c.jitter, t);
      case Schedule | Defer => ZaddCarries(s, h, c.now, t);
      case Refresh => RefreshCarries(s, h, t);
      case Pop => PopCarries(s, h, t);
      case Unlock => UnlockCarries(s, h, t);
      case Ack | Unwind => LeaveCarries(s, h, t);
    }
  }

  lemma StepCarries(s: Sys, step: Step, t: Sys)
    requires Base(s) && Next(s, step, t)
    ensures Base(t) && Carried(s, t)
  {
    match step {
      case AddEndpoint(_) | SetEndpoint(_, _) | DeleteEndpoint(_) => EndpointsCarry(s, step, t);
      case IngestCommit(ep) => IngestCommitCarries(s, ep, t);
      case IngestPush(d) => IngestPushCarries(s, d, t);
      case IngestAdd(d) => IngestAddCarries(s, d, t);
      case ReplaySelect(d) => SelectCarries(s, d, t);
      case ReplayStep(r) => ReplayCarries(s, r, t);
      case MoveDue(d, now) => MoveDueCarries(s, d, now, t);
      case Claim(m) => ClaimCarries(s, m, t);
      case Reclaim(m) => ReclaimCarries(s, m, t);
      case Advance(h, c) => AdvanceCarries(s, h, c, t);
      case Raise(h) => FailCarries(s, h);
      case Crash(h) => CrashCarries(s, h, t);
      case Expire(ep) => ExpiryCarries(s, ep);
    }
  }

  lemma StepKeepsInv(s: Sys, step: Step, t: Sys)
    requires Inv(s) && Next(s, step, t)
    ensures Inv(t)
  {
    StepCarries(s, step, t);
    CarriedKeepsInv(s, t);
  }

  lemma {:induction false} RunKeepsInv(ss: seq<Sys>, steps: seq<Step>, n: nat)
    requires IsRun(ss, steps) && n <= |steps|
    ensures Inv(ss[n])
  {
    if n > 0 {
      RunKeepsInv(ss, steps, n - 1);
      assert Leads(ss, steps, n - 1);
      StepKeepsInv(ss[n - 1], steps[n - 1], ss[n]);
    }
  }

  /** At-least-once: at every point of every run, a delivery that is owed is on a stream, on the retry queue, in a
      pending entry that no handler is cleared to acknowledge, or in a replay that has not pushed it yet. */
  lemma NothingOwedIsLost(ss: seq<Sys>, steps: seq<Step>, n: nat, d: Id)
    requires IsRun(ss, steps) && n <= |steps| && Owed(ss[n], d)
    ensures HasCopy(ss[n], d)
  {
    RunKeepsInv(ss, steps, n);
  }

  lemma AllOwedHaveCopies(ss: seq<Sys>, steps: seq<Step>)
    requires IsRun(ss, steps)
    ensures forall d | Owed(ss[|steps|], d) :: HasCopy(ss[|steps|], d)
  {
    RunKeepsInv(ss, steps, |steps|);
  }

  // ---- What the rows say ----

  /** The handler's next commit would put an unsettled status over a settled row. */
  predicate IsStaleCommit(s: Sys, h: Id, c: Choice) {
    && h in s.handlers && s.handlers[h].delivery in s.rows && Settled(s.rows[s.handlers[h].delivery].status)
    && var x := s.handlers[h];
       || (x.pc.Begin? && (x.snap.status.Pending? || x.snap.status.Failed?))
       || (x.pc.Conclude? && Verdict(s.configuredMax, x, c.jitter).0.Failed?)
  }

  /** A settled row turns unsettled exactly by such a commit, or by the replay that starts a new cycle. */
  lemma RowsUnsettleExactlyByStaleCommits(ss: seq<Sys>, steps: seq<Step>, n: nat, d: Id)
    requires IsRun(ss, steps) && n < |steps|
    requires d in ss[n].rows && Settled(ss[n].rows[d].status) && d in ss[n + 1].rows
    ensures !Settled(ss[n + 1].rows[d].status) <==>
              || (steps[n].Advance? && IsStaleCommit(ss[n], steps[n].handler, steps[n].choice)
                  && ss[n].handlers[steps[n].handler].delivery == d)
              || (steps[n].ReplayStep? && steps[n].replay in ss[n].replays
                  && ss[n].replays[steps[n].replay].pc.Selected? && ss[n].replays[steps[n].replay].delivery == d)
  {
    RunKeepsInv(ss, steps, n);
    assert Leads(ss, steps, n);
    UnsettlesExactly(ss[n], steps[n], ss[n + 1], d);
  }

  lemma UnsettlesExactly(s: Sys, step: Step, t: Sys, d: Id)
    requires Inv(s) && Next(s, step, t)
    requires d in s.rows && Settled(s.rows[d].status) && d in t.rows
    ensures !Settled(t.rows[d].status) <==>
              || (step.Advance? && IsStaleCommit(s, step.handler, step.choice)
                  && s.handlers[step.handler].delivery == d)
              || (step.ReplayStep? && step.replay in s.replays
                  && s.replays[step.replay].pc.Selected? && s.replays[step.replay].delivery == d)
  {
    match step {
      case Advance(h, c) => AdvanceUnsettles(s, h, c, t, d);
      case ReplayStep(r) =>
        if s.replays[r].pc.Selected? { ResetUnsettles(s, r, t, d); } else { ReplayKeepsRow(s, r, t); }
      case _ => OthersKeepRow(s, step, t, d);
    }
  }

  lemma AdvanceUnsettles(s: Sys, h: Id, c: Choice, t: Sys, d: Id)
    requires Inv(s) && h in s.handlers && NextAdvance(s, h, c, t)
    requires d in s.rows && Settled(s.rows[d].status)
    ensures d in t.rows
    ensures !Settled(t.rows[d].status) <==> IsStaleCommit(s, h, c) && s.handlers[h].delivery == d
  {
    AdvanceFrame(s, h, c, t);
    if s.handlers[h].pc.Begin? {
      BeginUnsettles(s, h, t, d);
    } else if s.handlers[h].pc.Conclude? {
      ConcludeUnsettles(s, h, c.jitter, t, d);
    }
  }

  lemma BeginUnsettles(s: Sys, h: Id, t: Sys, d: Id)
    requires Inv(s) && h in s.handlers && NextBegin(s, h, t)
    requires d in s.rows && Settled(s.rows[d].status)
    ensures d in t.rows
    ensures !Settled(t.rows[d].status) <==>
              s.handlers[h].delivery == d && (s.handlers[h].snap.status.Pending? || s.handlers[h].snap.status.Failed?)
  {}

  lemma ConcludeUnsettles(s: Sys, h: Id, jitter: real, t: Sys, d: Id)
    requires h in s.handlers && NextConclude(s, h, jitter, t)
    requires d in s.rows && Settled(s.rows[d].status)
    ensures d in t.rows
    ensures !Settled(t.rows[d].status) <==>
              s.handlers[h].delivery == d && Verdict(s.configuredMax, s.handlers[h], jitter).0.Failed?
  {}

  lemma ResetUnsettles(s: Sys, r: Id, t: Sys, d: Id)
    requires r in s.replays && NextReset(s, r, t)
    requires d in s.rows && Settled(s.rows[d].status)
    ensures d in t.rows
    ensures !Settled(t.rows[d].status) <==> s.replays[r].delivery == d
  {}

  // No other step writes a row that is there.
  lemma OthersKeepRow(s: Sys, step: Step, t: Sys, d: Id)
    requires Numbered(s) && Next(s, step, t) && !step.Advance? && !step.ReplayStep? && d in s.rows && d in t.rows
    ensures t.rows[d] == s.rows[d]
  {
    OutsideSteps(s, step, t);
  }
}
