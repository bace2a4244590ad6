/**
 The attempt budget of one cycle of a delivery (from its ingestion, or from a replay of it): attempt numbers, recorded
 attempts and lost attempts always add up, and the policy of relay/delivery/retry.py bounds them.

 Crashes and exceptions may happen anywhere. What is assumed is that no two handlers hold one delivery between reading
 its row and recording an outcome, and that no two replays have selected one delivery.
 */
module RetryBudget {
  import opened Protocol
  import opened AtLeastOnce
  import opened SingleCopy
  import Retry

  ghost predicate Alone(s: Sys) {
    && (forall h, k | h in s.handlers && k in s.handlers && Working(s.handlers[h]) && Working(s.handlers[k])
                      && s.handlers[h].delivery == s.handlers[k].delivery && s.handlers[h].delivery in s.rows :: h == k)
    && (forall r, q | r in s.replays && q in s.replays && s.replays[r].pc.Selected? && s.replays[q].pc.Selected?
                      && s.replays[r].delivery == s.replays[q].delivery :: r == q)
  }

  ghost predicate IsExclusiveRun(ss: seq<Sys>, steps: seq<Step>) {
    IsRun(ss, steps) && forall i: nat | i < |ss| :: Alone(ss[i])
  }

  /** A handler is between the commit that counts an attempt and the commit that records it. */
  ghost predicate Attempting(s: Sys, d: Id) {
    exists h :: h in s.handlers && s.handlers[h].delivery == d && Mid(s.handlers[h])
  }

  function InFlight(attempting: bool): nat {
    if attempting then 1 else 0
  }

  predicate Increasing(ns: seq<nat>) {
    forall i, j | 0 <= i < j < |ns| :: ns[i] < ns[j]
  }

  predicate Within(ns: seq<nat>, bound: int) {
    forall i | 0 <= i < |ns| :: 1 <= ns[i] <= bound
  }

  // Every recorded attempt, but for one that settled the delivery, left the policy room for another.
  predicate Retried(ns: seq<nat>, settled: bool, configuredMax: int) {
    forall i | 0 <= i < |ns| - (if settled then 1 else 0) :: ns[i] < configuredMax
  }

  /** The books of one cycle. */
  ghost predicate Ledger(s: Sys, d: Id)
    requires d in s.rows
  {
    var ns := Numbers(s.hist.numbers, d);
    var row := s.rows[d];
    && row.attempts == |ns| + Count(s.hist.lost, d) + InFlight(Attempting(s, d))
    && Increasing(ns)
    && Within(ns, row.attempts - InFlight(Attempting(s, d)))
    && Retried(ns, Settled(row.status), s.configuredMax)
  }

  ghost predicate Ledgers(s: Sys) {
    forall d | d in s.rows :: Ledger(s, d)
  }

  // A working handler's snapshot is what the row says.
  ghost predicate UpToDate(s: Sys) {
    forall h | h in s.handlers && Working(s.handlers[h]) && s.handlers[h].delivery in s.rows ::
      s.handlers[h].snap == s.rows[s.handlers[h].delivery]
  }

  ghost predicate SelectedAreDead(s: Sys) {
    forall r | r in s.replays && s.replays[r].pc.Selected? && s.replays[r].delivery in s.rows ::
      s.rows[s.replays[r].delivery].status.Dead?
  }

  ghost predicate Known(s: Sys) {
    && (forall d | d in s.hist.numbers :: d < s.next)
    && (forall d | d in s.hist.lost :: d < s.next)
  }

  ghost predicate Budget(s: Sys) {
    UpToDate(s) && SelectedAreDead(s) && Known(s) && Ledgers(s)
  }

  // ---- Handlers ----

  // Handler h becomes y, or is gone.
  ghost predicate Only(s: Sys, h: Id, t: Sys) {
    && h in s.handlers
    && (forall k | k in s.handlers && k != h :: k in t.handlers && t.handlers[k] == s.handlers[k])
    && (forall k | k in t.handlers && k != h :: k in s.handlers)
    && (h in t.handlers ==> t.handlers[h].delivery == s.handlers[h].delivery)
    && t.replays == s.replays && t.next == s.next && t.configuredMax == s.configuredMax
  }

  lemma OthersKeepAttempting(s: Sys, h: Id, t: Sys, d: Id)
    requires Only(s, h, t)
    requires s.handlers[h].delivery != d || (h in t.handlers && Mid(t.handlers[h]) == Mid(s.handlers[h]))
             || (!Mid(s.handlers[h]) && (h !in t.handlers || !Mid(t.handlers[h])))
    ensures Attempting(t, d) == Attempting(s, d)
  {
    if Attempting(s, d) {
      var k :| k in s.handlers && s.handlers[k].delivery == d && Mid(s.handlers[k]);
      assert k in t.handlers && t.handlers[k].delivery == d && Mid(t.handlers[k]);
    }
    if Attempting(t, d) {
      var k :| k in t.handlers && t.handlers[k].delivery == d && Mid(t.handlers[k]);
      assert k in s.handlers && s.handlers[k].delivery == d && Mid(s.handlers[k]);
    }
  }

  /** A handler that neither counts nor records nor loses an attempt leaves every cycle's books as they are. */
  lemma QuietMove(s: Sys, h: Id, t: Sys)
    requires Budget(s) && Only(s, h, t) && t.rows == s.rows
    requires t.hist.numbers == s.hist.numbers && t.hist.lost == s.hist.lost
    requires if h in t.handlers then Mid(t.handlers[h]) == Mid(s.handlers[h]) else !Mid(s.handlers[h])
    requires h in t.handlers && Working(t.handlers[h]) && t.handlers[h].delivery in s.rows ==>
               t.handlers[h].snap == s.rows[t.handlers[h].delivery]
    ensures Budget(t)
  {
    forall d | d in t.rows ensures Ledger(t, d) {
      OthersKeepAttempting(s, h, t, d);
      assert Ledger(s, d);
    }
  }

  // When the one handler that attempts d stops, nobody attempts it.
  lemma StopsAttempting(s: Sys, h: Id, t: Sys)
    requires Alone(s) && Only(s, h, t) && s.handlers[h].delivery in s.rows && Working(s.handlers[h])
    requires h in t.handlers ==> !Mid(t.handlers[h])
    ensures !Attempting(t, s.handlers[h].delivery)
    ensures Attempting(s, s.handlers[h].delivery) == Mid(s.handlers[h])
  {
    var d := s.handlers[h].delivery;
    assert forall k | k in t.handlers && t.handlers[k].delivery == d && k != h ::
      k in s.handlers && s.handlers[k] == t.handlers[k] && !Working(s.handlers[k]);
    if Attempting(s, d) {
      var k :| k in s.handlers && s.handlers[k].delivery == d && Mid(s.handlers[k]);
    }
  }

  /** A handler that dies, or unwinds, in the middle of an attempt moves it from in flight to lost. */
  lemma LosingMove(s: Sys, h: Id, t: Sys)
    requires Alone(s) && Numbered(s) && Budget(s) && Only(s, h, t) && t.rows == s.rows
    requires t.hist == Losing(s.hist, s.handlers[h])
    requires h in t.handlers ==> !Working(t.handlers[h])
    ensures Budget(t)
  {
    if !Mid(s.handlers[h]) {
      QuietMove(s, h, t);
    } else {
      var e := s.handlers[h].delivery;
      forall d | d in t.rows ensures Ledger(t, d) {
        assert Ledger(s, d);
        if d == e { StopsAttempting(s, h, t); } else { OthersKeepAttempting(s, h, t, d); }
      }
    }
  }

  lemma FailKeepsBudget(s: Sys, h: Id)
    requires Alone(s) && Numbered(s) && Budget(s) && h in s.handlers
    ensures Budget(Fail(s, h))
  {
    LosingMove(s, h, Fail(s, h));
  }

  lemma LoadKeepsBudget(s: Sys, h: Id, t: Sys)
    requires Budget(s) && h in s.handlers && NextLoad(s, h, t)
    ensures Budget(t)
  {
    QuietMove(s, h, t);
  }

  lemma LoadEndpointKeepsBudget(s: Sys, h: Id, t: Sys)
    requires Budget(s) && h in s.handlers && NextLoadEndpoint(s, h, t)
    ensures Budget(t)
  {
    QuietMove(s, h, t);
  }

  lemma LockKeepsBudget(s: Sys, h: Id, t: Sys)
    requires Budget(s) && h in s.handlers && NextLock(s, h, t)
    ensures Budget(t)
  {
    QuietMove(s, h, t);
  }

  lemma PeekKeepsBudget(s: Sys, h: Id, t: Sys)
    requires Budget(s) && h in s.handlers && NextPeek(s, h, t)
    ensures Budget(t)
  {
    QuietMove(s, h, t);
  }

  lemma NotHeadKeepsBudget(s: Sys, h: Id, t: Sys)
    requires Budget(s) && h in s.handlers && NextNotHead(s, h, t)
    ensures Budget(t)
  {
    QuietMove(s, h, t);
  }

  lemma GatesKeepsBudget(s: Sys, h: Id, gate: Gate, t: Sys)
    requires Budget(s) && h in s.handlers && NextGates(s, h, gate, t)
    ensures Budget(t)
  {
    QuietMove(s, h, t);
  }

  lemma PostKeepsBudget(s: Sys, h: Id, t: Sys)
    requires Budget(s) && h in s.handlers && NextPost(s, h, t)
    ensures Budget(t)
  {
    QuietMove(s, h, t);
  }

  lemma WaitKeepsBudget(s: Sys, h: Id, response: Response, t: Sys)
    requires Budget(s) && h in s.handlers && NextWait(s, h, response, t)
    ensures Budget(t)
  {
    QuietMove(s, h, t);
  }

  lemma ZaddKeepsBudget(s: Sys, h: Id, now: real, t: Sys)
    requires Budget(s) && h in s.handlers && NextZadd(s, h, now, t)
    ensures Budget(t)
  {
    QuietMove(s, h, t);
  }

  lemma RefreshKeepsBudget(s: Sys, h: Id, t: Sys)
    requires Budget(s) && h in s.handlers && NextRefresh(s, h, t)
    ensures Budget(t)
  {
    QuietMove(s, h, t);
  }

  lemma PopKeepsBudget(s: Sys, h: Id, t: Sys)
    requires Budget(s) && h in s.handlers && NextPop(s, h, t)
    ensures Budget(t)
  {
    QuietMove(s, h, t);
  }

  lemma UnlockKeepsBudget(s: Sys, h: Id, t: Sys)
    requires Budget(s) && h in s.handlers && NextUnlock(s, h, t)
    ensures Budget(t)
  {
    QuietMove(s, h, t);
  }

  lemma LeaveKeepsBudget(s: Sys, h: Id, t: Sys)
    requires Budget(s) && h in s.handlers && NextLeave(s, h, t)
    ensures Budget(t)
  {
    QuietMove(s, h, t);
  }

  // The 'delivering' commit counts one more attempt, which is then in flight.
  ghost predicate Counts(s: Sys, h: Id, t: Sys) {
    && Only(s, h, t) && h in t.handlers && Mid(t.handlers[h])
    && t.hist.numbers == s.hist.numbers && t.hist.lost == s.hist.lost
    && var x := s.handlers[h];
       && Working(x) && !Mid(x) && x.delivery in s.rows && !Settled(s.rows[x.delivery].status)
       && t.handlers[h].snap == s.rows[x.delivery].(status := Delivering, attempts := s.rows[x.delivery].attempts + 1)
       && t.rows == s.rows[x.delivery := t.handlers[h].snap]
  }

  lemma CountedInLedger(s: Sys, h: Id, t: Sys)
    requires Alone(s) && Counts(s, h, t) && Ledger(s, s.handlers[h].delivery)
    ensures Ledger(t, s.handlers[h].delivery)
  {
    StopsAttempting(s, h, s.(handlers := s.handlers - {h}));
    assert t.handlers[h].delivery == s.handlers[h].delivery;
  }

  lemma CountingKeepsBudget(s: Sys, h: Id, t: Sys)
    requires Alone(s) && Budget(s) && Counts(s, h, t)
    ensures Budget(t)
  {
    CountedInLedger(s, h, t);
    OthersKeepLedgers(s, h, t);
  }

  lemma BeginKeepsBudget(s: Sys, h: Id, t: Sys)
    requires Alone(s) && Inv(s) && Budget(s) && h in s.handlers && NextBegin(s, h, t)
    ensures Budget(t)
  {
    if s.handlers[h].delivery !in s.rows {
      FailKeepsBudget(s, h);
    } else {
      assert Working(s.handlers[h]) && s.handlers[h].snap == s.rows[s.handlers[h].delivery];
      CountingKeepsBudget(s, h, t);
    }
  }

  // The outcome commit records it; a delivery it leaves unsettled had budget left.
  ghost predicate Records(s: Sys, h: Id, t: Sys) {
    && Only(s, h, t) && h in t.handlers && !Working(t.handlers[h])
    && var x := s.handlers[h];
       && x.pc.Conclude? && x.delivery in s.rows && t.rows.Keys == s.rows.Keys
       && t.rows == s.rows[x.delivery := s.rows[x.delivery].(status := t.rows[x.delivery].status)]
       && t.hist.numbers == s.hist.numbers[x.delivery := Numbers(s.hist.numbers, x.delivery) + [x.snap.attempts]]
       && t.hist.lost == s.hist.lost
       && (!Settled(t.rows[x.delivery].status) ==> x.snap.attempts < s.configuredMax)
  }

  lemma ConcludeRecords(s: Sys, h: Id, jitter: real, t: Sys)
    requires h in s.handlers && NextConclude(s, h, jitter, t) && s.handlers[h].delivery in s.rows
    ensures Records(s, h, t)
  {}

  lemma RecordedInLedger(s: Sys, h: Id, t: Sys)
    requires Alone(s) && UpToDate(s) && SnapshotsUnsettled(s) && Records(s, h, t)
    requires Ledger(s, s.handlers[h].delivery)
    ensures Ledger(t, s.handlers[h].delivery)
  {
    var x := s.handlers[h];
    assert Working(x) && x.snap == s.rows[x.delivery];
    StopsAttempting(s, h, t);
  }

  lemma OthersStayUpToDate(s: Sys, h: Id, t: Sys)
    requires Alone(s) && UpToDate(s) && Records(s, h, t)
    ensures UpToDate(t)
  {
    assert Working(s.handlers[h]);
  }

  lemma RecordingKeepsBudget(s: Sys, h: Id, t: Sys)
    requires Alone(s) && Inv(s) && Budget(s) && Records(s, h, t)
    ensures Budget(t)
  {
    RecordingKeepsLedgers(s, h, t);
    OthersStayUpToDate(s, h, t);
    RecordingKeepsSelected(s, h, t);
  }

  lemma RecordingKeepsLedgers(s: Sys, h: Id, t: Sys)
    requires Alone(s) && SnapshotsUnsettled(s) && UpToDate(s) && Ledgers(s) && Records(s, h, t)
    ensures Ledgers(t)
  {
    RecordedInLedger(s, h, t);
    OthersKeepLedgers(s, h, t);
  }

  // The row it writes was not dead, and its number was known.
  lemma RecordingKeepsSelected(s: Sys, h: Id, t: Sys)
    requires Numbered(s) && SnapshotsUnsettled(s) && UpToDate(s) && SelectedAreDead(s) && Known(s) && Records(s, h, t)
    ensures SelectedAreDead(t) && Known(t)
  {
    assert Working(s.handlers[h]);
  }

  lemma ConcludeKeepsBudget(s: Sys, h: Id, jitter: real, t: Sys)
    requires Alone(s) && Inv(s) && Budget(s) && h in s.handlers && NextConclude(s, h, jitter, t)
    ensures Budget(t)
  {
    if s.handlers[h].delivery !in s.rows {
      FailKeepsBudget(s, h);
    } else {
      ConcludeRecords(s, h, jitter, t);
      RecordingKeepsBudget(s, h, t);
    }
  }

  lemma OthersKeepLedgers(s: Sys, h: Id, t: Sys)
    requires Ledgers(s) && Only(s, h, t) && t.rows.Keys == s.rows.Keys
    requires forall d | d in s.rows && d != s.handlers[h].delivery ::
               && t.rows[d] == s.rows[d] && Numbers(t.hist.numbers, d) == Numbers(s.hist.numbers, d)
               && Count(t.hist.lost, d) == Count(s.hist.lost, d)
    requires s.handlers[h].delivery in s.rows ==> Ledger(t, s.handlers[h].delivery)
    ensures Ledgers(t)
  {
    forall d | d in t.rows ensures Ledger(t, d) {
      if d != s.handlers[h].delivery {
        assert Ledger(s, d);
        OthersKeepAttempting(s, h, t, d);
      }
    }
  }

  lemma AdvanceKeepsBudget(s: Sys, h: Id, c: Choice, t: Sys)
    requires Alone(s) && Inv(s) && Budget(s) && h in s.handlers && NextAdvance(s, h, c, t)
    ensures Budget(t)
  {
    match s.handlers[h].pc {
      case Load => LoadKeepsBudget(s, h, t);
      case LoadEndpoint => LoadEndpointKeepsBudget(s, h, t);
      case Lock => LockKeepsBudget(s, h, t);
      case Peek => PeekKeepsBudget(s, h, t);
      case NotHead => NotHeadKeepsBudget(s, h, t);
      case Gates => GatesKeepsBudget(s, h, c.gate, t);
      case Begin => BeginKeepsBudget(s, h, t);
      case Post => PostKeepsBudget(s, h, t);
      case Wait => WaitKeepsBudget(s, h, c.response, t);
      case Conclude => ConcludeKeepsBudget(s, h, c.jitter, t);
      case Schedule | Defer => ZaddKeepsBudget(s, h, c.now, t);
      case Refresh => RefreshKeepsBudget(s, h, t);
      case Pop => PopKeepsBudget(s, h, t);
      case Unlock => UnlockKeepsBudget(s, h, t);
      case Ack | Unwind => LeaveKeepsBudget(s, h, t);
    }
  }

  // ---- All other steps ----

  // Rows are only removed or added under fresh names, handlers only added, at Load.
  ghost predicate Aside(s: Sys, t: Sys) {
    && t.hist.numbers == s.hist.numbers && t.hist.lost == s.hist.lost && t.configuredMax == s.configuredMax
    && s.next <= t.next
    && (forall d | d in t.rows && d != s.next :: d in s.rows && t.rows[d] == s.rows[d])
    && (s.next in t.rows ==> t.rows[s.next].attempts == 0 && t.rows[s.next].status.Pending?)
    && (forall h | h in s.handlers :: h in t.handlers && t.handlers[h] == s.handlers[h])
    && (forall h | h in t.handlers && h !in s.handlers :: t.handlers[h].pc.Load?)
  }

  lemma AsideKeepsAttempting(s: Sys, t: Sys, d: Id)
    requires Numbered(s) && Aside(s, t)
    ensures Attempting(t, d) == Attempting(s, d) && (d == s.next ==> !Attempting(t, d))
  {
    if Attempting(t, d) {
      var k :| k in t.handlers && t.handlers[k].delivery == d && Mid(t.handlers[k]);
      assert k in s.handlers && s.handlers[k].delivery == d && Mid(s.handlers[k]);
    }
    if Attempting(s, d) {
      var k :| k in s.handlers && s.handlers[k].delivery == d && Mid(s.handlers[k]);
      assert k in t.handlers && t.handlers[k].delivery == d && Mid(t.handlers[k]);
    }
  }

  lemma AsideKeepsLedgers(s: Sys, t: Sys)
    requires Numbered(s) && Known(s) && Ledgers(s) && Aside(s, t)
    ensures Ledgers(t)
  {
    forall d | d in t.rows ensures Ledger(t, d) {
      AsideKeepsAttempting(s, t, d);
      if d != s.next { assert Ledger(s, d); }
    }
  }

  lemma AsideKeepsBudget(s: Sys, t: Sys)
    requires Numbered(s) && Budget(s) && Aside(s, t) && SelectedAreDead(t)
    ensures Budget(t)
  {
    AsideKeepsLedgers(s, t);
  }

  lemma EndpointsKeepBudget(s: Sys, step: Step, t: Sys)
    requires Numbered(s) && Budget(s) && NextEndpoint(s, step, t)
    ensures Budget(t)
  {
    AsideKeepsBudget(s, t);
  }

  lemma IngestCommitKeepsBudget(s: Sys, ep: Id, t: Sys)
    requires Numbered(s) && Budget(s) && NextIngestCommit(s, ep, t)
    ensures Budget(t)
  {
    AsideKeepsBudget(s, t);
  }

  lemma IngestPushKeepsBudget(s: Sys, d: Id, t: Sys)
    requires Numbered(s) && Budget(s) && NextIngestPush(s, d, t)
    ensures Budget(t)
  {
    AsideKeepsBudget(s, t);
  }

  lemma IngestAddKeepsBudget(s: Sys, d: Id, t: Sys)
    requires Numbered(s) && Budget(s) && NextIngestAdd(s, d, t)
    ensures Budget(t)
  {
    AsideKeepsBudget(s, t);
  }

  lemma SelectKeepsBudget(s: Sys, d: Id, t: Sys)
    requires Numbered(s) && Budget(s) && NextReplaySelect(s, d, t)
    ensures Budget(t)
  {
    AsideKeepsBudget(s, t);
  }

  lemma MoveDueKeepsBudget(s: Sys, d: Id, now: real, t: Sys)
    requires Numbered(s) && Budget(s) && NextMoveDue(s, d, now, t)
    ensures Budget(t)
  {
    AsideKeepsBudget(s, t);
  }

  lemma ClaimKeepsBudget(s: Sys, m: Id, t: Sys)
    requires Numbered(s) && Budget(s) && NextClaim(s, m, t)
    ensures Budget(t)
  {
    AsideKeepsBudget(s, t);
  }

  lemma ReclaimKeepsBudget(s: Sys, m: Id, t: Sys)
    requires Numbered(s) && Budget(s) && NextReclaim(s, m, t)
    ensures Budget(t)
  {
    AsideKeepsBudget(s, t);
  }

  lemma RemoveKeepsBudget(s: Sys, r: Id, t: Sys)
    requires Numbered(s) && Budget(s) && r in s.replays && NextRemove(s, r, t)
    ensures Budget(t)
  {
    AsideKeepsBudget(s, t);
  }

  lemma RequeueKeepsBudget(s: Sys, r: Id, t: Sys)
    requires Numbered(s) && Budget(s) && r in s.replays && NextRequeue(s, r, t)
    ensures Budget(t)
  {
    AsideKeepsBudget(s, t);
  }

  lemma ReaddKeepsBudget(s: Sys, r: Id, t: Sys)
    requires Numbered(s) && Budget(s) && r in s.replays && NextReadd(s, r, t)
    ensures Budget(t)
  {
    AsideKeepsBudget(s, t);
  }

  // A replay finds the row dead, so nobody works on it, and opens new books.
  lemma ResetOpensBooks(s: Sys, r: Id, t: Sys)
    requires Inv(s) && Budget(s) && r in s.replays && NextReset(s, r, t) && s.replays[r].delivery in s.rows
    ensures Ledgers(t)
  {
    var e := s.replays[r].delivery;
    assert s.rows[e].status.Dead?;
    assert forall h | h in s.handlers && Working(s.handlers[h]) :: s.handlers[h].delivery != e;
    assert !Attempting(t, e);
    forall d | d in t.rows ensures Ledger(t, d) {
      assert Ledger(s, d);
      assert Attempting(t, d) == Attempting(s, d);
    }
  }

  lemma ResetKeepsBudget(s: Sys, r: Id, t: Sys)
    requires Alone(s) && Inv(s) && Budget(s) && r in s.replays && NextReset(s, r, t)
    ensures Budget(t)
  {
    var e := s.replays[r].delivery;
    if e !in s.rows {
      AsideKeepsBudget(s, t);
    } else {
      ResetOpensBooks(s, r, t);
      assert forall h | h in s.handlers && Working(s.handlers[h]) :: s.handlers[h].delivery != e;
    }
  }

  lemma ReplayKeepsBudget(s: Sys, r: Id, t: Sys)
    requires Alone(s) && Inv(s) && Budget(s) && r in s.replays && NextReplay(s, r, t)
    ensures Budget(t)
  {
    match s.replays[r].pc {
      case Selected => ResetKeepsBudget(s, r, t);
      case Committed => RemoveKeepsBudget(s, r, t);
      case Removed => RequeueKeepsBudget(s, r, t);
      case Pushed => ReaddKeepsBudget(s, r, t);
    }
  }

  lemma CrashKeepsBudget(s: Sys, h: Id, t: Sys)
    requires Alone(s) && Numbered(s) && Budget(s) && NextCrash(s, h, t)
    ensures Budget(t)
  {
    LosingMove(s, h, t);
  }

  lemma StepKeepsBudget(s: Sys, step: Step, t: Sys)
    requires Alone(s) && Inv(s) && Budget(s) && Next(s, step, t)
    ensures Budget(t)
  {
    match step {
      case AddEndpoint(_) | SetEndpoint(_, _) | DeleteEndpoint(_) => EndpointsKeepBudget(s, step, t);
      case IngestCommit(ep) => IngestCommitKeepsBudget(s, ep, t);
      case IngestPush(d) => IngestPushKeepsBudget(s, d, t);
      case IngestAdd(d) => IngestAddKeepsBudget(s, d, t);
      case ReplaySelect(d) => SelectKeepsBudget(s, d, t);
      case ReplayStep(r) => ReplayKeepsBudget(s, r, t);
      case MoveDue(d, now) => MoveDueKeepsBudget(s, d, now, t);
      case Claim(m) => ClaimKeepsBudget(s, m, t);
      case Reclaim(m) => ReclaimKeepsBudget(s, m, t);
      case Advance(h, c) => AdvanceKeepsBudget(s, h, c, t);
      case Raise(h) => FailKeepsBudget(s, h);
      case Crash(h) => CrashKeepsBudget(s, h, t);
      case Expire(_) => AsideKeepsBudget(s, t);
    }
  }

  lemma LeadKeepsBudget(ss: seq<Sys>, steps: seq<Step>, n: nat)
    requires IsExclusiveRun(ss, steps) && n < |steps| && Budget(ss[n])
    ensures Budget(ss[n + 1])
  {
    RunKeepsInv(ss, steps, n);
    assert Alone(ss[n]) && Leads(ss, steps, n);
    StepKeepsBudget(ss[n], steps[n], ss[n + 1]);
  }

  lemma {:induction false} RunKeepsBudget(ss: seq<Sys>, steps: seq<Step>, n: nat)
    requires IsExclusiveRun(ss, steps) && n <= |steps|
    ensures Budget(ss[n])
  {
    if n > 0 {
      RunKeepsBudget(ss, steps, n - 1);
      LeadKeepsBudget(ss, steps, n - 1);
    }
  }

  // ---- What the books say ----

  /** In every state of a cycle, the row's attempt count is the attempts recorded, plus those lost with a handler
      between its two commits, plus the one in flight; and the k-th recorded attempt (from 1) has a number between k
      and k plus the attempts lost, larger than all before it. */
  lemma AttemptsAddUp(ss: seq<Sys>, steps: seq<Step>, n: nat, d: Id)
    requires IsExclusiveRun(ss, steps) && n <= |steps| && d in ss[n].rows
    ensures var ns, lost := Numbers(ss[n].hist.numbers, d), Count(ss[n].hist.lost, d);
            && ss[n].rows[d].attempts == |ns| + lost + InFlight(Attempting(ss[n], d))
            && Increasing(ns)
            && forall i | 0 <= i < |ns| :: i + 1 <= ns[i] <= i + 1 + lost
  {
    RunKeepsBudget(ss, steps, n);
    assert Ledger(ss[n], d);
    var ns := Numbers(ss[n].hist.numbers, d);
    forall i | 0 <= i < |ns| ensures i + 1 <= ns[i] <= i + 1 + Count(ss[n].hist.lost, d) {
      NumbersSpread(ns, i, ss[n].rows[d].attempts - InFlight(Attempting(ss[n], d)));
    }
  }

  lemma {:induction false} NumbersSpread(ns: seq<nat>, i: nat, bound: int)
    requires Increasing(ns) && Within(ns, bound) && i < |ns|
    ensures i + 1 <= ns[i] <= bound - (|ns| - 1 - i)
  {
    NumbersClimb(ns, 0, i);
    NumbersClimb(ns, i, |ns| - 1);
  }

  lemma {:induction false} NumbersClimb(ns: seq<nat>, i: nat, j: nat)
    requires Increasing(ns) && i <= j < |ns|
    ensures ns[i] + (j - i) <= ns[j]
  {
    if i < j { NumbersClimb(ns, i, j - 1); }
  }

  /** With nothing lost in the cycle, the recorded attempts are numbered 1, 2, ..., n. */
  lemma NumbersAreConsecutive(ss: seq<Sys>, steps: seq<Step>, n: nat, d: Id)
    requires IsExclusiveRun(ss, steps) && n <= |steps| && d in ss[n].rows && Count(ss[n].hist.lost, d) == 0
    ensures var ns := Numbers(ss[n].hist.numbers, d); forall i | 0 <= i < |ns| :: ns[i] == i + 1
  {
    AttemptsAddUp(ss, steps, n, d);
  }

  /** However many attempts were lost, a cycle records at most max(1, configuredMax) of them, and fewer while the
      delivery is unsettled and the budget is at least 1. */
  lemma BudgetHolds(ss: seq<Sys>, steps: seq<Step>, n: nat, d: Id)
    requires IsExclusiveRun(ss, steps) && n <= |steps| && d in ss[n].rows
    ensures |Numbers(ss[n].hist.numbers, d)| <= Retry.Max(1, ss[n].configuredMax)
    ensures !Settled(ss[n].rows[d].status) ==>
              |Numbers(ss[n].hist.numbers, d)| <= Retry.Max(0, ss[n].configuredMax - 1)
  {
    RunKeepsBudget(ss, steps, n);
    assert Ledger(ss[n], d);
    AttemptsAddUp(ss, steps, n, d);
    var ns := Numbers(ss[n].hist.numbers, d);
    if |ns| >= 2 { assert ns[|ns| - 2] < ss[n].configuredMax; }
    if |ns| >= 1 && !Settled(ss[n].rows[d].status) { assert ns[|ns| - 1] < ss[n].configuredMax; }
  }

  // The handler's next commit records a failed attempt that the policy grants no other after.
  predicate IsLastFailure(s: Sys, h: Id, c: Choice) {
    && h in s.handlers && s.handlers[h].pc.Conclude? && s.handlers[h].delivery in s.rows
    && var x := s.handlers[h];
       && x.response.Failure?
       && Retry.NextDelaySeconds(s.rows[x.delivery].attempts, x.response.status, x.response.retryAfter,
                                 s.configuredMax, c.jitter).None?
  }

  /** A row turns dead exactly when such an attempt of it is recorded: the policy is asked about the row's own attempt
      count, whatever the handler's snapshot has been through. */
  lemma DeadExactlyWhenExhausted(ss: seq<Sys>, steps: seq<Step>, n: nat, d: Id)
    requires IsExclusiveRun(ss, steps) && n < |steps|
    requires d in ss[n].rows && !ss[n].rows[d].status.Dead? && d in ss[n + 1].rows
    ensures ss[n + 1].rows[d].status.Dead? <==>
              && steps[n].Advance? && IsLastFailure(ss[n], steps[n].handler, steps[n].choice)
              && ss[n].handlers[steps[n].handler].delivery == d
  {
    RunKeepsBudget(ss, steps, n);
    RunKeepsInv(ss, steps, n);
    assert Leads(ss, steps, n);
    DiesExactly(ss[n], steps[n], ss[n + 1], d);
  }

  lemma ConcludeDies(s: Sys, h: Id, c: Choice, t: Sys, d: Id)
    requires UpToDate(s) && h in s.handlers && NextConclude(s, h, c.jitter, t)
    requires d in s.rows && !s.rows[d].status.Dead?
    ensures d in t.rows
    ensures t.rows[d].status.Dead? <==> IsLastFailure(s, h, c) && s.handlers[h].delivery == d
  {
    assert Working(s.handlers[h]);
  }

  lemma BeginDoesNotKill(s: Sys, h: Id, t: Sys, d: Id)
    requires h in s.handlers && NextBegin(s, h, t) && d in s.rows && !s.rows[d].status.Dead?
    ensures d in t.rows && !t.rows[d].status.Dead?
  {}

  lemma AdvanceDies(s: Sys, h: Id, c: Choice, t: Sys, d: Id)
    requires UpToDate(s) && h in s.handlers && NextAdvance(s, h, c, t) && d in s.rows && !s.rows[d].status.Dead?
    ensures d in t.rows
    ensures t.rows[d].status.Dead? <==> IsLastFailure(s, h, c) && s.handlers[h].delivery == d
  {
    AdvanceFrame(s, h, c, t);
    if s.handlers[h].pc.Begin? {
      BeginDoesNotKill(s, h, t, d);
    } else if s.handlers[h].pc.Conclude? {
      ConcludeDies(s, h, c, t, d);
    }
  }

  lemma ResetDoesNotKill(s: Sys, r: Id, t: Sys, d: Id)
    requires r in s.replays && NextReset(s, r, t) && d in s.rows && !s.rows[d].status.Dead?
    ensures d in t.rows && !t.rows[d].status.Dead?
  {}

  lemma DiesExactly(s: Sys, step: Step, t: Sys, d: Id)
    requires Numbered(s) && UpToDate(s) && Next(s, step, t) && d in s.rows && !s.rows[d].status.Dead? && d in t.rows
    ensures t.rows[d].status.Dead? <==>
              step.Advance? && IsLastFailure(s, step.handler, step.choice) && s.handlers[step.handler].delivery == d
  {
    if step.Advance? {
      AdvanceDies(s, step.handler, step.choice, t, d);
    } else if step.ReplayStep? {
      if s.replays[step.replay].pc.Selected? {
        ResetDoesNotKill(s, step.replay, t, d);
      } else {
        ReplayKeepsRow(s, step.replay, t);
      }
    } else {
      OthersKeepRow(s, step, t, d);
    }
  }

  /** Nothing a handler does outside process_delivery, deferrals by any gate above all, touches a row, records an
      attempt or loses one. Only the 'delivering' commit counts, and only the outcome commit records. */
  lemma DeferralsCostNothing(s: Sys, h: Id, c: Choice, t: Sys)
    requires h in s.handlers && NextAdvance(s, h, c, t) && !s.handlers[h].pc.Begin? && !Mid(s.handlers[h])
    ensures t.rows == s.rows && t.hist.numbers == s.hist.numbers && t.hist.lost == s.hist.lost
  {
    AdvanceFrame(s, h, c, t);
  }

  /** Where nobody steals live work, nobody else holds a delivery either. */
  lemma TameRunsAreExclusive(ss: seq<Sys>, steps: seq<Step>)
    requires IsTameRun(ss, steps)
    ensures IsExclusiveRun(ss, steps)
  {
    forall i: nat | i < |ss| ensures Alone(ss[i]) {
      TameRunKeepsInv(ss, steps, i);
      TameIsAlone(ss[i]);
    }
  }

  lemma TameIsAlone(s: Sys)
    requires TameInv(s)
    ensures Alone(s)
  {
    forall h, k | h in s.handlers && k in s.handlers && Working(s.handlers[h]) && Working(s.handlers[k])
                  && s.handlers[h].delivery == s.handlers[k].delivery && s.handlers[h].delivery in s.rows
      ensures h == k
    {
      HandlerIsTheCopy(s, h);
      HandlerIsTheCopy(s, k);
    }
  }
}
