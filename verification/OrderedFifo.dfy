/**
 First-in first-out delivery on ordered endpoints, over runs without replays in which no lock expires under a handler
 that still holds it. Crashes, exceptions, duplicates and reclaimed live work are all allowed.
 */
module OrderedFifo {
  import opened Protocol
  import opened AtLeastOnce
  import opened OrderedLock
  import opened Provenance
  import Ordering

  /** A run without replays and with every lock holder inside its lease. */
  ghost predicate IsFifoRun(ss: seq<Sys>, steps: seq<Step>) {
    IsLeasedRun(ss, steps) && forall i: nat | i < |steps| :: !steps[i].ReplaySelect?
  }

  // ---- What an endpoint's queue has seen ----

  function Pushed(s: Sys, ep: Id): seq<Id> { List(s.hist.pushed, ep) }

  function Popped(s: Sys, ep: Id): nat { Count(s.hist.popped, ep) }

  function Sent(s: Sys, ep: Id): seq<Id> { List(s.hist.sent, ep) }

  predicate PushedTo(s: Sys, ep: Id, d: Id) { d in Pushed(s, ep) }

  predicate SentTo(s: Sys, ep: Id, d: Id) { d in Sent(s, ep) }

  predicate IsTurn(s: Sys, ep: Id, d: Id, k: int) {
    0 <= k <= Popped(s, ep) && k < |Pushed(s, ep)| && Pushed(s, ep)[k] == d
  }

  /** d is at the head of the queue or was popped from it. */
  ghost predicate Reached(s: Sys, ep: Id, d: Id) {
    exists k :: IsTurn(s, ep, d, k)
  }

  predicate Distinct(q: seq<Id>) {
    forall i, j | 0 <= i < j < |q| :: q[i] != q[j]
  }

  /** The order in which things are first seen in xs. */
  function FirstSeen(xs: seq<Id>): seq<Id> {
    if xs == [] then [] else
      var before := FirstSeen(xs[..|xs| - 1]);
      if xs[|xs| - 1] in before then before else before + [xs[|xs| - 1]]
  }

  lemma FirstSeenOnAppend(xs: seq<Id>, x: Id)
    ensures FirstSeen(xs + [x]) == if x in FirstSeen(xs) then FirstSeen(xs) else FirstSeen(xs) + [x]
  {
    assert (xs + [x])[..|xs|] == xs;
  }

  lemma {:induction false} FirstSeenHasAll(xs: seq<Id>, x: Id)
    ensures x in xs <==> x in FirstSeen(xs)
  {
    if xs != [] {
      FirstSeenHasAll(xs[..|xs| - 1], x);
      assert xs == xs[..|xs| - 1] + [xs[|xs| - 1]];
    }
  }

  // ---- The invariant: queues ----

  // The queue is what was pushed and not popped.
  predicate QueueOk(s: Sys, ep: Id) {
    && Distinct(Pushed(s, ep)) && Popped(s, ep) <= |Pushed(s, ep)|
    && List(s.queues, ep) == Pushed(s, ep)[Popped(s, ep)..]
  }

  ghost predicate QueuesOk(s: Sys) {
    forall ep: Id :: QueueOk(s, ep)
  }

  ghost predicate PushesOk(s: Sys) {
    forall ep: Id, d: Id | PushedTo(s, ep, d) ::
      && d < s.next && ep < s.next
      && (d in s.rows ==> s.rows[d].endpoint == ep) && (ep in s.endpoints ==> s.endpoints[ep].ordered)
  }

  ghost predicate RowsOk(s: Sys) {
    forall d | d in s.rows :: s.rows[d].endpoint in s.endpoints && s.rows[d].endpoint < s.next
  }

  // RPUSH comes before XADD.
  ghost predicate EnqueuedOk(s: Sys) {
    forall d | d in s.hist.enqueued && d in s.rows && s.rows[d].endpoint in s.endpoints
               && s.endpoints[s.rows[d].endpoint].ordered :: PushedTo(s, s.rows[d].endpoint, d)
  }

  ghost predicate IngestOk(s: Sys, d: Id)
    requires d in s.ingests
  {
    var x := s.ingests[d];
    && d !in s.hist.enqueued && x.endpoint < s.next
    && (d in s.rows ==> s.rows[d].endpoint == x.endpoint)
    && (x.endpoint in s.endpoints ==> s.endpoints[x.endpoint].ordered == x.ordered)
    && (x.pushed ==> PushedTo(s, x.endpoint, d))
    && (!x.pushed ==> forall ep: Id :: !PushedTo(s, ep, d))
  }

  ghost predicate IngestsOk(s: Sys) {
    && (forall d | d in s.ingests :: IngestOk(s, d))
    && (forall ep | ep in s.endpoints :: ep < s.next)
  }

  ghost predicate CopiesOk(s: Sys) {
    && s.replays == map[]
    && (forall m | m in s.unread :: s.unread[m] in s.hist.enqueued)
    && (forall m | m in s.pel :: s.pel[m] in s.hist.enqueued)
    && (forall d | d in s.retries :: d in s.hist.enqueued)
    && (forall d | d in s.hist.settled :: d in s.hist.enqueued)
  }

  ghost predicate Bookkeeping(s: Sys) {
    QueuesOk(s) && PushesOk(s) && RowsOk(s) && EnqueuedOk(s) && IngestsOk(s) && CopiesOk(s)
  }

  // ---- The invariant: handlers ----

  // The snapshot's endpoint is the one the delivery was pushed for.
  ghost predicate BoundOk(s: Sys, x: Handler) {
    var d, ep := x.delivery, x.snap.endpoint;
    && d in s.hist.enqueued && d < s.next
    && (PastLoad(x) ==>
          && ep < s.next
          && (d in s.rows ==> s.rows[d].endpoint == ep)
          && (x.pc.LoadEndpoint? && ep in s.endpoints ==> d in s.rows)
          && forall e: Id | PushedTo(s, e, d) :: e == ep)
    && (PastEndpoint(x) ==>
          && (PushedTo(s, ep, d) <==> x.ordered)
          && (ep in s.endpoints ==> x.ordered == s.endpoints[ep].ordered))
  }

  ghost predicate TurnOk(s: Sys, x: Handler) {
    var d, ep := x.delivery, x.snap.endpoint;
    && (x.ordered && HasTurn(x) ==> Reached(s, ep, d))
    && (x.pc.Wait? || x.pc.Conclude? ==> SentTo(s, ep, d))
    && (x.pc.Pop? && Settled(x.snap.status) ==> d in s.hist.settled)
    && (x.pc.Pop? && x.ordered && d in s.rows ==> s.rows[d].status == x.snap.status)
  }

  ghost predicate HandlerOk(s: Sys, x: Handler) {
    BoundOk(s, x) && TurnOk(s, x)
  }

  ghost predicate HandlersOk(s: Sys) {
    forall h | h in s.handlers :: HandlerOk(s, s.handlers[h])
  }

  // ---- The invariant: the log ----

  ghost predicate SettledWereSent(s: Sys) {
    && (forall ep: Id, d: Id | PushedTo(s, ep, d) && d in s.hist.settled :: SentTo(s, ep, d))
    && (forall ep: Id, d: Id | SentTo(s, ep, d) :: ep < s.next)
  }

  // k stands for what has been popped.
  predicate WasPopped(s: Sys, ep: Id, k: int) {
    0 <= k < Popped(s, ep) && k < |Pushed(s, ep)|
  }

  ghost predicate PoppedAreSettled(s: Sys) {
    forall ep: Id, k | WasPopped(s, ep, k) :: Pushed(s, ep)[k] in s.hist.settled
  }

  // First attempts so far: everything popped, and at most the head.
  predicate InOrder(s: Sys, ep: Id) {
    var seen := FirstSeen(Sent(s, ep));
    Popped(s, ep) <= |seen| <= Popped(s, ep) + 1 && seen <= Pushed(s, ep)
  }

  ghost predicate AllInOrder(s: Sys) {
    forall ep | ep in s.endpoints && s.endpoints[ep].ordered :: InOrder(s, ep)
  }

  ghost predicate Log(s: Sys) {
    SettledWereSent(s) && PoppedAreSettled(s) && AllInOrder(s)
  }

  ghost predicate Fifo(s: Sys) {
    Bookkeeping(s) && HandlersOk(s) && Log(s)
  }

  // ---- Exclusion ----

  /** Only one handler at a time has its turn with a delivery of an ordered endpoint. */
  lemma TurnIsExclusive(s: Sys, h: Id, k: Id)
    requires HandlersOk(s) && Locks(s) && h in s.handlers && k in s.handlers
    requires s.handlers[k].ordered && HasTurn(s.handlers[k]) && HasTurn(s.handlers[h])
    requires s.handlers[h].delivery == s.handlers[k].delivery
    ensures h == k
  {
    assert HandlerOk(s, s.handlers[h]) && HandlerOk(s, s.handlers[k]);
    SectionIsExclusive(s, h, k);
  }

  // ---- A handler's step ----

  // Nothing that queues, other handlers or the log depend on changes.
  ghost predicate Calm(s: Sys, h: Id, t: Sys) {
    && h in s.handlers
    && (forall k | k in t.handlers && k != h :: k in s.handlers && t.handlers[k] == s.handlers[k])
    && t.next == s.next && t.rows == s.rows && t.queues == s.queues && t.ingests == s.ingests && t.replays == s.replays
    && t.unread == s.unread && t.retries.Keys <= s.retries.Keys + {s.handlers[h].delivery}
    && (forall m | m in t.pel :: m in s.pel && t.pel[m] == s.pel[m])
    && t.endpoints.Keys == s.endpoints.Keys
    && (forall e | e in s.endpoints :: t.endpoints[e].ordered == s.endpoints[e].ordered)
    && t.hist.enqueued == s.hist.enqueued && t.hist.settled == s.hist.settled && t.hist.pushed == s.hist.pushed
    && t.hist.popped == s.hist.popped && t.hist.sent == s.hist.sent
  }

  lemma CalmKeepsBooks(s: Sys, h: Id, t: Sys)
    requires Bookkeeping(s) && Log(s) && HandlersOk(s) && Calm(s, h, t)
    ensures Bookkeeping(t) && Log(t)
  {
    assert HandlerOk(s, s.handlers[h]);
    forall ep: Id ensures QueueOk(t, ep) { assert QueueOk(s, ep); }
    forall ep: Id, d: Id | PushedTo(t, ep, d) ensures PushedTo(s, ep, d) {}
    forall d | d in t.ingests ensures IngestOk(t, d) {
      assert IngestOk(s, d);
      if !s.ingests[d].pushed {
        forall ep: Id ensures !PushedTo(t, ep, d) { assert !PushedTo(s, ep, d); }
      }
    }
    CalmKeepsLog(s, h, t);
  }

  lemma CalmKeepsLog(s: Sys, h: Id, t: Sys)
    requires Log(s) && Calm(s, h, t)
    ensures Log(t)
  {
    forall ep: Id, d: Id | PushedTo(t, ep, d) && d in t.hist.settled ensures SentTo(t, ep, d) {
      assert PushedTo(s, ep, d) && SentTo(s, ep, d);
    }
    forall ep: Id, d: Id | SentTo(t, ep, d) ensures ep < t.next { assert SentTo(s, ep, d); }
    forall ep: Id, k | WasPopped(t, ep, k) ensures Pushed(t, ep)[k] in t.hist.settled { assert WasPopped(s, ep, k); }
    forall ep | ep in t.endpoints && t.endpoints[ep].ordered ensures InOrder(t, ep) { assert InOrder(s, ep); }
  }

  lemma CalmKeepsHandler(s: Sys, h: Id, t: Sys, k: Id)
    requires Calm(s, h, t) && k in s.handlers && k != h && HandlerOk(s, s.handlers[k])
    ensures HandlerOk(t, s.handlers[k])
  {
    var x := s.handlers[k];
    forall e: Id | PushedTo(t, e, x.delivery) ensures PushedTo(s, e, x.delivery) {}
    if x.ordered && HasTurn(x) {
      var i :| IsTurn(s, x.snap.endpoint, x.delivery, i);
      assert IsTurn(t, x.snap.endpoint, x.delivery, i);
    }
  }

  lemma CalmMove(s: Sys, h: Id, t: Sys)
    requires Fifo(s) && Calm(s, h, t)
    requires h in t.handlers ==> HandlerOk(t, t.handlers[h])
    ensures Fifo(t)
  {
    CalmKeepsBooks(s, h, t);
    forall k | k in t.handlers ensures HandlerOk(t, t.handlers[k]) {
      if k != h {
        assert HandlerOk(s, s.handlers[k]);
        CalmKeepsHandler(s, h, t, k);
      }
    }
  }

  // A handler that moves on without gaining a turn stays as it was.
  lemma CalmHandler(s: Sys, h: Id, t: Sys, y: Handler)
    requires Calm(s, h, t) && HandlerOk(s, s.handlers[h])
    requires y.delivery == s.handlers[h].delivery && y.snap == s.handlers[h].snap && y.ordered == s.handlers[h].ordered
    requires PastLoad(y) ==> PastEndpoint(s.handlers[h]) && PastEndpoint(y)
    requires HasTurn(y) ==> HasTurn(s.handlers[h]) && !y.pc.Pop?
    requires y.pc.Wait? || y.pc.Conclude? ==> s.handlers[h].pc.Wait?
    ensures HandlerOk(t, y)
  {
    var x := s.handlers[h];
    forall e: Id | PushedTo(t, e, x.delivery) ensures PushedTo(s, e, x.delivery) {}
    if y.ordered && HasTurn(y) {
      var i :| IsTurn(s, x.snap.endpoint, x.delivery, i);
      assert IsTurn(t, x.snap.endpoint, x.delivery, i);
    }
  }

  lemma FailIsFifo(s: Sys, h: Id)
    requires Fifo(s) && h in s.handlers
    ensures Fifo(Fail(s, h))
  {
    var t := Fail(s, h);
    assert HandlerOk(s, s.handlers[h]);
    CalmHandler(s, h, t, t.handlers[h]);
    CalmMove(s, h, t);
  }

  lemma SamePushes(s: Sys, h: Id, t: Sys, d: Id)
    requires Calm(s, h, t)
    ensures forall e: Id | PushedTo(t, e, d) :: PushedTo(s, e, d)
  {}

  lemma LoadIsFifo(s: Sys, h: Id, t: Sys)
    requires Fifo(s) && Numbered(s) && h in s.handlers && NextLoad(s, h, t)
    ensures Fifo(t)
  {
    LoadsHandler(s, h, t);
    CalmMove(s, h, t);
  }

  lemma LoadsHandler(s: Sys, h: Id, t: Sys)
    requires PushesOk(s) && RowsOk(s) && Numbered(s) && h in s.handlers && NextLoad(s, h, t)
    requires HandlerOk(s, s.handlers[h])
    ensures Calm(s, h, t) && h in t.handlers && HandlerOk(t, t.handlers[h])
  {
    SamePushes(s, h, t, s.handlers[h].delivery);
  }

  // A handler learns the ordering of its endpoint.
  lemma OrderingIsKnown(s: Sys, x: Handler)
    requires Bookkeeping(s) && BoundOk(s, x) && x.pc.LoadEndpoint? && x.snap.endpoint in s.endpoints
    ensures PushedTo(s, x.snap.endpoint, x.delivery) <==> s.endpoints[x.snap.endpoint].ordered
  {
    assert x.delivery in s.rows && s.rows[x.delivery].endpoint == x.snap.endpoint;
  }

  lemma LoadEndpointIsFifo(s: Sys, h: Id, t: Sys)
    requires Fifo(s) && h in s.handlers && NextLoadEndpoint(s, h, t)
    ensures Fifo(t)
  {
    var x := s.handlers[h];
    assert HandlerOk(s, x);
    if x.snap.endpoint in s.endpoints { OrderingIsKnown(s, x); }
    LearnsOrdering(s, h, t);
    CalmMove(s, h, t);
  }

  lemma LearnsOrdering(s: Sys, h: Id, t: Sys)
    requires h in s.handlers && HandlerOk(s, s.handlers[h]) && NextLoadEndpoint(s, h, t)
    requires var ep := s.handlers[h].snap.endpoint;
             ep in s.endpoints ==> (PushedTo(s, ep, s.handlers[h].delivery) <==> s.endpoints[ep].ordered)
    ensures Calm(s, h, t) && h in t.handlers && HandlerOk(t, t.handlers[h])
  {
    SamePushes(s, h, t, s.handlers[h].delivery);
  }

  // The head check: the head is next, and an empty queue means that everything pushed was popped.
  lemma PeekReaches(s: Sys, h: Id)
    requires Fifo(s) && Locks(s) && h in s.handlers && s.handlers[h].pc.Peek?
    requires var q := List(s.queues, s.handlers[h].snap.endpoint); q != [] ==> q[0] == s.handlers[h].delivery
    ensures Reached(s, s.handlers[h].snap.endpoint, s.handlers[h].delivery)
  {
    var x := s.handlers[h];
    var d, ep := x.delivery, x.snap.endpoint;
    assert HandlerOk(s, x) && QueueOk(s, ep);
    if List(s.queues, ep) != [] {
      assert IsTurn(s, ep, d, Popped(s, ep));
    } else {
      assert PushedTo(s, ep, d);
      var k :| 0 <= k < |Pushed(s, ep)| && Pushed(s, ep)[k] == d;
      assert IsTurn(s, ep, d, k);
    }
  }

  lemma PeekIsFifo(s: Sys, h: Id, t: Sys)
    requires Fifo(s) && Locks(s) && h in s.handlers && NextPeek(s, h, t)
    ensures Fifo(t)
  {
    var x, y := s.handlers[h], t.handlers[h];
    assert HandlerOk(s, x);
    SamePushes(s, h, t, x.delivery);
    if y.pc.Gates? {
      PeekReaches(s, h);
      var i :| IsTurn(s, x.snap.endpoint, x.delivery, i);
      assert IsTurn(t, x.snap.endpoint, x.delivery, i);
    }
    assert HandlerOk(t, y);
    CalmMove(s, h, t);
  }

  lemma LockIsFifo(s: Sys, h: Id, t: Sys)
    requires Fifo(s) && h in s.handlers && NextLock(s, h, t)
    ensures Fifo(t)
  {
    assert HandlerOk(s, s.handlers[h]);
    CalmHandler(s, h, t, t.handlers[h]);
    CalmMove(s, h, t);
  }

  lemma NotHeadIsFifo(s: Sys, h: Id, t: Sys)
    requires Fifo(s) && h in s.handlers && NextNotHead(s, h, t)
    ensures Fifo(t)
  {
    assert HandlerOk(s, s.handlers[h]);
    CalmHandler(s, h, t, t.handlers[h]);
    CalmMove(s, h, t);
  }

  lemma GatesIsFifo(s: Sys, h: Id, gate: Gate, t: Sys)
    requires Fifo(s) && h in s.handlers && NextGates(s, h, gate, t)
    ensures Fifo(t)
  {
    assert HandlerOk(s, s.handlers[h]);
    CalmHandler(s, h, t, t.handlers[h]);
    CalmMove(s, h, t);
  }

  lemma ZaddIsFifo(s: Sys, h: Id, now: real, t: Sys)
    requires Fifo(s) && h in s.handlers && NextZadd(s, h, now, t)
    ensures Fifo(t)
  {
    assert HandlerOk(s, s.handlers[h]);
    CalmHandler(s, h, t, t.handlers[h]);
    CalmMove(s, h, t);
  }

  lemma UnlockIsFifo(s: Sys, h: Id, t: Sys)
    requires Fifo(s) && h in s.handlers && NextUnlock(s, h, t)
    ensures Fifo(t)
  {
    assert HandlerOk(s, s.handlers[h]);
    CalmHandler(s, h, t, t.handlers[h]);
    CalmMove(s, h, t);
  }

  lemma RefreshIsFifo(s: Sys, h: Id, t: Sys)
    requires Fifo(s) && RowsAgree(s) && h in s.handlers && NextRefresh(s, h, t)
    ensures Fifo(t)
  {
    var x := s.handlers[h];
    assert HandlerOk(s, x);
    if x.delivery !in s.rows {
      FailIsFifo(s, h);
    } else {
      CalmHandler(s, h, t, x);
      CalmMove(s, h, t);
    }
  }

  lemma LeaveIsFifo(s: Sys, h: Id, t: Sys)
    requires Fifo(s) && h in s.handlers && NextLeave(s, h, t)
    ensures Fifo(t)
  {
    assert HandlerOk(s, s.handlers[h]);
    CalmMove(s, h, t);
  }

  lemma CrashIsFifo(s: Sys, h: Id, t: Sys)
    requires Fifo(s) && NextCrash(s, h, t)
    ensures Fifo(t)
  {
    CalmMove(s, h, t);
  }

  // ---- The handler whose turn it is writes its row, sends, and settles ----

  ghost predicate Writes(s: Sys, h: Id, t: Sys) {
    && h in s.handlers && HasTurn(s.handlers[h]) && !s.handlers[h].pc.Pop? && h in t.handlers
    && var x, y := s.handlers[h], t.handlers[h];
       var d, ep := x.delivery, x.snap.endpoint;
       && t.handlers == s.handlers[h := y] && y.delivery == d && y.snap.endpoint == ep && y.ordered == x.ordered
       && HasTurn(y) && !y.pc.Pop?
       && t.next == s.next && t.queues == s.queues && t.ingests == s.ingests && t.replays == s.replays
       && t.unread == s.unread && t.pel == s.pel && t.retries == s.retries && t.endpoints == s.endpoints
       && t.hist.enqueued == s.hist.enqueued && t.hist.pushed == s.hist.pushed
       && t.hist.popped == s.hist.popped
       && t.rows.Keys == s.rows.Keys && (forall e | e in s.rows && e != d :: t.rows[e] == s.rows[e])
       && (d in s.rows ==> t.rows[d].endpoint == s.rows[d].endpoint)
       && s.hist.settled <= t.hist.settled <= s.hist.settled + {d}
       && (t.hist.sent == s.hist.sent || t.hist.sent == s.hist.sent[ep := Sent(s, ep) + [d]])
       && (y.pc.Wait? || y.pc.Conclude? || t.hist.settled != s.hist.settled ==> SentTo(t, ep, d))
  }

  lemma WritesKeepBooks(s: Sys, h: Id, t: Sys)
    requires Fifo(s) && Writes(s, h, t)
    ensures Bookkeeping(t)
  {
    assert HandlerOk(s, s.handlers[h]);
    forall ep: Id ensures QueueOk(t, ep) { assert QueueOk(s, ep); }
    forall ep: Id, d: Id | PushedTo(t, ep, d) ensures PushedTo(s, ep, d) {}
    WritesKeepIngests(s, h, t);
  }

  lemma WritesKeepIngests(s: Sys, h: Id, t: Sys)
    requires HandlersOk(s) && IngestsOk(s) && Writes(s, h, t)
    ensures IngestsOk(t)
  {
    assert HandlerOk(s, s.handlers[h]);
    forall d | d in t.ingests ensures IngestOk(t, d) {
      assert IngestOk(s, d);
      if !s.ingests[d].pushed {
        forall ep: Id ensures !PushedTo(t, ep, d) { assert !PushedTo(s, ep, d); }
      }
    }
  }

  // Sending what has its turn keeps first attempts in order.
  lemma SendingKeepsOrder(s: Sys, t: Sys, ep: Id, d: Id)
    requires QueueOk(s, ep) && InOrder(s, ep) && Reached(s, ep, d)
    requires t.hist.pushed == s.hist.pushed && t.hist.popped == s.hist.popped
    requires Sent(t, ep) == Sent(s, ep) + [d]
    ensures InOrder(t, ep)
  {
    FirstSeenOnAppend(Sent(s, ep), d);
    var seen := FirstSeen(Sent(s, ep));
    var k :| IsTurn(s, ep, d, k);
    if k < |seen| { assert seen[k] == d; }
  }

  lemma WritesKeepSettled(s: Sys, h: Id, t: Sys)
    requires Log(s) && Writes(s, h, t) && HandlerOk(s, s.handlers[h])
    ensures SettledWereSent(t) && PoppedAreSettled(t)
  {
    var x := s.handlers[h];
    forall ep: Id, d: Id | PushedTo(t, ep, d) && d in t.hist.settled ensures SentTo(t, ep, d) {
      assert PushedTo(s, ep, d);
      if d in s.hist.settled { assert SentTo(s, ep, d); }
    }
    forall ep: Id, d: Id | SentTo(t, ep, d) ensures ep < t.next {
      if !SentTo(s, ep, d) { assert ep == x.snap.endpoint; }
    }
    forall ep: Id, k | WasPopped(t, ep, k) ensures Pushed(t, ep)[k] in t.hist.settled { assert WasPopped(s, ep, k); }
  }

  lemma WritesKeepOrder(s: Sys, h: Id, t: Sys)
    requires QueuesOk(s) && AllInOrder(s) && Writes(s, h, t) && HandlerOk(s, s.handlers[h])
    ensures AllInOrder(t)
  {
    var x := s.handlers[h];
    forall ep | ep in t.endpoints && t.endpoints[ep].ordered ensures InOrder(t, ep) {
      assert InOrder(s, ep) && QueueOk(s, ep);
      if t.hist.sent != s.hist.sent && ep == x.snap.endpoint { SendingKeepsOrder(s, t, ep, x.delivery); }
    }
  }

  lemma WritesKeepHandler(s: Sys, h: Id, t: Sys, k: Id)
    requires Fifo(s) && Locks(s) && Writes(s, h, t) && k in s.handlers
    ensures k in t.handlers && HandlerOk(t, t.handlers[k])
  {
    var x := s.handlers[k];
    assert HandlerOk(s, x);
    forall e: Id | PushedTo(t, e, x.delivery) ensures PushedTo(s, e, x.delivery) {}
    if x.ordered && HasTurn(x) {
      var i :| IsTurn(s, x.snap.endpoint, x.delivery, i);
      assert IsTurn(t, x.snap.endpoint, x.delivery, i);
      if x.delivery == s.handlers[h].delivery { TurnIsExclusive(s, h, k); }
    }
    if k != h {
      assert SentTo(s, x.snap.endpoint, x.delivery) ==> SentTo(t, x.snap.endpoint, x.delivery);
    }
  }

  lemma WriteMove(s: Sys, h: Id, t: Sys)
    requires Fifo(s) && Locks(s) && Writes(s, h, t)
    ensures Fifo(t)
  {
    WritesKeepBooks(s, h, t);
    assert HandlerOk(s, s.handlers[h]);
    WritesKeepSettled(s, h, t);
    WritesKeepOrder(s, h, t);
    forall k | k in t.handlers ensures HandlerOk(t, t.handlers[k]) { WritesKeepHandler(s, h, t, k); }
  }

  lemma BeginIsFifo(s: Sys, h: Id, t: Sys)
    requires Fifo(s) && Locks(s) && h in s.handlers && NextBegin(s, h, t)
    ensures Fifo(t)
  {
    if s.handlers[h].delivery !in s.rows { FailIsFifo(s, h); } else { WriteMove(s, h, t); }
  }

  lemma PostIsFifo(s: Sys, h: Id, t: Sys)
    requires Fifo(s) && Locks(s) && h in s.handlers && NextPost(s, h, t)
    ensures Fifo(t)
  {
    assert Sent(t, s.handlers[h].snap.endpoint) == Sent(s, s.handlers[h].snap.endpoint) + [s.handlers[h].delivery];
    WriteMove(s, h, t);
  }

  lemma WaitIsFifo(s: Sys, h: Id, response: Response, t: Sys)
    requires Fifo(s) && Locks(s) && h in s.handlers && NextWait(s, h, response, t)
    ensures Fifo(t)
  {
    assert HandlerOk(s, s.handlers[h]);
    WriteMove(s, h, t);
  }

  lemma ConcludeIsFifo(s: Sys, h: Id, jitter: real, t: Sys)
    requires Fifo(s) && Locks(s) && h in s.handlers && NextConclude(s, h, jitter, t)
    ensures Fifo(t)
  {
    assert HandlerOk(s, s.handlers[h]);
    if s.handlers[h].delivery !in s.rows {
      CalmHandler(s, h, t, t.handlers[h]);
      CalmMove(s, h, t);
    } else {
      WriteMove(s, h, t);
    }
  }

  // ---- Popping ----

  /** What is popped is the head: the next delivery in the order of pushing. */
  lemma PopTakesTheHead(s: Sys, ep: Id, d: Id)
    requires QueueOk(s, ep) && Reached(s, ep, d) && d in List(s.queues, ep)
    ensures Popped(s, ep) < |Pushed(s, ep)| && Pushed(s, ep)[Popped(s, ep)] == d
    ensures Ordering.RemoveFirst(List(s.queues, ep), d) == Pushed(s, ep)[Popped(s, ep) + 1..]
  {
    var q := List(s.queues, ep);
    var k :| IsTurn(s, ep, d, k);
    var i :| 0 <= i < |q| && q[i] == d;
    assert Pushed(s, ep)[Popped(s, ep) + i] == d;
    assert q[0] == d;
  }

  ghost predicate PopsHead(s: Sys, h: Id, t: Sys) {
    h in s.handlers && NextPop(s, h, t) && Pops(s, s.handlers[h])
  }

  lemma PopKeepsBooks(s: Sys, h: Id, t: Sys)
    requires Fifo(s) && PopsHead(s, h, t)
    ensures Bookkeeping(t)
  {
    var x := s.handlers[h];
    assert HandlerOk(s, x);
    forall ep: Id ensures QueueOk(t, ep) {
      assert QueueOk(s, ep);
      if ep == x.snap.endpoint { PopTakesTheHead(s, ep, x.delivery); }
    }
    forall ep: Id, d: Id | PushedTo(t, ep, d) ensures PushedTo(s, ep, d) {}
    forall d | d in t.ingests ensures IngestOk(t, d) {
      assert IngestOk(s, d);
      if !s.ingests[d].pushed {
        forall ep: Id ensures !PushedTo(t, ep, d) { assert !PushedTo(s, ep, d); }
      }
    }
  }

  lemma PopKeepsLog(s: Sys, h: Id, t: Sys)
    requires Fifo(s) && PopsHead(s, h, t)
    ensures Log(t)
  {
    var x := s.handlers[h];
    var d0, ep0 := x.delivery, x.snap.endpoint;
    assert HandlerOk(s, x) && QueueOk(s, ep0);
    PopTakesTheHead(s, ep0, d0);
    forall ep: Id, d: Id | PushedTo(t, ep, d) && d in t.hist.settled ensures SentTo(t, ep, d) {
      assert PushedTo(s, ep, d) && SentTo(s, ep, d);
    }
    forall ep: Id, d: Id | SentTo(t, ep, d) ensures ep < t.next { assert SentTo(s, ep, d); }
    forall ep: Id, k | WasPopped(t, ep, k) ensures Pushed(t, ep)[k] in t.hist.settled {
      assert (ep == ep0 && k == Popped(s, ep0)) || WasPopped(s, ep, k);
    }
    forall ep | ep in t.endpoints && t.endpoints[ep].ordered ensures InOrder(t, ep) {
      assert InOrder(s, ep);
      if ep == ep0 { PopKeepsOrder(s, ep0, d0); }
    }
  }

  // The popped head has been sent, so it is among the first attempts.
  lemma PopKeepsOrder(s: Sys, ep: Id, d: Id)
    requires QueueOk(s, ep) && InOrder(s, ep) && SentTo(s, ep, d)
    requires Popped(s, ep) < |Pushed(s, ep)| && Pushed(s, ep)[Popped(s, ep)] == d
    ensures |FirstSeen(Sent(s, ep))| == Popped(s, ep) + 1
  {
    FirstSeenHasAll(Sent(s, ep), d);
    var seen := FirstSeen(Sent(s, ep));
    var i :| 0 <= i < |seen| && seen[i] == d;
    assert Pushed(s, ep)[i] == d;
  }

  lemma PopKeepsHandler(s: Sys, h: Id, t: Sys, k: Id)
    requires Fifo(s) && PopsHead(s, h, t) && k in s.handlers
    ensures k in t.handlers && HandlerOk(t, t.handlers[k])
  {
    var x := s.handlers[k];
    assert HandlerOk(s, x);
    forall e: Id | PushedTo(t, e, x.delivery) ensures PushedTo(s, e, x.delivery) {}
    if k != h && x.ordered && HasTurn(x) {
      var i :| IsTurn(s, x.snap.endpoint, x.delivery, i);
      assert IsTurn(t, x.snap.endpoint, x.delivery, i);
    }
  }

  lemma PopIsFifo(s: Sys, h: Id, t: Sys)
    requires Fifo(s) && h in s.handlers && NextPop(s, h, t)
    ensures Fifo(t)
  {
    if Pops(s, s.handlers[h]) {
      PopKeepsBooks(s, h, t);
      PopKeepsLog(s, h, t);
      forall k | k in t.handlers ensures HandlerOk(t, t.handlers[k]) { PopKeepsHandler(s, h, t, k); }
    } else {
      assert HandlerOk(s, s.handlers[h]);
      CalmHandler(s, h, t, t.handlers[h]);
      CalmMove(s, h, t);
    }
  }

  lemma AdvanceIsFifo(s: Sys, h: Id, c: Choice, t: Sys)
    requires Fifo(s) && Locks(s) && Numbered(s) && RowsAgree(s) && h in s.handlers && NextAdvance(s, h, c, t)
    ensures Fifo(t)
  {
    match s.handlers[h].pc {
      case Load => LoadIsFifo(s, h, t);
      case LoadEndpoint => LoadEndpointIsFifo(s, h, t);
      case Lock => LockIsFifo(s, h, t);
      case Peek => PeekIsFifo(s, h, t);
      case NotHead => NotHeadIsFifo(s, h, t);
      case Gates => GatesIsFifo(s, h, c.gate, t);
      case Begin => BeginIsFifo(s, h, t);
      case Post => PostIsFifo(s, h, t);
      case Wait => WaitIsFifo(s, h, c.response, t);
      case Conclude => ConcludeIsFifo(s, h, c.jitter, t);
      case Schedule | Defer => ZaddIsFifo(s, h, c.now, t);
      case Refresh => RefreshIsFifo(s, h, t);
      case Pop => PopIsFifo(s, h, t);
      case Unlock => UnlockIsFifo(s, h, t);
      case Ack | Unwind => LeaveIsFifo(s, h, t);
    }
  }

  // ---- All other steps ----

  // Nothing the queue's past depends on shrinks, and handlers are only added, at Load.
  ghost predicate Grows(s: Sys, t: Sys) {
    && s.next <= t.next
    && t.hist.settled == s.hist.settled && t.hist.popped == s.hist.popped && t.hist.sent == s.hist.sent
    && s.hist.enqueued <= t.hist.enqueued
    && (forall h | h in s.handlers :: h in t.handlers && t.handlers[h] == s.handlers[h])
    && (forall h | h in t.handlers && h !in s.handlers :: IsNew(t, t.handlers[h]))
    && (forall e | e in t.endpoints && e < s.next ::
          e in s.endpoints && t.endpoints[e].ordered == s.endpoints[e].ordered)
    && (forall d | d in t.rows && d < s.next :: d in s.rows && t.rows[d] == s.rows[d])
    && (forall d | d in s.rows && s.rows[d].endpoint in t.endpoints :: d in t.rows)
  }

  predicate IsNew(t: Sys, x: Handler) {
    x.pc.Load? && !x.locked && x.delivery in t.hist.enqueued && x.delivery < t.next
  }

  // New pushes are of what no handler has seen.
  ghost predicate PushesGrow(s: Sys, t: Sys) {
    && (forall ep: Id :: Pushed(s, ep) <= Pushed(t, ep))
    && (forall ep: Id, d: Id | PushedTo(t, ep, d) && d in s.hist.enqueued :: PushedTo(s, ep, d))
  }

  lemma GrowingKeepsHandler(s: Sys, t: Sys, k: Id)
    requires Grows(s, t) && PushesGrow(s, t)
    requires k in s.handlers && HandlerOk(s, s.handlers[k])
    ensures HandlerOk(t, s.handlers[k])
  {
    var x := s.handlers[k];
    var d, ep := x.delivery, x.snap.endpoint;
    assert Pushed(s, ep) <= Pushed(t, ep);
    forall e: Id | PushedTo(t, e, d) ensures PushedTo(s, e, d) {}
    if x.ordered && HasTurn(x) {
      var i :| IsTurn(s, ep, d, i);
      assert IsTurn(t, ep, d, i);
    }
    assert SentTo(s, ep, d) ==> SentTo(t, ep, d);
    assert BoundOk(t, x);
  }

  lemma GrowingKeepsHandlers(s: Sys, t: Sys)
    requires HandlersOk(s) && Grows(s, t) && PushesGrow(s, t)
    ensures HandlersOk(t)
  {
    forall h | h in t.handlers ensures HandlerOk(t, t.handlers[h]) {
      if h in s.handlers {
        assert HandlerOk(s, s.handlers[h]);
        GrowingKeepsHandler(s, t, h);
      }
    }
  }

  // Whatever appends to the queue appends the same to its past.
  ghost predicate QueuesGrow(s: Sys, t: Sys) {
    forall ep: Id :: Pushed(s, ep) <= Pushed(t, ep) && Distinct(Pushed(t, ep))
                     && List(t.queues, ep) == List(s.queues, ep) + Pushed(t, ep)[|Pushed(s, ep)|..]
  }

  lemma GrowingKeepsQueues(s: Sys, t: Sys)
    requires QueuesOk(s) && QueuesGrow(s, t) && t.hist.popped == s.hist.popped
    ensures QueuesOk(t)
  {
    forall ep: Id ensures QueueOk(t, ep) {
      assert QueueOk(s, ep) && Pushed(s, ep) <= Pushed(t, ep);
      assert Pushed(t, ep) == Pushed(s, ep) + Pushed(t, ep)[|Pushed(s, ep)|..];
    }
  }

  lemma GrowingKeepsLog(s: Sys, t: Sys)
    requires Bookkeeping(s) && Log(s) && Grows(s, t) && PushesGrow(s, t)
    ensures Log(t)
  {
    forall ep: Id, d: Id | PushedTo(t, ep, d) && d in t.hist.settled ensures SentTo(t, ep, d) {
      assert PushedTo(s, ep, d) && SentTo(s, ep, d);
    }
    forall ep: Id, d: Id | SentTo(t, ep, d) ensures ep < t.next { assert SentTo(s, ep, d); }
    forall ep: Id, k | WasPopped(t, ep, k) ensures Pushed(t, ep)[k] in t.hist.settled {
      assert QueueOk(s, ep) && WasPopped(s, ep, k) && Pushed(s, ep) <= Pushed(t, ep);
    }
    forall ep | ep in t.endpoints && t.endpoints[ep].ordered ensures InOrder(t, ep) {
      assert Pushed(s, ep) <= Pushed(t, ep);
      if ep < s.next {
        assert InOrder(s, ep);
      } else {
        assert Sent(s, ep) == [] by { if Sent(s, ep) != [] { assert SentTo(s, ep, Sent(s, ep)[0]); } }
        assert QueueOk(s, ep);
        assert Pushed(s, ep) == [] by { if Pushed(s, ep) != [] { assert PushedTo(s, ep, Pushed(s, ep)[0]); } }
      }
    }
  }

  lemma GrowMove(s: Sys, t: Sys)
    requires Fifo(s) && Grows(s, t) && PushesGrow(s, t) && QueuesGrow(s, t)
    ensures HandlersOk(t) && Log(t) && QueuesOk(t)
  {
    GrowingKeepsHandlers(s, t);
    GrowingKeepsLog(s, t);
    GrowingKeepsQueues(s, t);
  }

  // Steps that push nothing.
  ghost predicate NoPush(s: Sys, t: Sys) {
    t.queues == s.queues && t.hist.pushed == s.hist.pushed
  }

  lemma NoPushGrows(s: Sys, t: Sys)
    requires QueuesOk(s) && NoPush(s, t)
    ensures PushesGrow(s, t) && QueuesGrow(s, t)
    ensures forall ep: Id, d: Id :: PushedTo(t, ep, d) == PushedTo(s, ep, d)
  {
    forall ep: Id
      ensures Pushed(s, ep) <= Pushed(t, ep) && Distinct(Pushed(t, ep))
      ensures List(t.queues, ep) == List(s.queues, ep) + Pushed(t, ep)[|Pushed(s, ep)|..]
    {
      assert QueueOk(s, ep);
    }
  }

  // Pending ingests that a step does not touch.
  lemma IngestsStay(s: Sys, t: Sys, but: Id)
    requires IngestsOk(s) && Numbered(s) && Grows(s, t)
    requires forall ep: Id, d: Id | d != but :: PushedTo(t, ep, d) == PushedTo(s, ep, d)
    requires t.hist.enqueued <= s.hist.enqueued + {but}
    requires forall d | d in t.ingests && d != but :: d in s.ingests && t.ingests[d] == s.ingests[d]
    ensures forall d | d in t.ingests && d != but :: IngestOk(t, d)
  {
    forall d | d in t.ingests && d != but ensures IngestOk(t, d) {
      assert IngestOk(s, d);
      if !s.ingests[d].pushed {
        forall ep: Id ensures !PushedTo(t, ep, d) { assert !PushedTo(s, ep, d); }
      }
    }
  }

  lemma EndpointsAreFifo(s: Sys, step: Step, t: Sys)
    requires Fifo(s) && Numbered(s) && NextEndpoint(s, step, t)
    ensures Fifo(t)
  {
    NoPushGrows(s, t);
    EndpointsGrow(s, step, t);
    GrowMove(s, t);
    IngestsStay(s, t, s.next);
  }

  lemma EndpointsGrow(s: Sys, step: Step, t: Sys)
    requires Fifo(s) && Numbered(s) && NextEndpoint(s, step, t)
    ensures Grows(s, t) && EnqueuedOk(t) && CopiesOk(t) && RowsOk(t)
    ensures (forall ep | ep in t.endpoints :: ep < t.next)
    ensures PushesOk(t)
  {
    EndpointRows(s, step, t);
    EndpointsKeepPushes(s, step, t);
  }

  lemma EndpointsKeepPushes(s: Sys, step: Step, t: Sys)
    requires PushesOk(s) && EnqueuedOk(s) && RowsOk(s) && Numbered(s) && NextEndpoint(s, step, t)
    requires forall ep | ep in s.endpoints :: ep < s.next
    ensures PushesOk(t) && EnqueuedOk(t)
  {
    EndpointRows(s, step, t);
    forall ep: Id, d: Id | PushedTo(t, ep, d) ensures PushedTo(s, ep, d) {}
    forall d | d in t.hist.enqueued && d in t.rows && t.rows[d].endpoint in t.endpoints
               && t.endpoints[t.rows[d].endpoint].ordered ensures PushedTo(t, t.rows[d].endpoint, d)
    {
      assert PushedTo(s, t.rows[d].endpoint, d);
    }
  }

  lemma EndpointRows(s: Sys, step: Step, t: Sys)
    requires Numbered(s) && RowsOk(s) && NextEndpoint(s, step, t)
    requires forall ep | ep in s.endpoints :: ep < s.next
    ensures forall d | d in t.rows :: d in s.rows && t.rows[d] == s.rows[d] && t.rows[d].endpoint in t.endpoints
    ensures forall d | d in s.rows && s.rows[d].endpoint in t.endpoints :: d in t.rows
    ensures forall ep | ep in t.endpoints && ep < s.next ::
              ep in s.endpoints && t.endpoints[ep].ordered == s.endpoints[ep].ordered
    ensures forall ep | ep in t.endpoints :: ep < t.next
  {}

  lemma IngestCommitIsFifo(s: Sys, ep: Id, t: Sys)
    requires Fifo(s) && Numbered(s) && NextIngestCommit(s, ep, t)
    ensures Fifo(t)
  {
    NoPushGrows(s, t);
    assert Grows(s, t);
    GrowMove(s, t);
    IngestsStay(s, t, s.next);
    NewIngestIsBooked(s, ep, t);
  }

  lemma NewIngestIsBooked(s: Sys, ep: Id, t: Sys)
    requires Bookkeeping(s) && Numbered(s) && NextIngestCommit(s, ep, t)
    requires forall e: Id, c: Id :: PushedTo(t, e, c) == PushedTo(s, e, c)
    ensures PushesOk(t) && EnqueuedOk(t) && RowsOk(t) && CopiesOk(t) && IngestOk(t, s.next)
  {
    forall e: Id ensures !PushedTo(t, e, s.next) { assert PushedTo(t, e, s.next) == PushedTo(s, e, s.next); }
  }

  lemma IngestAddIsFifo(s: Sys, d: Id, t: Sys)
    requires Fifo(s) && Numbered(s) && NextIngestAdd(s, d, t)
    ensures Fifo(t)
  {
    NoPushGrows(s, t);
    GrowMove(s, t);
    IngestsStay(s, t, d);
    AddedIsBooked(s, d, t);
  }

  lemma AddedIsBooked(s: Sys, d: Id, t: Sys)
    requires Bookkeeping(s) && Numbered(s) && NextIngestAdd(s, d, t)
    requires forall ep: Id, c: Id :: PushedTo(t, ep, c) == PushedTo(s, ep, c)
    ensures PushesOk(t) && EnqueuedOk(t) && RowsOk(t) && CopiesOk(t)
  {
    assert IngestOk(s, d);
  }

  lemma IngestPushGrows(s: Sys, d: Id, t: Sys)
    requires Fifo(s) && NextIngestPush(s, d, t)
    ensures PushesGrow(s, t) && QueuesGrow(s, t)
    ensures forall ep: Id, c: Id ::
              PushedTo(t, ep, c) == (PushedTo(s, ep, c) || (ep == s.ingests[d].endpoint && c == d))
  {
    assert IngestOk(s, d);
    PushAppends(s, t, s.ingests[d].endpoint, d);
  }

  lemma Appended(q: seq<Id>, d: Id)
    requires Distinct(q) && d !in q
    ensures Distinct(q + [d]) && q <= q + [d] && (q + [d])[|q|..] == [d]
    ensures forall c: Id :: c in q + [d] <==> c in q || c == d
  {}

  // One RPUSH of what was never pushed.
  predicate PushesOne(s: Sys, t: Sys, e: Id, d: Id) {
    && t.queues == s.queues[e := List(s.queues, e) + [d]]
    && t.hist.pushed == s.hist.pushed[e := Pushed(s, e) + [d]]
  }

  lemma PushAppendsAt(s: Sys, t: Sys, e: Id, d: Id, ep: Id)
    requires QueueOk(s, ep) && !PushedTo(s, e, d) && PushesOne(s, t, e, d)
    ensures Pushed(s, ep) <= Pushed(t, ep) && Distinct(Pushed(t, ep))
    ensures List(t.queues, ep) == List(s.queues, ep) + Pushed(t, ep)[|Pushed(s, ep)|..]
    ensures forall c: Id :: PushedTo(t, ep, c) == (PushedTo(s, ep, c) || (ep == e && c == d))
  {
    if ep == e {
      Appended(Pushed(s, e), d);
    } else {
      assert Pushed(t, ep) == Pushed(s, ep) && List(t.queues, ep) == List(s.queues, ep);
    }
  }

  lemma PushAppends(s: Sys, t: Sys, e: Id, d: Id)
    requires QueuesOk(s) && !PushedTo(s, e, d) && d !in s.hist.enqueued && PushesOne(s, t, e, d)
    ensures PushesGrow(s, t) && QueuesGrow(s, t)
    ensures forall ep: Id, c: Id :: PushedTo(t, ep, c) == (PushedTo(s, ep, c) || (ep == e && c == d))
  {
    forall ep: Id
      ensures Pushed(s, ep) <= Pushed(t, ep) && Distinct(Pushed(t, ep))
      ensures List(t.queues, ep) == List(s.queues, ep) + Pushed(t, ep)[|Pushed(s, ep)|..]
      ensures forall c: Id :: PushedTo(t, ep, c) == (PushedTo(s, ep, c) || (ep == e && c == d))
    {
      assert QueueOk(s, ep);
      PushAppendsAt(s, t, e, d, ep);
    }
  }

  lemma IngestPushIsFifo(s: Sys, d: Id, t: Sys)
    requires Fifo(s) && Numbered(s) && NextIngestPush(s, d, t)
    ensures Fifo(t)
  {
    IngestPushGrows(s, d, t);
    IngestPushKeepsRows(s, d, t);
    GrowMove(s, t);
    IngestsStay(s, t, d);
    PushedIsBooked(s, d, t);
  }

  lemma IngestPushKeepsRows(s: Sys, d: Id, t: Sys)
    requires Fifo(s) && Numbered(s) && NextIngestPush(s, d, t)
    ensures Grows(s, t) && RowsOk(t) && CopiesOk(t)
  {}

  lemma PushedIsBooked(s: Sys, d: Id, t: Sys)
    requires Bookkeeping(s) && Numbered(s) && NextIngestPush(s, d, t)
    requires forall ep: Id, c: Id ::
               PushedTo(t, ep, c) == (PushedTo(s, ep, c) || (ep == s.ingests[d].endpoint && c == d))
    ensures PushesOk(t) && EnqueuedOk(t) && IngestOk(t, d)
  {
    assert IngestOk(s, d);
  }

  lemma MoveDueIsFifo(s: Sys, d: Id, now: real, t: Sys)
    requires Fifo(s) && Numbered(s) && NextMoveDue(s, d, now, t)
    ensures Fifo(t)
  {
    MessageKeepsBooks(s, t);
  }

  lemma ClaimIsFifo(s: Sys, m: Id, t: Sys)
    requires Fifo(s) && Numbered(s) && NextClaim(s, m, t)
    ensures Fifo(t)
  {
    ClaimGrows(s, m, t);
    MessageKeepsBooks(s, t);
  }

  lemma ClaimGrows(s: Sys, m: Id, t: Sys)
    requires RowsOk(s) && CopiesOk(s) && Numbered(s) && NextClaim(s, m, t)
    ensures Grows(s, t) && CopiesOk(t)
  {}

  lemma ReclaimIsFifo(s: Sys, m: Id, t: Sys)
    requires Fifo(s) && Numbered(s) && NextReclaim(s, m, t)
    ensures Fifo(t)
  {
    ReclaimGrows(s, m, t);
    MessageKeepsBooks(s, t);
  }

  lemma ReclaimGrows(s: Sys, m: Id, t: Sys)
    requires RowsOk(s) && CopiesOk(s) && Numbered(s) && NextReclaim(s, m, t)
    ensures Grows(s, t) && CopiesOk(t)
  {}

  lemma MessageKeepsBooks(s: Sys, t: Sys)
    requires Fifo(s) && Numbered(s) && Grows(s, t) && NoPush(s, t) && CopiesOk(t)
    requires t.ingests == s.ingests && t.endpoints == s.endpoints && t.rows == s.rows && t.hist == s.hist
    ensures Fifo(t)
  {
    NoPushGrows(s, t);
    GrowMove(s, t);
    IngestsStay(s, t, s.next);
  }

  lemma ExpiryIsFifo(s: Sys, ep: Id, t: Sys)
    requires Fifo(s) && Numbered(s) && t == s.(locks := s.locks - {ep})
    ensures Fifo(t)
  {
    MessageKeepsBooks(s, t);
  }

  lemma StepIsFifo(s: Sys, step: Step, t: Sys)
    requires Fifo(s) && Locks(s) && Numbered(s) && RowsAgree(s) && Next(s, step, t) && !step.ReplaySelect?
    ensures Fifo(t)
  {
    if step.Advance? {
      AdvanceIsFifo(s, step.handler, step.choice, t);
    } else if step.Raise? {
      FailIsFifo(s, step.handler);
    } else if step.Crash? {
      CrashIsFifo(s, step.handler, t);
    } else {
      OutsideIsFifo(s, step, t);
    }
  }

  lemma OutsideIsFifo(s: Sys, step: Step, t: Sys)
    requires Fifo(s) && Numbered(s) && Next(s, step, t) && !step.ReplaySelect?
    requires !step.Advance? && !step.Raise? && !step.Crash?
    ensures Fifo(t)
  {
    match step {
      case AddEndpoint(_) | SetEndpoint(_, _) | DeleteEndpoint(_) => EndpointsAreFifo(s, step, t);
      case IngestCommit(ep) => IngestCommitIsFifo(s, ep, t);
      case IngestPush(d) => IngestPushIsFifo(s, d, t);
      case IngestAdd(d) => IngestAddIsFifo(s, d, t);
      case MoveDue(d, now) => MoveDueIsFifo(s, d, now, t);
      case Claim(m) => ClaimIsFifo(s, m, t);
      case Reclaim(m) => ReclaimIsFifo(s, m, t);
      case Expire(ep) => ExpiryIsFifo(s, ep, t);
    }
  }

  lemma StartIsFifo(configuredMax: int)
    ensures Fifo(Initial(configuredMax))
  {}

  lemma {:induction false} RunIsFifo(ss: seq<Sys>, steps: seq<Step>, n: nat)
    requires IsFifoRun(ss, steps) && n <= |steps|
    ensures Fifo(ss[n])
  {
    if n == 0 {
      StartIsFifo(ss[0].configuredMax);
    } else {
      RunIsFifo(ss, steps, n - 1);
      LeadIsFifo(ss, steps, n - 1);
    }
  }

  lemma LeadIsFifo(ss: seq<Sys>, steps: seq<Step>, n: nat)
    requires IsFifoRun(ss, steps) && n < |steps| && Fifo(ss[n])
    ensures Fifo(ss[n + 1])
  {
    RunKeepsInv(ss, steps, n);
    RunKeepsLocks(ss, steps, n);
    assert Leads(ss, steps, n);
    StepIsFifo(ss[n], steps[n], ss[n + 1]);
  }

  // ---- The guarantees ----

  /** Turns: whenever a handler is past the head check with the k-th delivery pushed on an ordered endpoint (attempting
      it above all), every earlier one has been popped, and settled, and is no longer queued. */
  lemma EarlierOnesAreDone(ss: seq<Sys>, steps: seq<Step>, n: nat, h: Id, k: nat, j: nat)
    requires IsFifoRun(ss, steps) && n <= |steps|
    requires h in ss[n].handlers && HasTurn(ss[n].handlers[h])
    requires var ep := ss[n].handlers[h].snap.endpoint;
             j < k < |Pushed(ss[n], ep)| && Pushed(ss[n], ep)[k] == ss[n].handlers[h].delivery
    ensures var ep := ss[n].handlers[h].snap.endpoint;
            && j < Popped(ss[n], ep) && Pushed(ss[n], ep)[j] !in List(ss[n].queues, ep)
            && Pushed(ss[n], ep)[j] in ss[n].hist.settled
  {
    RunIsFifo(ss, steps, n);
    var s := ss[n];
    var x := s.handlers[h];
    var ep := x.snap.endpoint;
    assert HandlerOk(s, x) && QueueOk(s, ep) && PushedTo(s, ep, x.delivery);
    var i :| IsTurn(s, ep, x.delivery, i);
    assert i == k && WasPopped(s, ep, j);
  }

  /** Pops: whenever a queue is popped, it loses exactly its head, and that delivery is settled, in the history and in
      the row if there still is one. */
  lemma PoppedHeadIsSettled(ss: seq<Sys>, steps: seq<Step>, n: nat, ep: Id)
    requires IsFifoRun(ss, steps) && n < |steps| && Popped(ss[n + 1], ep) != Popped(ss[n], ep)
    ensures var q := List(ss[n].queues, ep);
            && q != [] && List(ss[n + 1].queues, ep) == q[1..]
            && q[0] in ss[n].hist.settled && (q[0] in ss[n].rows ==> Settled(ss[n].rows[q[0]].status))
  {
    RunIsFifo(ss, steps, n);
    assert Leads(ss, steps, n);
    OnlyPopsPop(ss[n], steps[n], ss[n + 1], ep);
    var h := steps[n].handler;
    assert HandlerOk(ss[n], ss[n].handlers[h]) && QueueOk(ss[n], ep);
    PopTakesTheHead(ss[n], ep, ss[n].handlers[h].delivery);
  }

  /** And conversely: whoever comes to the pop with a row that is delivered or dead finds its delivery at the head, or
      gone from the queue already, and leaves the queue without it; with any other row the queue stays. */
  lemma SettledHeadLeaves(ss: seq<Sys>, steps: seq<Step>, n: nat)
    requires IsFifoRun(ss, steps) && n < |steps| && steps[n].Advance? && steps[n].handler in ss[n].handlers
    requires ss[n].handlers[steps[n].handler].pc.Pop? && ss[n].handlers[steps[n].handler].delivery in ss[n].rows
    ensures var x := ss[n].handlers[steps[n].handler];
            var q, r := List(ss[n].queues, x.snap.endpoint), List(ss[n + 1].queues, x.snap.endpoint);
            if x.ordered && IsFinal(ss[n].rows[x.delivery].status) then
              x.delivery !in r && (if x.delivery in q then q[0] == x.delivery && r == q[1..] else r == q)
            else r == q
  {
    RunIsFifo(ss, steps, n);
    assert Leads(ss, steps, n);
    var x := ss[n].handlers[steps[n].handler];
    assert HandlerOk(ss[n], x) && QueueOk(ss[n], x.snap.endpoint);
    SettledHeadIsPopped(ss[n], steps[n].handler, steps[n].choice, ss[n + 1]);
    if x.ordered && x.delivery in List(ss[n].queues, x.snap.endpoint) {
      PopTakesTheHead(ss[n], x.snap.endpoint, x.delivery);
      HeadIsNotBehind(Pushed(ss[n], x.snap.endpoint), Popped(ss[n], x.snap.endpoint));
    }
  }

  lemma HeadIsNotBehind(pushed: seq<Id>, popped: nat)
    requires Distinct(pushed) && popped < |pushed|
    ensures pushed[popped] !in pushed[popped + 1..]
  {}

  lemma OnlyPopsPop(s: Sys, step: Step, t: Sys, ep: Id)
    requires Next(s, step, t) && Popped(t, ep) != Popped(s, ep)
    ensures step.Advance? && PopsHead(s, step.handler, t) && s.handlers[step.handler].snap.endpoint == ep
  {
    if step.Advance? {
      AdvanceFrame(s, step.handler, step.choice, t);
      assert NextPop(s, step.handler, t);
    } else {
      OthersPopNothing(s, step, t);
    }
  }

  lemma OthersPopNothing(s: Sys, step: Step, t: Sys)
    requires Next(s, step, t) && !step.Advance?
    ensures t.hist.popped == s.hist.popped
  {
    if step.ReplayStep? { ReplayPopsNothing(s, step.replay, t); } else { OutsideSteps(s, step, t); }
  }

  lemma ReplayPopsNothing(s: Sys, r: Id, t: Sys)
    requires r in s.replays && NextReplay(s, r, t)
    ensures t.hist.popped == s.hist.popped
  {
    match s.replays[r].pc {
      case Selected => ResetPopsNothing(s, r, t);
      case Committed => assert NextRemove(s, r, t);
      case Removed => RequeuePopsNothing(s, r, t);
      case Pushed => assert NextReadd(s, r, t);
    }
  }

  lemma ResetPopsNothing(s: Sys, r: Id, t: Sys)
    requires r in s.replays && NextReset(s, r, t)
    ensures t.hist.popped == s.hist.popped
  {}

  lemma RequeuePopsNothing(s: Sys, r: Id, t: Sys)
    requires r in s.replays && NextRequeue(s, r, t)
    ensures t.hist.popped == s.hist.popped
  {}

  /** First attempts on an ordered endpoint follow the order of pushing: with repeats left out, what was sent is a
      prefix of what was pushed; it contains all that was popped, and at most one more. */
  lemma FirstAttemptsFollowTheQueue(ss: seq<Sys>, steps: seq<Step>, n: nat, ep: Id)
    requires IsFifoRun(ss, steps) && n <= |steps| && ep in ss[n].endpoints && ss[n].endpoints[ep].ordered
    ensures FirstSeen(Sent(ss[n], ep)) <= Pushed(ss[n], ep)
    ensures Popped(ss[n], ep) <= |FirstSeen(Sent(ss[n], ep))| <= Popped(ss[n], ep) + 1
    ensures List(ss[n].queues, ep) == Pushed(ss[n], ep)[Popped(ss[n], ep)..]
  {
    RunIsFifo(ss, steps, n);
    assert InOrder(ss[n], ep) && QueueOk(ss[n], ep);
  }
}
