/**
 The delivery protocol as a labelled transition system: relay/delivery/worker.py and the parts of enqueue.py,
 retry_queue.py, ordering.py, api/routes/events.py and api/routes/dlq.py it runs against.

 One step is one Redis command or script, one database read, or one commit. Any number of handlers, schedulers,
 ingesting requests and replays interleave, and any handler may crash between two steps; a request that dies simply
 never takes its next step. A step carries every choice it makes: `Next` allows one next state for it at most.
 */
module Protocol {
  import opened Wrappers
  import Ordering
  import Retry

  // Endpoints, deliveries, stream messages, handlers and replays are all named by fresh identifiers.
  type Id = nat

  datatype Status = Pending | Delivering | Delivered | Failed | Dead

  predicate Settled(s: Status) {
    s.Delivered? || s.Dead?
  }

  datatype Row = Row(endpoint: Id, status: Status, attempts: nat)

  datatype EndpointStatus = Active | Paused | Disabled

  datatype Endpoint = Endpoint(status: EndpointStatus, ordered: bool)

  /** What an HTTP attempt came back with; None for the status of a transport error. */
  datatype Response = Success | Failure(status: Option<int>, retryAfter: Option<real>)

  /** What check_gates and acquire_slot come to. */
  datatype Gate = Allowed | BreakerDenied | AutoDisabled | RateLimited | AtCapacity

  /** Where a handler is; each constructor is the statement it executes next. */
  datatype Pc =
    | Load          // select the delivery row
    | LoadEndpoint  // select the endpoint row
    | Lock          // acquire_lock
    | Peek          // peek_head
    | NotHead       // release_lock, not at the head
    | Gates         // check_gates and acquire_slot
    | Begin         // process_delivery up to the 'delivering' commit
    | Post          // about to send
    | Wait          // request on the wire
    | Conclude      // commit of the outcome
    | Schedule      // schedule_retry after a failure
    | Refresh       // session.refresh
    | Pop           // pop_head, if settled
    | Defer         // schedule_retry without an attempt
    | Unlock        // the finally block
    | Ack           // XACK
    | Unwind        // the finally block after an exception

  /** A handler of one stream message. `snap` is its session's copy of the row, read once and then only written
      through. */
  datatype Handler = Handler(
    msg: Id, delivery: Id, pc: Pc, snap: Row, ordered: bool, locked: bool, response: Response, delay: real)

  /** The handler will acknowledge its message: what is left of it is cleaning up. */
  predicate Cleared(x: Handler) {
    x.pc.Refresh? || x.pc.Pop? || x.pc.Unlock? || x.pc.Ack?
  }

  // The handler is between its two commits.
  predicate Mid(x: Handler) {
    x.pc.Post? || x.pc.Wait? || x.pc.Conclude?
  }

  /** An ingesting request that has committed a delivery and still has to push it. */
  datatype Ingest = Ingest(endpoint: Id, ordered: bool, pushed: bool)

  datatype ReplayPc = Selected | Committed | Removed | Pushed

  /** One delivery of one DLQ replay request. */
  datatype Replay = Replay(delivery: Id, endpoint: Id, ordered: bool, pc: ReplayPc)

  /** History: never read by any step.
      `enqueued`, `settled` and `dropped` are the deliveries that, since they were ingested or last replayed, were
      XADDed, reached a settled status, or were acknowledged against a missing or inactive endpoint. `overwritten` are
      those whose settled row a handler has overwritten with an unsettled one. `numbers` are the attempt numbers
      recorded in the current cycle and `lost` the attempts begun in it but never recorded. `pushed`, `popped` and
      `sent` are, per endpoint, everything RPUSHed, how much of it was popped, and everything sent. */
  datatype History = History(
    enqueued: set<Id>, settled: set<Id>, dropped: set<Id>, overwritten: set<Id>,
    numbers: map<Id, seq<nat>>, lost: map<Id, nat>,
    pushed: map<Id, seq<Id>>, popped: map<Id, nat>, sent: map<Id, seq<Id>>)

  datatype Sys = Sys(
    configuredMax: int,
    next: Id,
    rows: map<Id, Row>,
    endpoints: map<Id, Endpoint>,
    unread: map<Id, Id>,
    pel: map<Id, Id>,
    retries: map<Id, real>,
    handlers: map<Id, Handler>,
    locks: map<Id, Id>,
    queues: map<Id, seq<Id>>,
    ingests: map<Id, Ingest>,
    replays: map<Id, Replay>,
    hist: History)

  function List(m: map<Id, seq<Id>>, k: Id): seq<Id> {
    if k in m then m[k] else []
  }

  function Numbers(m: map<Id, seq<nat>>, k: Id): seq<nat> {
    if k in m then m[k] else []
  }

  function Count(m: map<Id, nat>, k: Id): nat {
    if k in m then m[k] else 0
  }

  /** The choices a handler's step depends on: what the gates said, what the receiver answered, the jitter drawn,
      and the clock. */
  datatype Choice = Choice(gate: Gate, response: Response, jitter: real, now: real)

  datatype Step =
    | AddEndpoint(ordered: bool)
    | SetEndpoint(endpoint: Id, status: EndpointStatus)
    | DeleteEndpoint(endpoint: Id)
    | IngestCommit(endpoint: Id)
    | IngestPush(delivery: Id)
    | IngestAdd(delivery: Id)
    | ReplaySelect(delivery: Id)
    | ReplayStep(replay: Id)
    | MoveDue(delivery: Id, now: real)
    | Claim(msg: Id)
    | Reclaim(msg: Id)
    | Advance(handler: Id, choice: Choice)
    | Raise(handler: Id)
    | Crash(handler: Id)
    | Expire(endpoint: Id)

  // ---- Replay ----

  // The reset of a dead row starts a new cycle for its delivery.
  function NewCycle(hist: History, d: Id): History {
    hist.(settled := hist.settled - {d}, dropped := hist.dropped - {d}, overwritten := hist.overwritten - {d},
          numbers := hist.numbers - {d}, lost := hist.lost - {d})
  }

  function Pushing(hist: History, ep: Id, d: Id): History {
    hist.(pushed := hist.pushed[ep := List(hist.pushed, ep) + [d]])
  }

  // The commit of the reset; a row that is gone takes the request along.
  ghost predicate NextReset(s: Sys, r: Id, t: Sys)
    requires r in s.replays
  {
    var d := s.replays[r].delivery;
    var found := d in s.rows;
    && s.replays[r].pc.Selected?
    && t == s.(rows := if found then s.rows[d := s.rows[d].(status := Pending, attempts := 0)] else s.rows,
               replays := if found then s.replays[r := s.replays[r].(pc := Committed)] else s.replays - {r},
               hist := if found then NewCycle(s.hist, d) else s.hist)
  }

  // ZREM.
  ghost predicate NextRemove(s: Sys, r: Id, t: Sys)
    requires r in s.replays
  {
    && s.replays[r].pc.Committed?
    && t == s.(retries := s.retries - {s.replays[r].delivery},
               replays := s.replays[r := s.replays[r].(pc := Removed)])
  }

  // RPUSH, if the endpoint is ordered.
  ghost predicate NextRequeue(s: Sys, r: Id, t: Sys)
    requires r in s.replays
  {
    var x := s.replays[r];
    var ep := x.endpoint;
    && x.pc.Removed?
    && t == s.(replays := s.replays[r := x.(pc := Pushed)],
               queues := if x.ordered then s.queues[ep := List(s.queues, ep) + [x.delivery]] else s.queues,
               hist := if x.ordered then Pushing(s.hist, ep, x.delivery) else s.hist)
  }

  // XADD.
  ghost predicate NextReadd(s: Sys, r: Id, t: Sys)
    requires r in s.replays
  {
    && s.replays[r].pc.Pushed?
    && t == s.(replays := s.replays - {r}, unread := s.unread[s.next := s.replays[r].delivery], next := s.next + 1)
  }

  ghost predicate NextReplay(s: Sys, r: Id, t: Sys)
    requires r in s.replays
  {
    match s.replays[r].pc
    case Selected => NextReset(s, r, t)
    case Committed => NextRemove(s, r, t)
    case Removed => NextRequeue(s, r, t)
    case Pushed => NextReadd(s, r, t)
  }

  // ---- A handler's steps ----

  function Put(s: Sys, h: Id, x: Handler): Sys {
    s.(handlers := s.handlers[h := x])
  }

  // Compare-and-delete of the lock, if this handler took one.
  function Unlocked(s: Sys, h: Id): map<Id, Id>
    requires h in s.handlers
  {
    var x := s.handlers[h];
    var ep := x.snap.endpoint;
    if x.locked && ep in s.locks && s.locks[ep] == h then s.locks - {ep} else s.locks
  }

  // An attempt that was begun and not recorded is lost with its handler.
  function Losing(hist: History, x: Handler): History {
    if Mid(x) then hist.(lost := hist.lost[x.delivery := Count(hist.lost, x.delivery) + 1]) else hist
  }

  // An exception. Only the statements inside the try block have their lock released on the way out.
  function Failing(x: Handler): Handler {
    x.(pc := Unwind, locked := x.locked && !x.pc.Peek? && !x.pc.NotHead?)
  }

  function Fail(s: Sys, h: Id): Sys
    requires h in s.handlers
  {
    s.(handlers := s.handlers[h := Failing(s.handlers[h])], hist := Losing(s.hist, s.handlers[h]))
  }

  function Overwriting(hist: History, d: Id, row: Row, status: Status): History {
    if Settled(row.status) && !Settled(status) then hist.(overwritten := hist.overwritten + {d}) else hist
  }

  const RATE_LIMIT_RETRY_DELAY := 0.5
  const CONCURRENCY_RETRY_DELAY := 0.5
  const ORDERED_WAIT := 0.25
  const BREAKER_RECHECK_DELAY := 30.0

  // Reading the delivery.
  ghost predicate NextLoad(s: Sys, h: Id, t: Sys)
    requires h in s.handlers
  {
    var x := s.handlers[h];
    var d := x.delivery;
    && x.pc.Load?
    && t == Put(s, h, if d !in s.rows || Settled(s.rows[d].status) then x.(pc := Ack)
                      else x.(pc := LoadEndpoint, snap := s.rows[d]))
  }

  // Reading its endpoint. A delivery for a missing or inactive one is dropped.
  ghost predicate NextLoadEndpoint(s: Sys, h: Id, t: Sys)
    requires h in s.handlers
  {
    var x := s.handlers[h];
    var ep := x.snap.endpoint;
    var active := ep in s.endpoints && s.endpoints[ep].status.Active?;
    && x.pc.LoadEndpoint?
    && t == s.(handlers := s.handlers[h := if !active then x.(pc := Ack)
                                           else x.(pc := if s.endpoints[ep].ordered then Lock else Gates,
                                                   ordered := s.endpoints[ep].ordered)],
               hist := if active then s.hist else s.hist.(dropped := s.hist.dropped + {x.delivery}))
  }

  // SET NX.
  ghost predicate NextLock(s: Sys, h: Id, t: Sys)
    requires h in s.handlers
  {
    var x := s.handlers[h];
    var ep := x.snap.endpoint;
    var free := ep !in s.locks;
    && x.pc.Lock?
    && t == s.(handlers := s.handlers[h := if free then x.(pc := Peek, locked := true)
                                           else x.(pc := Defer, delay := ORDERED_WAIT)],
               locks := if free then s.locks[ep := h] else s.locks)
  }

  // The head check.
  ghost predicate NextPeek(s: Sys, h: Id, t: Sys)
    requires h in s.handlers
  {
    var x := s.handlers[h];
    var q := List(s.queues, x.snap.endpoint);
    && x.pc.Peek?
    && t == Put(s, h, x.(pc := if q != [] && q[0] != x.delivery then NotHead else Gates))
  }

  ghost predicate NextNotHead(s: Sys, h: Id, t: Sys)
    requires h in s.handlers
  {
    && s.handlers[h].pc.NotHead?
    && t == s.(handlers := s.handlers[h := s.handlers[h].(pc := Defer, delay := ORDERED_WAIT, locked := false)],
               locks := Unlocked(s, h))
  }

  function GateDelay(gate: Gate): real {
    match gate
    case BreakerDenied | AutoDisabled => BREAKER_RECHECK_DELAY
    case RateLimited => RATE_LIMIT_RETRY_DELAY
    case Allowed | AtCapacity => CONCURRENCY_RETRY_DELAY
  }

  ghost predicate NextGates(s: Sys, h: Id, gate: Gate, t: Sys)
    requires h in s.handlers
  {
    var x := s.handlers[h];
    var ep := x.snap.endpoint;
    && x.pc.Gates?
    && t == s.(handlers := s.handlers[h := if gate.Allowed? then x.(pc := Begin)
                                           else if gate.AutoDisabled? && ep !in s.endpoints then Failing(x)
                                           else x.(pc := Defer, delay := GateDelay(gate))],
               endpoints := if gate.AutoDisabled? && ep in s.endpoints
                            then s.endpoints[ep := s.endpoints[ep].(status := Disabled)] else s.endpoints)
  }

  // The commit of status 'delivering' and the next attempt number, both computed from the snapshot. A status the
  // snapshot already has is not written.
  ghost predicate NextBegin(s: Sys, h: Id, t: Sys)
    requires h in s.handlers
  {
    var x := s.handlers[h];
    var d := x.delivery;
    var found := d in s.rows;
    var row := if found then s.rows[d] else x.snap;
    var writes := found && !x.snap.status.Delivered?;
    var number := x.snap.attempts + 1;
    var status := if x.snap.status.Delivering? then row.status else Delivering;
    && x.pc.Begin?
    && t == s.(handlers := s.handlers[h := if !found then Failing(x) else if !writes then x.(pc := Refresh)
                                           else x.(pc := Post,
                                                   snap := x.snap.(status := Delivering, attempts := number))],
               rows := if writes then s.rows[d := row.(status := status, attempts := number)] else s.rows,
               hist := if writes then Overwriting(s.hist, d, row, status) else s.hist)
  }

  // The request goes out.
  ghost predicate NextPost(s: Sys, h: Id, t: Sys)
    requires h in s.handlers
  {
    var x := s.handlers[h];
    var ep := x.snap.endpoint;
    && x.pc.Post?
    && t == s.(handlers := s.handlers[h := x.(pc := Wait)],
               hist := s.hist.(sent := s.hist.sent[ep := List(s.hist.sent, ep) + [x.delivery]]))
  }

  // Something comes back.
  ghost predicate NextWait(s: Sys, h: Id, response: Response, t: Sys)
    requires h in s.handlers
  {
    s.handlers[h].pc.Wait? && t == Put(s, h, s.handlers[h].(pc := Conclude, response := response))
  }

  // What the outcome commit writes, and the wait it leads to.
  function Verdict(configuredMax: int, x: Handler, jitter: real): (Status, real) {
    match x.response
    case Success => (Delivered, 0.0)
    case Failure(status, retryAfter) =>
      match Retry.NextDelaySeconds(x.snap.attempts, status, retryAfter, configuredMax, jitter)
      case None => (Dead, 0.0)
      case Some(delay) => (Failed, delay)
  }

  function Concluding(hist: History, d: Id, number: nat, row: Row, status: Status): History {
    Overwriting(hist, d, row, status).(
      numbers := hist.numbers[d := Numbers(hist.numbers, d) + [number]],
      settled := if Settled(status) then hist.settled + {d} else hist.settled)
  }

  // The commit of the attempt row and the status it leads to.
  ghost predicate NextConclude(s: Sys, h: Id, jitter: real, t: Sys)
    requires h in s.handlers
  {
    var x := s.handlers[h];
    var d := x.delivery;
    var found := d in s.rows;
    var row := if found then s.rows[d] else x.snap;
    var status := Verdict(s.configuredMax, x, jitter).0;
    && x.pc.Conclude?
    && t == s.(handlers := s.handlers[h := if !found then Failing(x)
                                           else x.(snap := x.snap.(status := status),
                                                   delay := Verdict(s.configuredMax, x, jitter).1,
                                                   pc := if Settled(status) then Refresh else Schedule)],
               rows := if found then s.rows[d := row.(status := status)] else s.rows,
               hist := if found then Concluding(s.hist, d, x.snap.attempts, row, status) else Losing(s.hist, x))
  }

  // schedule_retry, after a failed attempt or without one.
  ghost predicate NextZadd(s: Sys, h: Id, now: real, t: Sys)
    requires h in s.handlers
  {
    var x := s.handlers[h];
    && (x.pc.Schedule? || x.pc.Defer?)
    && t == s.(handlers := s.handlers[h := x.(pc := if x.pc.Schedule? then Refresh else Unlock)],
               retries := s.retries[x.delivery := now + x.delay])
  }

  ghost predicate NextRefresh(s: Sys, h: Id, t: Sys)
    requires h in s.handlers
  {
    var x := s.handlers[h];
    && x.pc.Refresh?
    && t == Put(s, h, if x.delivery in s.rows then x.(pc := Pop, snap := s.rows[x.delivery]) else Failing(x))
  }

  predicate Pops(s: Sys, x: Handler) {
    x.ordered && Settled(x.snap.status) && x.delivery in List(s.queues, x.snap.endpoint)
  }

  ghost predicate NextPop(s: Sys, h: Id, t: Sys)
    requires h in s.handlers
  {
    var x := s.handlers[h];
    var ep := x.snap.endpoint;
    && x.pc.Pop?
    && t == s.(handlers := s.handlers[h := x.(pc := Unlock)],
               queues := if Pops(s, x) then s.queues[ep := Ordering.RemoveFirst(List(s.queues, ep), x.delivery)]
                         else s.queues,
               hist := if Pops(s, x) then s.hist.(popped := s.hist.popped[ep := Count(s.hist.popped, ep) + 1])
                       else s.hist)
  }

  // The finally block.
  ghost predicate NextUnlock(s: Sys, h: Id, t: Sys)
    requires h in s.handlers
  {
    && s.handlers[h].pc.Unlock?
    && t == s.(handlers := s.handlers[h := s.handlers[h].(pc := Ack, locked := false)], locks := Unlocked(s, h))
  }

  // The acknowledgement, or the finally block of an exception; the handler is done.
  ghost predicate NextLeave(s: Sys, h: Id, t: Sys)
    requires h in s.handlers
  {
    var x := s.handlers[h];
    && (x.pc.Ack? || x.pc.Unwind?)
    && t == s.(handlers := s.handlers - {h}, pel := if x.pc.Ack? then s.pel - {x.msg} else s.pel,
               locks := if x.pc.Ack? then s.locks else Unlocked(s, h))
  }

  ghost predicate NextAdvance(s: Sys, h: Id, c: Choice, t: Sys)
    requires h in s.handlers
  {
    match s.handlers[h].pc
    case Load => NextLoad(s, h, t)
    case LoadEndpoint => NextLoadEndpoint(s, h, t)
    case Lock => NextLock(s, h, t)
    case Peek => NextPeek(s, h, t)
    case NotHead => NextNotHead(s, h, t)
    case Gates => NextGates(s, h, c.gate, t)
    case Begin => NextBegin(s, h, t)
    case Post => NextPost(s, h, t)
    case Wait => NextWait(s, h, c.response, t)
    case Conclude => Retry.IsJitter(c.jitter) && NextConclude(s, h, c.jitter, t)
    case Schedule | Defer => NextZadd(s, h, c.now, t)
    case Refresh => NextRefresh(s, h, t)
    case Pop => NextPop(s, h, t)
    case Unlock => NextUnlock(s, h, t)
    case Ack | Unwind => NextLeave(s, h, t)
  }

  // ---- All steps ----

  ghost predicate NextEndpoint(s: Sys, step: Step, t: Sys) {
    match step
    case AddEndpoint(ordered) =>
      t == s.(endpoints := s.endpoints[s.next := Endpoint(Active, ordered)], next := s.next + 1)
    case SetEndpoint(ep, status) =>
      ep in s.endpoints && t == s.(endpoints := s.endpoints[ep := s.endpoints[ep].(status := status)])
    case DeleteEndpoint(ep) =>
      && ep in s.endpoints
      && t == s.(endpoints := s.endpoints - {ep}, rows := map d | d in s.rows && s.rows[d].endpoint != ep :: s.rows[d])
    case _ => false
  }

  ghost predicate NextIngestCommit(s: Sys, ep: Id, t: Sys) {
    && ep in s.endpoints
    && t == s.(rows := s.rows[s.next := Row(ep, Pending, 0)],
               ingests := s.ingests[s.next := Ingest(ep, s.endpoints[ep].ordered, false)], next := s.next + 1)
  }

  ghost predicate NextIngestPush(s: Sys, d: Id, t: Sys) {
    && d in s.ingests && s.ingests[d].ordered && !s.ingests[d].pushed
    && var ep := s.ingests[d].endpoint;
       t == s.(ingests := s.ingests[d := s.ingests[d].(pushed := true)],
               queues := s.queues[ep := List(s.queues, ep) + [d]], hist := Pushing(s.hist, ep, d))
  }

  ghost predicate NextIngestAdd(s: Sys, d: Id, t: Sys) {
    && d in s.ingests && (s.ingests[d].ordered ==> s.ingests[d].pushed)
    && t == s.(ingests := s.ingests - {d}, unread := s.unread[s.next := d], next := s.next + 1,
               hist := s.hist.(enqueued := s.hist.enqueued + {d}))
  }

  ghost predicate NextReplaySelect(s: Sys, d: Id, t: Sys) {
    && d in s.rows && s.rows[d].status.Dead? && s.rows[d].endpoint in s.endpoints
    && var ep := s.rows[d].endpoint;
       t == s.(replays := s.replays[s.next := Replay(d, ep, s.endpoints[ep].ordered, Selected)], next := s.next + 1)
  }

  ghost predicate NextMoveDue(s: Sys, d: Id, now: real, t: Sys) {
    && d in s.retries && s.retries[d] <= now
    && t == s.(retries := s.retries - {d}, unread := s.unread[s.next := d], next := s.next + 1)
  }

  function NewHandler(m: Id, d: Id): Handler {
    Handler(m, d, Load, Row(0, Pending, 0), false, false, Success, 0.0)
  }

  ghost predicate NextClaim(s: Sys, m: Id, t: Sys) {
    && m in s.unread
    && t == s.(unread := s.unread - {m}, pel := s.pel[m := s.unread[m]],
               handlers := s.handlers[s.next := NewHandler(m, s.unread[m])], next := s.next + 1)
  }

  ghost predicate NextReclaim(s: Sys, m: Id, t: Sys) {
    && m in s.pel
    && t == s.(handlers := s.handlers[s.next := NewHandler(m, s.pel[m])], next := s.next + 1)
  }

  ghost predicate NextCrash(s: Sys, h: Id, t: Sys) {
    h in s.handlers && t == s.(handlers := s.handlers - {h}, hist := Losing(s.hist, s.handlers[h]))
  }

  /** `step` is possible in s and leads to t. */
  ghost predicate Next(s: Sys, step: Step, t: Sys) {
    match step
    case AddEndpoint(_) | SetEndpoint(_, _) | DeleteEndpoint(_) => NextEndpoint(s, step, t)
    case IngestCommit(ep) => NextIngestCommit(s, ep, t)
    case IngestPush(d) => NextIngestPush(s, d, t)
    case IngestAdd(d) => NextIngestAdd(s, d, t)
    case ReplaySelect(d) => NextReplaySelect(s, d, t)
    case ReplayStep(r) => r in s.replays && NextReplay(s, r, t)
    case MoveDue(d, now) => NextMoveDue(s, d, now, t)
    case Claim(m) => NextClaim(s, m, t)
    case Reclaim(m) => NextReclaim(s, m, t)
    case Advance(h, c) => h in s.handlers && NextAdvance(s, h, c, t)
    case Raise(h) => h in s.handlers && !s.handlers[h].pc.Unwind? && t == Fail(s, h)
    case Crash(h) => NextCrash(s, h, t)
    case Expire(ep) => ep in s.locks && t == s.(locks := s.locks - {ep})
  }

  // ---- Runs ----

  const NoHistory := History({}, {}, {}, {}, map[], map[], map[], map[], map[])

  function Initial(configuredMax: int): Sys {
    Sys(configuredMax, 0, map[], map[], map[], map[], map[], map[], map[], map[], map[], map[], NoHistory)
  }

  /** `ss` are the states before, between and after the steps of a run. */
  ghost predicate IsRun(ss: seq<Sys>, steps: seq<Step>) {
    && |ss| == |steps| + 1
    && ss[0] == Initial(ss[0].configuredMax)
    && forall i: nat | i < |steps| :: Leads(ss, steps, i)
  }

  ghost predicate Leads(ss: seq<Sys>, steps: seq<Step>, i: nat) {
    i < |steps| && i + 1 < |ss| && Next(ss[i], steps[i], ss[i + 1])
  }

  lemma RunExtends(ss: seq<Sys>, steps: seq<Step>, step: Step, t: Sys)
    requires IsRun(ss, steps) && Next(ss[|steps|], step, t)
    ensures IsRun(ss + [t], steps + [step])
  {
    forall i: nat | i < |steps| + 1 ensures Leads(ss + [t], steps + [step], i) {
      if i < |steps| { assert Leads(ss, steps, i); }
    }
  }

  // ---- What a handler's step leaves alone ----

  ghost predicate Frame(s: Sys, h: Id, t: Sys)
    requires h in s.handlers
  {
    var pc := s.handlers[h].pc;
    && t.configuredMax == s.configuredMax && t.next == s.next
    && t.unread == s.unread && t.ingests == s.ingests && t.replays == s.replays
    && t.hist.enqueued == s.hist.enqueued && t.hist.pushed == s.hist.pushed
    && (pc.Begin? || pc.Conclude? || t.rows == s.rows)
    && (pc.Gates? || t.endpoints == s.endpoints)
    && (pc.Lock? || pc.NotHead? || pc.Unlock? || pc.Unwind? || t.locks == s.locks)
    && (pc.Pop? || (t.queues == s.queues && t.hist.popped == s.hist.popped))
    && (pc.Ack? || t.pel == s.pel)
    && (pc.Conclude? || (t.hist.settled == s.hist.settled && t.hist.numbers == s.hist.numbers))
    && (pc.Post? || t.hist.sent == s.hist.sent)
    && (Mid(s.handlers[h]) || t.hist.lost == s.hist.lost)
    && t.handlers == if h in t.handlers then s.handlers[h := t.handlers[h]] else s.handlers - {h}
  }

  lemma LoadingFrame(s: Sys, h: Id, t: Sys)
    requires h in s.handlers && (NextLoad(s, h, t) || NextLoadEndpoint(s, h, t))
    ensures Frame(s, h, t)
  {}

  lemma OrderingFrame(s: Sys, h: Id, t: Sys)
    requires h in s.handlers && (NextLock(s, h, t) || NextPeek(s, h, t) || NextNotHead(s, h, t))
    ensures Frame(s, h, t)
  {}

  lemma GatesFrame(s: Sys, h: Id, gate: Gate, t: Sys)
    requires h in s.handlers && NextGates(s, h, gate, t)
    ensures Frame(s, h, t)
  {}

  lemma BeginFrame(s: Sys, h: Id, t: Sys)
    requires h in s.handlers && NextBegin(s, h, t)
    ensures Frame(s, h, t)
  {}

  lemma ConcludeFrame(s: Sys, h: Id, jitter: real, t: Sys)
    requires h in s.handlers && NextConclude(s, h, jitter, t)
    ensures Frame(s, h, t)
  {}

  lemma SendingFrame(s: Sys, h: Id, response: Response, t: Sys)
    requires h in s.handlers && (NextPost(s, h, t) || NextWait(s, h, response, t))
    ensures Frame(s, h, t)
  {}

  lemma ClosingFrame(s: Sys, h: Id, t: Sys)
    requires h in s.handlers && (NextUnlock(s, h, t) || NextLeave(s, h, t))
    ensures Frame(s, h, t)
  {}

  lemma PopFrame(s: Sys, h: Id, t: Sys)
    requires h in s.handlers && NextPop(s, h, t)
    ensures Frame(s, h, t)
  {}

  lemma RefreshFrame(s: Sys, h: Id, t: Sys)
    requires h in s.handlers && NextRefresh(s, h, t)
    ensures Frame(s, h, t)
  {}

  lemma ZaddFrame(s: Sys, h: Id, now: real, t: Sys)
    requires h in s.handlers && NextZadd(s, h, now, t)
    ensures Frame(s, h, t)
  {}

  lemma AdvanceFrame(s: Sys, h: Id, c: Choice, t: Sys)
    requires h in s.handlers && NextAdvance(s, h, c, t)
    ensures Frame(s, h, t)
  {
    match s.handlers[h].pc {
      case Load | LoadEndpoint => LoadingFrame(s, h, t);
      case Lock | Peek | NotHead => OrderingFrame(s, h, t);
      case Gates => GatesFrame(s, h, c.gate, t);
      case Begin => BeginFrame(s, h, t);
      case Post | Wait => SendingFrame(s, h, c.response, t);
      case Conclude => ConcludeFrame(s, h, c.jitter, t);
      case Schedule | Defer => ZaddFrame(s, h, c.now, t);
      case Refresh => RefreshFrame(s, h, t);
      case Pop => PopFrame(s, h, t);
      case Unlock | Ack | Unwind => ClosingFrame(s, h, t);
    }
  }

  // What a step outside any handler and replay leaves alone.
  ghost predicate OutsideFrame(s: Sys, t: Sys) {
    && t.hist.sent == s.hist.sent && t.hist.popped == s.hist.popped && s.next <= t.next
    && forall d | d in t.rows && d != s.next :: d in s.rows && t.rows[d] == s.rows[d]
  }

  lemma OutsideSteps(s: Sys, step: Step, t: Sys)
    requires Next(s, step, t) && !step.Advance? && !step.ReplayStep?
    ensures OutsideFrame(s, t)
  {
    match step {
      case AddEndpoint(_) | SetEndpoint(_, _) | DeleteEndpoint(_) => EndpointFrame(s, step, t);
      case IngestCommit(ep) => assert NextIngestCommit(s, ep, t);
      case IngestPush(d) => assert NextIngestPush(s, d, t);
      case IngestAdd(d) => assert NextIngestAdd(s, d, t);
      case ReplaySelect(d) => assert NextReplaySelect(s, d, t);
      case MoveDue(d, now) => assert NextMoveDue(s, d, now, t);
      case Claim(m) => assert NextClaim(s, m, t);
      case Reclaim(m) => assert NextReclaim(s, m, t);
      case Raise(_) | Crash(_) | Expire(_) =>
    }
  }

  lemma EndpointFrame(s: Sys, step: Step, t: Sys)
    requires NextEndpoint(s, step, t)
    ensures OutsideFrame(s, t)
  {}

  // ---- Rows come from ingestion, under fresh names, and keep their endpoint ----

  predicate RowsPersist(s: Sys, t: Sys) {
    && s.next <= t.next
    && forall d | d in t.rows && d < s.next :: d in s.rows && t.rows[d].endpoint == s.rows[d].endpoint
  }

  lemma AdvanceKeepsRows(s: Sys, h: Id, c: Choice, t: Sys)
    requires h in s.handlers && NextAdvance(s, h, c, t)
    ensures RowsPersist(s, t)
  {
    AdvanceFrame(s, h, c, t);
    match s.handlers[h].pc {
      case Begin => BeginKeepsRows(s, h, t);
      case Conclude => ConcludeKeepsRows(s, h, c.jitter, t);
      case _ =>
    }
  }

  lemma BeginKeepsRows(s: Sys, h: Id, t: Sys)
    requires h in s.handlers && NextBegin(s, h, t)
    ensures RowsPersist(s, t)
  {}

  lemma ConcludeKeepsRows(s: Sys, h: Id, jitter: real, t: Sys)
    requires h in s.handlers && NextConclude(s, h, jitter, t)
    ensures RowsPersist(s, t)
  {}

  lemma ResetKeepsRows(s: Sys, r: Id, t: Sys)
    requires r in s.replays && NextReset(s, r, t)
    ensures RowsPersist(s, t)
  {}

  // After its commit a replay writes no row.
  lemma ReplayKeepsRow(s: Sys, r: Id, t: Sys)
    requires r in s.replays && !s.replays[r].pc.Selected? && NextReplay(s, r, t)
    ensures t.rows == s.rows && t.hist.sent == s.hist.sent && s.next <= t.next
  {
    if s.replays[r].pc.Committed? {
      assert NextRemove(s, r, t);
    } else if s.replays[r].pc.Removed? {
      RequeueKeepsRow(s, r, t);
    } else {
      assert NextReadd(s, r, t);
    }
  }

  lemma RequeueKeepsRow(s: Sys, r: Id, t: Sys)
    requires r in s.replays && NextRequeue(s, r, t)
    ensures t.rows == s.rows && t.hist.sent == s.hist.sent && s.next <= t.next
  {}

  lemma StepKeepsRows(s: Sys, step: Step, t: Sys)
    requires Next(s, step, t)
    ensures RowsPersist(s, t)
  {
    if step.Advance? {
      AdvanceKeepsRows(s, step.handler, step.choice, t);
    } else if step.ReplayStep? {
      if s.replays[step.replay].pc.Selected? {
        ResetKeepsRows(s, step.replay, t);
      } else {
        ReplayKeepsRow(s, step.replay, t);
      }
    } else {
      OutsideSteps(s, step, t);
    }
  }

  lemma {:induction false} RunKeepsRows(ss: seq<Sys>, steps: seq<Step>, n: nat, m: nat)
    requires IsRun(ss, steps) && n <= m <= |steps|
    ensures RowsPersist(ss[n], ss[m])
  {
    if n < m {
      RunKeepsRows(ss, steps, n, m - 1);
      assert Leads(ss, steps, m - 1);
      StepKeepsRows(ss[m - 1], steps[m - 1], ss[m]);
    }
  }
}
