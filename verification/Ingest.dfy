/**
 POST /v1/events (relay/api/routes/events.py) as a labelled transition system: any number of requests, each taking one
 database or Redis operation per step, interleaved with each other and with changes to the endpoints.

 The INSERT of the event is not part of the commit. It is flushed by the select of the endpoints, which comes before the
 `try`, and holds the event's key until its transaction ends.

 A request that dies takes no further step; if its transaction is open, that is rolled back.
 */
module Ingest {
  import opened Wrappers

  type Id = nat

  datatype Endpoint = Endpoint(tenant: Id, active: bool, types: set<string>, ordered: bool)

  datatype Event = Event(tenant: Id, eventType: string, key: Option<string>)

  /** One delivery as its request sees it: `ordered` is the endpoint's ordering when it was selected. */
  datatype Task = Task(delivery: Id, endpoint: Id, ordered: bool)

  datatype Match = Match(endpoint: Id, ordered: bool)

  datatype Pc =
    | Check                                                   // look for the idempotency key
    | Flush                                                   // INSERT the event
    | FanOut(event: Id)                                       // select the matching endpoints
    | Commit(event: Id, matching: seq<Match>)                 // INSERT the deliveries, COMMIT
    | Enqueue(event: Id, todo: seq<Task>, pushed: bool)       // RPUSH and XADD
    | Accepted(event: Id)                                     // 202
    | Failed                                                  // 500
    | Gone                                                    // no answer, and rolled back

  datatype Request = Request(tenant: Id, eventType: string, key: Option<string>, pc: Pc)

  /** What was written to Redis, and by which request. */
  datatype Op =
    | Rpush(request: Id, event: Id, endpoint: Id, delivery: Id)
    | Xadd(request: Id, event: Id, endpoint: Id, delivery: Id)

  /** How an event came to be: by which request, and with which deliveries. History, like the log of operations. */
  datatype Origin = Origin(request: Id, tasks: seq<Task>)

  datatype Sys = Sys(
    next: Id,
    endpoints: map<Id, Endpoint>,
    events: map<Id, Event>,
    deliveries: map<Id, (Id, Id)>,  // (event, endpoint)
    requests: map<Id, Request>,
    origins: map<Id, Origin>,
    log: seq<Op>)

  datatype Step =
    | AddEndpoint(tenant: Id, types: set<string>, ordered: bool)
    | PatchEndpoint(endpoint: Id, active: bool, types: set<string>)
    | DeleteEndpoint(endpoint: Id)
    | Receive(tenant: Id, eventType: string, key: Option<string>)
    | Advance(request: Id, matching: seq<Match>)
    | Abandon(request: Id)

  // ---- What a request reads ----

  predicate Matches(s: Sys, r: Request, ep: Id) {
    && ep in s.endpoints && s.endpoints[ep].tenant == r.tenant && s.endpoints[ep].active
    && (s.endpoints[ep].types == {} || r.eventType in s.endpoints[ep].types)
  }

  /** `matching` lists each endpoint that matches, once, in whatever order the database returns them. */
  ghost predicate IsFanOut(s: Sys, r: Request, matching: seq<Match>) {
    && (forall i | 0 <= i < |matching| ::
          && Matches(s, r, matching[i].endpoint)
          && matching[i].ordered == s.endpoints[matching[i].endpoint].ordered)
    && (forall i, j | 0 <= i < j < |matching| :: matching[i].endpoint != matching[j].endpoint)
    && (forall ep | Matches(s, r, ep) :: exists i :: 0 <= i < |matching| && matching[i].endpoint == ep)
  }

  // e is the event the request's idempotency key names.
  predicate IsExisting(s: Sys, tenant: Id, key: Option<string>, e: Id) {
    e in s.events && key.Some? && s.events[e].tenant == tenant && s.events[e].key == key
  }

  ghost predicate Taken(s: Sys, r: Request) {
    exists e :: IsExisting(s, r.tenant, r.key, e)
  }

  predicate SameKey(x: Request, y: Request) {
    x.key.Some? && x.tenant == y.tenant && x.key == y.key
  }

  // Its event is inserted and not committed.
  predicate Writing(x: Request) { x.pc.FanOut? || x.pc.Commit? }

  // Another transaction holds the request's key: the database lets the INSERT wait for its end.
  ghost predicate BlockedBy(s: Sys, r: Id, q: Id)
    requires r in s.requests
  {
    q in s.requests && q != r && Writing(s.requests[q]) && SameKey(s.requests[q], s.requests[r])
  }

  ghost predicate Blocked(s: Sys, r: Id)
    requires r in s.requests
  {
    exists q :: BlockedBy(s, r, q)
  }

  // A foreign key of a delivery row would point nowhere.
  predicate SomeGone(s: Sys, matching: seq<Match>) {
    exists i :: 0 <= i < |matching| && matching[i].endpoint !in s.endpoints
  }

  // ---- Steps ----

  function Put(s: Sys, r: Id, pc: Pc): Sys
    requires r in s.requests
  {
    s.(requests := s.requests[r := s.requests[r].(pc := pc)])
  }

  function RpushOf(r: Id, e: Id, x: Task): Op { Rpush(r, e, x.endpoint, x.delivery) }

  function XaddOf(r: Id, e: Id, x: Task): Op { Xadd(r, e, x.endpoint, x.delivery) }

  function Tasks(matching: seq<Match>, first: Id): seq<Task> {
    seq(|matching|, i requires 0 <= i < |matching| => Task(first + i, matching[i].endpoint, matching[i].ordered))
  }

  // The rows of the deliveries.
  function Rows(e: Id, tasks: seq<Task>): map<Id, (Id, Id)> {
    if tasks == [] then map[] else
      var x := tasks[|tasks| - 1];
      Rows(e, tasks[..|tasks| - 1])[x.delivery := (e, x.endpoint)]
  }

  ghost predicate NextCheck(s: Sys, r: Id, t: Sys)
    requires r in s.requests && s.requests[r].pc.Check?
  {
    var x := s.requests[r];
    && r in t.requests && t == Put(s, r, t.requests[r].pc)
    && var pc := t.requests[r].pc;
       if Taken(s, x) then pc.Accepted? && IsExisting(s, x.tenant, x.key, pc.event) else pc.Flush?
  }

  // The IntegrityError of this INSERT is not caught.
  ghost predicate NextFlush(s: Sys, r: Id, t: Sys)
    requires r in s.requests && s.requests[r].pc.Flush?
  {
    && !Blocked(s, r)
    && t == if Taken(s, s.requests[r]) then Put(s, r, Failed) else Put(s.(next := s.next + 1), r, FanOut(s.next))
  }

  ghost predicate NextFanOut(s: Sys, r: Id, matching: seq<Match>, t: Sys)
    requires r in s.requests && s.requests[r].pc.FanOut?
  {
    IsFanOut(s, s.requests[r], matching) && t == Put(s, r, Commit(s.requests[r].pc.event, matching))
  }

  // If an endpoint is gone, its delivery's INSERT raises, and so does the handler of that IntegrityError.
  ghost predicate NextCommit(s: Sys, r: Id, t: Sys)
    requires r in s.requests && s.requests[r].pc.Commit?
  {
    t == if SomeGone(s, s.requests[r].pc.matching) then Put(s, r, Failed) else Committed(s, r)
  }

  function Committed(s: Sys, r: Id): Sys
    requires r in s.requests && s.requests[r].pc.Commit?
  {
    var x := s.requests[r];
    var e, tasks := x.pc.event, Tasks(x.pc.matching, s.next);
    s.(requests := s.requests[r := x.(pc := Enqueue(e, tasks, false))],
       next := s.next + |tasks|,
       events := s.events[e := Event(x.tenant, x.eventType, x.key)],
       deliveries := s.deliveries + Rows(e, tasks),
       origins := s.origins[e := Origin(r, tasks)])
  }

  // The next operation: RPUSH before XADD for an ordered endpoint.
  ghost predicate NextEnqueue(s: Sys, r: Id, t: Sys)
    requires r in s.requests && s.requests[r].pc.Enqueue?
  {
    var pc := s.requests[r].pc;
    var done := pc.todo == [];
    var pushing := !done && pc.todo[0].ordered && !pc.pushed;
    && t == s.(requests := s.requests[r := s.requests[r].(pc :=
                 if done then Accepted(pc.event)
                 else if pushing then Enqueue(pc.event, pc.todo, true)
                 else Enqueue(pc.event, pc.todo[1..], false))],
               log := if done then s.log
                      else if pushing then s.log + [RpushOf(r, pc.event, pc.todo[0])]
                      else s.log + [XaddOf(r, pc.event, pc.todo[0])])
  }

  ghost predicate NextAdvance(s: Sys, r: Id, matching: seq<Match>, t: Sys)
    requires r in s.requests
  {
    match s.requests[r].pc
    case Check => NextCheck(s, r, t)
    case Flush => NextFlush(s, r, t)
    case FanOut(_) => NextFanOut(s, r, matching, t)
    case Commit(_, _) => NextCommit(s, r, t)
    case Enqueue(_, _, _) => NextEnqueue(s, r, t)
    case Accepted(_) | Failed | Gone => false
  }

  // A process that dies or a connection that breaks before the commit.
  ghost predicate NextAbandon(s: Sys, r: Id, t: Sys)
    requires r in s.requests
  {
    (s.requests[r].pc.Check? || s.requests[r].pc.Flush? || Writing(s.requests[r])) && t == Put(s, r, Gone)
  }

  // Endpoints come and go, and are patched; a deleted one takes its deliveries along.
  ghost predicate NextEndpoint(s: Sys, step: Step, t: Sys) {
    match step
    case AddEndpoint(tenant, types, ordered) =>
      t == s.(endpoints := s.endpoints[s.next := Endpoint(tenant, true, types, ordered)], next := s.next + 1)
    case PatchEndpoint(ep, active, types) =>
      && ep in s.endpoints
      && t == s.(endpoints := s.endpoints[ep := s.endpoints[ep].(active := active, types := types)])
    case DeleteEndpoint(ep) =>
      && ep in s.endpoints
      && t == s.(endpoints := s.endpoints - {ep},
              deliveries := map d | d in s.deliveries && s.deliveries[d].1 != ep :: s.deliveries[d])
    case _ => false
  }

  ghost predicate Next(s: Sys, step: Step, t: Sys) {
    match step
    case AddEndpoint(_, _, _) | PatchEndpoint(_, _, _) | DeleteEndpoint(_) => NextEndpoint(s, step, t)
    case Receive(tenant, eventType, key) =>
      t == s.(requests := s.requests[s.next := Request(tenant, eventType, key, Check)], next := s.next + 1)
    case Advance(r, matching) => r in s.requests && NextAdvance(s, r, matching, t)
    case Abandon(r) => r in s.requests && NextAbandon(s, r, t)
  }

  const INITIAL := Sys(0, map[], map[], map[], map[], map[], [])

  ghost predicate IsRun(ss: seq<Sys>, steps: seq<Step>) {
    && |ss| == |steps| + 1 && ss[0] == INITIAL
    && forall i: nat | i < |steps| :: Leads(ss, steps, i)
  }

  ghost predicate Leads(ss: seq<Sys>, steps: seq<Step>, i: nat) {
    i < |steps| && i + 1 < |ss| && Next(ss[i], steps[i], ss[i + 1])
  }

  // ---- The operations of one event ----

  function OpsOf(log: seq<Op>, e: Id): seq<Op> {
    if log == [] then [] else
      var before := OpsOf(log[..|log| - 1], e);
      if log[|log| - 1].event == e then before + [log[|log| - 1]] else before
  }

  lemma OpsOnAppend(log: seq<Op>, op: Op, e: Id)
    ensures OpsOf(log + [op], e) == if op.event == e then OpsOf(log, e) + [op] else OpsOf(log, e)
  {
    assert (log + [op])[..|log|] == log;
  }

  /** What enqueuing the tasks writes: for each delivery in turn one XADD, with an RPUSH just before it if its endpoint
      is ordered. */
  function Script(r: Id, e: Id, tasks: seq<Task>): seq<Op> {
    if tasks == [] then [] else
      var x := tasks[|tasks| - 1];
      Script(r, e, tasks[..|tasks| - 1])
      + (if x.ordered then [RpushOf(r, e, x), XaddOf(r, e, x)] else [XaddOf(r, e, x)])
  }

  lemma ScriptOnAppend(r: Id, e: Id, tasks: seq<Task>, k: nat)
    requires k < |tasks|
    ensures Script(r, e, tasks[..k + 1])
            == Script(r, e, tasks[..k])
               + (if tasks[k].ordered then [RpushOf(r, e, tasks[k]), XaddOf(r, e, tasks[k])]
                  else [XaddOf(r, e, tasks[k])])
  {
    assert tasks[..k + 1][..k] == tasks[..k];
  }

  lemma {:induction false} ScriptGrows(r: Id, e: Id, tasks: seq<Task>, k: nat)
    requires k <= |tasks|
    ensures Script(r, e, tasks[..k]) <= Script(r, e, tasks)
    decreases |tasks| - k
  {
    if k == |tasks| {
      assert tasks[..k] == tasks;
    } else {
      ScriptOnAppend(r, e, tasks, k);
      ScriptGrows(r, e, tasks, k + 1);
    }
  }

  // ---- The invariant ----

  // What has been written for event e when its request is at pc.
  predicate Written(log: seq<Op>, r: Id, e: Id, tasks: seq<Task>, pc: Pc) {
    match pc
    case Enqueue(f, todo, pushed) =>
      && f == e && |todo| <= |tasks| && todo == tasks[|tasks| - |todo|..]
      && (pushed ==> todo != [] && todo[0].ordered)
      && OpsOf(log, e) == Script(r, e, tasks[..|tasks| - |todo|]) + if pushed then [RpushOf(r, e, todo[0])] else []
    case Accepted(f) => f == e && OpsOf(log, e) == Script(r, e, tasks)
    case _ => false
  }

  ghost predicate OriginOk(s: Sys, e: Id)
    requires e in s.events && e in s.origins
  {
    var o := s.origins[e];
    && o.request in s.requests
    && Written(s.log, o.request, e, o.tasks, s.requests[o.request].pc)
    && var x := s.requests[o.request];
       s.events[e] == Event(x.tenant, x.eventType, x.key)
  }

  // The delivery rows of an event: one per task whose endpoint is still there.
  ghost predicate RowsOk(s: Sys, e: Id)
    requires e in s.origins
  {
    var tasks := s.origins[e].tasks;
    && (forall i, j | 0 <= i < j < |tasks| ::
          tasks[i].delivery != tasks[j].delivery && tasks[i].endpoint != tasks[j].endpoint)
    && (forall i | 0 <= i < |tasks| :: tasks[i].delivery < s.next && tasks[i].endpoint < s.next)
    && (forall i | 0 <= i < |tasks| && tasks[i].endpoint in s.endpoints ::
          tasks[i].delivery in s.deliveries && s.deliveries[tasks[i].delivery] == (e, tasks[i].endpoint))
  }

  predicate IsTask(s: Sys, e: Id, i: int, d: Id, ep: Id)
    requires e in s.origins
  {
    0 <= i < |s.origins[e].tasks| && s.origins[e].tasks[i].delivery == d && s.origins[e].tasks[i].endpoint == ep
  }

  ghost predicate DeliveriesOk(s: Sys) {
    forall d | d in s.deliveries ::
      && d < s.next && s.deliveries[d].0 in s.origins && s.deliveries[d].1 in s.endpoints
      && exists i :: IsTask(s, s.deliveries[d].0, i, d, s.deliveries[d].1)
  }

  ghost predicate KeysUnique(s: Sys) {
    forall e, f | e in s.events && f in s.events && s.events[e].key.Some?
                  && s.events[e].tenant == s.events[f].tenant && s.events[e].key == s.events[f].key :: e == f
  }

  ghost predicate EventsOk(s: Sys) {
    && s.origins.Keys == s.events.Keys
    && (forall e | e in s.events :: e < s.next && OriginOk(s, e) && RowsOk(s, e))
    && (forall e: Id | e !in s.events :: OpsOf(s.log, e) == [])
    && KeysUnique(s)
  }

  ghost predicate RequestOk(s: Sys, r: Id)
    requires r in s.requests
  {
    var x := s.requests[r];
    match x.pc
    case FanOut(e) => e < s.next && e !in s.events && !Taken(s, x)
    case Commit(e, matching) =>
      && e < s.next && e !in s.events && !Taken(s, x)
      && (forall i | 0 <= i < |matching| :: matching[i].endpoint < s.next)
      && (forall i, j | 0 <= i < j < |matching| :: matching[i].endpoint != matching[j].endpoint)
    case Enqueue(e, _, _) => e in s.events && e in s.origins && s.origins[e].request == r
    case Accepted(e) =>
      && e in s.events && e in s.origins && s.events[e].tenant == x.tenant && s.events[e].key == x.key
      && (x.key.None? ==> s.origins[e].request == r)
    case _ => true
  }

  // Uncommitted events are of one request each, and so are their keys.
  ghost predicate WritersApart(s: Sys) {
    forall r, q | r in s.requests && q in s.requests && Writing(s.requests[r]) && Writing(s.requests[q])
                  && (s.requests[r].pc.event == s.requests[q].pc.event || SameKey(s.requests[r], s.requests[q])) ::
      r == q
  }

  ghost predicate RequestsOk(s: Sys) {
    && (forall r | r in s.requests :: r < s.next && RequestOk(s, r))
    && WritersApart(s)
    && (forall ep | ep in s.endpoints :: ep < s.next)
  }

  ghost predicate Inv(s: Sys) {
    EventsOk(s) && DeliveriesOk(s) && RequestsOk(s)
  }

  // ---- Steps that write no event ----

  // Request r moves on without having made an event.
  ghost predicate Quiet(s: Sys, r: Id, pc: Pc, next: Id, t: Sys) {
    && r in s.requests && !s.requests[r].pc.Enqueue? && !s.requests[r].pc.Accepted?
    && s.next <= next && t == s.(next := next, requests := s.requests[r := s.requests[r].(pc := pc)])
  }

  lemma QuietKeepsEvents(s: Sys, r: Id, pc: Pc, next: Id, t: Sys)
    requires EventsOk(s) && Quiet(s, r, pc, next, t)
    ensures EventsOk(t)
  {
    forall e | e in t.events ensures OriginOk(t, e) && RowsOk(t, e) { assert OriginOk(s, e) && RowsOk(s, e); }
  }

  lemma SameOriginsKeepDeliveries(s: Sys, t: Sys)
    requires DeliveriesOk(s) && t.deliveries == s.deliveries && t.origins == s.origins && s.next <= t.next
    requires t.endpoints == s.endpoints
    ensures DeliveriesOk(t)
  {
    forall d | d in t.deliveries ensures exists i :: IsTask(t, t.deliveries[d].0, i, d, t.deliveries[d].1) {
      var i :| IsTask(s, s.deliveries[d].0, i, d, s.deliveries[d].1);
      assert IsTask(t, t.deliveries[d].0, i, d, t.deliveries[d].1);
    }
  }

  // If it begins to write, it does so under a new identifier and a key that nobody else is writing.
  ghost predicate BeginsWriting(s: Sys, r: Id, pc: Pc)
    requires r in s.requests
  {
    pc.FanOut? || pc.Commit? ==>
      (Writing(s.requests[r]) && pc.event == s.requests[r].pc.event) || (s.next <= pc.event && !Blocked(s, r))
  }

  lemma QuietMove(s: Sys, r: Id, pc: Pc, next: Id, t: Sys)
    requires Inv(s) && Quiet(s, r, pc, next, t) && RequestOk(t, r) && BeginsWriting(s, r, pc)
    ensures Inv(t)
  {
    QuietKeepsEvents(s, r, pc, next, t);
    SameOriginsKeepDeliveries(s, t);
    QuietKeepsRequests(s, r, pc, next, t);
  }

  lemma QuietKeepsRequests(s: Sys, r: Id, pc: Pc, next: Id, t: Sys)
    requires RequestsOk(s) && Quiet(s, r, pc, next, t) && RequestOk(t, r) && BeginsWriting(s, r, pc)
    ensures RequestsOk(t)
  {
    forall q | q in t.requests ensures RequestOk(t, q) {
      if q != r {
        assert RequestOk(s, q);
        SameEventsSameTaken(s, t, s.requests[q]);
      }
    }
    forall q | q in t.requests && q != r && Writing(t.requests[q]) && Writing(t.requests[r])
      ensures t.requests[q].pc.event != pc.event && !SameKey(t.requests[q], t.requests[r])
    {
      assert RequestOk(s, q);
      if !Writing(s.requests[r]) { assert !BlockedBy(s, r, q); }
    }
  }

  lemma SameEventsSameTaken(s: Sys, t: Sys, x: Request)
    requires t.events == s.events
    ensures Taken(t, x) <==> Taken(s, x)
  {
    forall e ensures IsExisting(t, x.tenant, x.key, e) <==> IsExisting(s, x.tenant, x.key, e) {}
  }

  lemma CheckKeepsInv(s: Sys, r: Id, t: Sys)
    requires Inv(s) && r in s.requests && s.requests[r].pc.Check? && NextCheck(s, r, t)
    ensures Inv(t)
  {
    QuietMove(s, r, t.requests[r].pc, s.next, t);
  }

  lemma FlushKeepsInv(s: Sys, r: Id, t: Sys)
    requires Inv(s) && r in s.requests && s.requests[r].pc.Flush? && NextFlush(s, r, t)
    ensures Inv(t)
  {
    SameEventsSameTaken(s, t, s.requests[r]);
    if Taken(s, s.requests[r]) {
      QuietMove(s, r, Failed, s.next, t);
    } else {
      QuietMove(s, r, FanOut(s.next), s.next + 1, t);
    }
  }

  lemma FanOutKeepsInv(s: Sys, r: Id, matching: seq<Match>, t: Sys)
    requires Inv(s) && r in s.requests && s.requests[r].pc.FanOut? && NextFanOut(s, r, matching, t)
    ensures Inv(t)
  {
    assert RequestOk(s, r);
    SameEventsSameTaken(s, t, s.requests[r]);
    QuietMove(s, r, Commit(s.requests[r].pc.event, matching), s.next, t);
  }

  lemma AbandonKeepsInv(s: Sys, r: Id, t: Sys)
    requires Inv(s) && r in s.requests && NextAbandon(s, r, t)
    ensures Inv(t)
  {
    QuietMove(s, r, Gone, s.next, t);
  }

  lemma ReceiveKeepsInv(s: Sys, step: Step, t: Sys)
    requires Inv(s) && step.Receive? && Next(s, step, t)
    ensures Inv(t)
  {
    forall e | e in t.events ensures OriginOk(t, e) && RowsOk(t, e) { assert OriginOk(s, e) && RowsOk(s, e); }
    SameOriginsKeepDeliveries(s, t);
    forall q | q in t.requests ensures RequestOk(t, q) {
      if q != s.next {
        assert RequestOk(s, q);
        SameEventsSameTaken(s, t, s.requests[q]);
      }
    }
  }

  lemma EndpointKeepsInv(s: Sys, step: Step, t: Sys)
    requires Inv(s) && NextEndpoint(s, step, t)
    ensures Inv(t)
  {
    EndpointKeepsRows(s, step, t);
    EndpointKeepsRequests(s, step, t);
    forall e | e in t.events ensures OriginOk(t, e) { assert OriginOk(s, e); }
  }

  lemma EndpointKeepsRequests(s: Sys, step: Step, t: Sys)
    requires RequestsOk(s) && NextEndpoint(s, step, t)
    ensures RequestsOk(t)
  {
    forall q | q in t.requests ensures RequestOk(t, q) {
      assert RequestOk(s, q);
      SameEventsSameTaken(s, t, s.requests[q]);
    }
  }

  lemma EndpointKeepsRows(s: Sys, step: Step, t: Sys)
    requires Inv(s) && NextEndpoint(s, step, t)
    ensures (forall e | e in t.origins :: RowsOk(t, e)) && DeliveriesOk(t)
  {
    EndpointKeepsDeliveries(s, step, t);
    forall e | e in t.origins ensures RowsOk(t, e) {
      assert RowsOk(s, e);
      TasksKeepRows(s, step, t, e);
    }
  }

  lemma TasksKeepRows(s: Sys, step: Step, t: Sys, e: Id)
    requires e in s.origins && RowsOk(s, e) && NextEndpoint(s, step, t)
    ensures RowsOk(t, e)
  {}

  lemma EndpointKeepsDeliveries(s: Sys, step: Step, t: Sys)
    requires DeliveriesOk(s) && NextEndpoint(s, step, t)
    ensures DeliveriesOk(t)
  {
    forall d | d in t.deliveries ensures exists i :: IsTask(t, t.deliveries[d].0, i, d, t.deliveries[d].1) {
      var i :| IsTask(s, s.deliveries[d].0, i, d, s.deliveries[d].1);
      assert IsTask(t, t.deliveries[d].0, i, d, t.deliveries[d].1);
    }
  }

  // ---- The commit that makes an event ----

  predicate Numbered(tasks: seq<Task>, first: Id) {
    forall i | 0 <= i < |tasks| :: tasks[i].delivery == first + i
  }

  lemma {:induction false} RowsAreTasks(e: Id, tasks: seq<Task>, first: Id)
    requires Numbered(tasks, first)
    ensures forall d: Id :: d in Rows(e, tasks) <==> first <= d < first + |tasks|
    ensures forall i | 0 <= i < |tasks| ::
              && tasks[i].delivery in Rows(e, tasks)
              && Rows(e, tasks)[tasks[i].delivery] == (e, tasks[i].endpoint)
  {
    if tasks != [] {
      var rest := tasks[..|tasks| - 1];
      RowsAreTasks(e, rest, first);
      assert forall i | 0 <= i < |rest| :: tasks[i] == rest[i];
    }
  }

  ghost predicate Makes(s: Sys, r: Id, t: Sys) {
    r in s.requests && s.requests[r].pc.Commit? && !SomeGone(s, s.requests[r].pc.matching) && t == Committed(s, r)
  }

  lemma MadeOrigin(s: Sys, r: Id, t: Sys)
    requires Inv(s) && Makes(s, r, t)
    ensures var e := s.requests[r].pc.event; e in t.events && e in t.origins && OriginOk(t, e)
  {
    assert RequestOk(s, r);
    var tasks := Tasks(s.requests[r].pc.matching, s.next);
    assert tasks == tasks[|tasks| - |tasks|..] && tasks[..|tasks| - |tasks|] == [];
  }

  lemma OldOrigin(s: Sys, r: Id, t: Sys, f: Id)
    requires Inv(s) && Makes(s, r, t) && f in s.events && f != s.requests[r].pc.event
    ensures f in t.events && f in t.origins && OriginOk(t, f)
  {
    assert OriginOk(s, f) && s.origins[f].request != r;
  }

  lemma MadeKeyIsNew(s: Sys, r: Id, t: Sys, f: Id)
    requires Inv(s) && Makes(s, r, t) && f in s.events && s.events[f].key.Some?
    ensures s.events[f].tenant != s.requests[r].tenant || s.events[f].key != s.requests[r].key
  {
    var x := s.requests[r];
    assert RequestOk(s, r);
    if s.events[f].tenant == x.tenant && s.events[f].key == x.key { assert IsExisting(s, x.tenant, x.key, f); }
  }

  lemma NewKeyKeepsUnique(s: Sys, t: Sys, e: Id, v: Event)
    requires KeysUnique(s) && t.events == s.events[e := v]
    requires forall f | f in s.events && s.events[f].key.Some? ::
               s.events[f].tenant != v.tenant || s.events[f].key != v.key
    ensures KeysUnique(t)
  {}

  // One more event, with a key that no other has.
  lemma EventsExtend(s: Sys, t: Sys, e: Id, v: Event)
    requires EventsOk(s) && e < s.next <= t.next && t.log == s.log
    requires t.events == s.events[e := v] && t.origins.Keys == s.origins.Keys + {e}
    requires forall f | f in t.events :: OriginOk(t, f) && RowsOk(t, f)
    requires forall f | f in s.events && s.events[f].key.Some? ::
               s.events[f].tenant != v.tenant || s.events[f].key != v.key
    ensures EventsOk(t)
  {
    NewKeyKeepsUnique(s, t, e, v);
    assert t.events.Keys == s.events.Keys + {e};
  }

  // The commit adds exactly its own event.
  lemma MakesOne(s: Sys, r: Id, t: Sys)
    requires Inv(s) && Makes(s, r, t)
    ensures var x := s.requests[r];
            && x.pc.event < s.next <= t.next && t.log == s.log && x.pc.event !in s.events
            && t.events == s.events[x.pc.event := Event(x.tenant, x.eventType, x.key)]
            && t.origins.Keys == s.origins.Keys + {x.pc.event}
  {
    assert RequestOk(s, r);
  }

  lemma EachOrigin(s: Sys, r: Id, t: Sys, f: Id)
    requires Inv(s) && Makes(s, r, t) && (f in s.events || f == s.requests[r].pc.event)
    ensures f in t.events && f in t.origins && OriginOk(t, f) && RowsOk(t, f)
  {
    if f == s.requests[r].pc.event {
      MadeOrigin(s, r, t);
      MadeRows(s, r, t);
    } else {
      OldOrigin(s, r, t, f);
      OldRows(s, r, t, f);
    }
  }

  lemma MakingKeepsEvents(s: Sys, r: Id, t: Sys)
    requires Inv(s) && Makes(s, r, t)
    ensures EventsOk(t)
  {
    var x := s.requests[r];
    MakesOne(s, r, t);
    forall f | f in t.events ensures f in t.origins && OriginOk(t, f) && RowsOk(t, f) { EachOrigin(s, r, t, f); }
    forall f | f in s.events && s.events[f].key.Some?
      ensures s.events[f].tenant != x.tenant || s.events[f].key != x.key
    {
      MadeKeyIsNew(s, r, t, f);
    }
    EventsExtend(s, t, x.pc.event, Event(x.tenant, x.eventType, x.key));
  }

  lemma MadeRows(s: Sys, r: Id, t: Sys)
    requires Inv(s) && Makes(s, r, t)
    ensures s.requests[r].pc.event in t.origins && RowsOk(t, s.requests[r].pc.event)
  {
    assert RequestOk(s, r);
    var tasks := Tasks(s.requests[r].pc.matching, s.next);
    RowsAreTasks(s.requests[r].pc.event, tasks, s.next);
  }

  lemma OldRows(s: Sys, r: Id, t: Sys, f: Id)
    requires Inv(s) && Makes(s, r, t) && f in s.events && f != s.requests[r].pc.event
    ensures f in t.origins && RowsOk(t, f)
  {
    assert RowsOk(s, f);
    RowsAreTasks(s.requests[r].pc.event, Tasks(s.requests[r].pc.matching, s.next), s.next);
  }

  lemma MakingKeepsDeliveries(s: Sys, r: Id, t: Sys)
    requires Inv(s) && Makes(s, r, t)
    ensures DeliveriesOk(t)
  {
    assert RequestOk(s, r);
    var e, tasks := s.requests[r].pc.event, Tasks(s.requests[r].pc.matching, s.next);
    RowsAreTasks(e, tasks, s.next);
    forall d | d in t.deliveries
      ensures d < t.next && t.deliveries[d].0 in t.origins && t.deliveries[d].1 in t.endpoints
              && exists i :: IsTask(t, t.deliveries[d].0, i, d, t.deliveries[d].1)
    {
      if s.next <= d {
        assert tasks[d - s.next].delivery == d;
        assert tasks[d - s.next].endpoint == s.requests[r].pc.matching[d - s.next].endpoint;
        assert IsTask(t, e, d - s.next, d, t.deliveries[d].1);
      } else {
        var i :| IsTask(s, s.deliveries[d].0, i, d, s.deliveries[d].1);
        assert IsTask(t, t.deliveries[d].0, i, d, t.deliveries[d].1);
      }
    }
  }

  lemma MakingKeepsRequests(s: Sys, r: Id, t: Sys)
    requires Inv(s) && Makes(s, r, t)
    ensures RequestsOk(t)
  {
    assert RequestOk(s, r);
    forall q | q in t.requests ensures RequestOk(t, q) {
      if q != r {
        assert RequestOk(s, q);
        if Writing(s.requests[q]) { OthersKeepTheirKey(s, r, t, q); }
      }
    }
  }

  lemma OthersKeepTheirKey(s: Sys, r: Id, t: Sys, q: Id)
    requires Inv(s) && Makes(s, r, t) && q in s.requests && q != r && Writing(s.requests[q])
    ensures !Taken(t, s.requests[q])
  {
    assert RequestOk(s, q) && !SameKey(s.requests[r], s.requests[q]);
    forall e ensures !IsExisting(t, s.requests[q].tenant, s.requests[q].key, e) {
      assert !IsExisting(s, s.requests[q].tenant, s.requests[q].key, e);
    }
  }

  lemma CommitKeepsInv(s: Sys, r: Id, t: Sys)
    requires Inv(s) && r in s.requests && s.requests[r].pc.Commit? && NextCommit(s, r, t)
    ensures Inv(t)
  {
    if SomeGone(s, s.requests[r].pc.matching) {
      QuietMove(s, r, Failed, s.next, t);
    } else {
      MakingKeepsEvents(s, r, t);
      MakingKeepsDeliveries(s, r, t);
      MakingKeepsRequests(s, r, t);
    }
  }

  // ---- Enqueuing ----

  lemma PushIsWritten(log: seq<Op>, r: Id, e: Id, tasks: seq<Task>, todo: seq<Task>)
    requires Written(log, r, e, tasks, Enqueue(e, todo, false)) && todo != [] && todo[0].ordered
    ensures Written(log + [RpushOf(r, e, todo[0])], r, e, tasks, Enqueue(e, todo, true))
  {
    OpsOnAppend(log, RpushOf(r, e, todo[0]), e);
  }

  lemma AddIsWritten(log: seq<Op>, r: Id, e: Id, tasks: seq<Task>, todo: seq<Task>, pushed: bool)
    requires Written(log, r, e, tasks, Enqueue(e, todo, pushed)) && todo != [] && (todo[0].ordered ==> pushed)
    ensures Written(log + [XaddOf(r, e, todo[0])], r, e, tasks, Enqueue(e, todo[1..], false))
  {
    OpsOnAppend(log, XaddOf(r, e, todo[0]), e);
    var k := |tasks| - |todo|;
    assert todo[0] == tasks[k] && todo[1..] == tasks[k + 1..];
    ScriptOnAppend(r, e, tasks, k);
  }

  // Request r alone moves, and writes nothing but operations of its own event.
  lemma EnqueueWrites(s: Sys, r: Id, t: Sys)
    requires Inv(s) && r in s.requests && s.requests[r].pc.Enqueue? && NextEnqueue(s, r, t)
    ensures t == s.(requests := t.requests, log := t.log) && r in t.requests
    ensures t.requests == s.requests[r := s.requests[r].(pc := t.requests[r].pc)]
    ensures var e := s.requests[r].pc.event;
            && e in s.origins && s.origins[e].request == r
            && Written(t.log, r, e, s.origins[e].tasks, t.requests[r].pc)
            && forall f: Id | f != e :: OpsOf(t.log, f) == OpsOf(s.log, f)
  {
    var e, todo, pushed := s.requests[r].pc.event, s.requests[r].pc.todo, s.requests[r].pc.pushed;
    assert RequestOk(s, r) && OriginOk(s, e);
    OpWrites(s.log, r, e, s.origins[e].tasks, todo, pushed);
  }

  lemma OpWrites(log: seq<Op>, r: Id, e: Id, tasks: seq<Task>, todo: seq<Task>, pushed: bool)
    requires Written(log, r, e, tasks, Enqueue(e, todo, pushed))
    ensures todo == [] ==> Written(log, r, e, tasks, Accepted(e))
    ensures todo != [] && todo[0].ordered && !pushed ==>
              var after := log + [RpushOf(r, e, todo[0])];
              && Written(after, r, e, tasks, Enqueue(e, todo, true))
              && forall f: Id | f != e :: OpsOf(after, f) == OpsOf(log, f)
    ensures todo != [] && (todo[0].ordered ==> pushed) ==>
              var after := log + [XaddOf(r, e, todo[0])];
              && Written(after, r, e, tasks, Enqueue(e, todo[1..], false))
              && forall f: Id | f != e :: OpsOf(after, f) == OpsOf(log, f)
  {
    if todo == [] {
      assert tasks[..|tasks|] == tasks;
    } else if todo[0].ordered && !pushed {
      PushIsWritten(log, r, e, tasks, todo);
      OthersUnwritten(log, RpushOf(r, e, todo[0]));
    } else {
      AddIsWritten(log, r, e, tasks, todo, pushed);
      OthersUnwritten(log, XaddOf(r, e, todo[0]));
    }
  }

  lemma OthersUnwritten(log: seq<Op>, op: Op)
    ensures forall f: Id | f != op.event :: OpsOf(log + [op], f) == OpsOf(log, f)
  {
    forall f: Id | f != op.event ensures OpsOf(log + [op], f) == OpsOf(log, f) { OpsOnAppend(log, op, f); }
  }

  lemma EnqueueKeepsInv(s: Sys, r: Id, t: Sys)
    requires Inv(s) && r in s.requests && s.requests[r].pc.Enqueue? && NextEnqueue(s, r, t)
    ensures Inv(t)
  {
    EnqueueWrites(s, r, t);
    WritingKeepsInv(s, r, s.requests[r].pc.event, t.requests[r].pc, t);
  }

  lemma WritingKeepsInv(s: Sys, r: Id, e0: Id, pc: Pc, t: Sys)
    requires Inv(s) && r in s.requests && s.requests[r].pc.Enqueue?
    requires t == s.(requests := s.requests[r := s.requests[r].(pc := pc)], log := t.log)
    requires e0 in s.origins && s.origins[e0].request == r && Written(t.log, r, e0, s.origins[e0].tasks, pc)
    requires forall f: Id | f != e0 :: OpsOf(t.log, f) == OpsOf(s.log, f)
    ensures Inv(t)
  {
    WritingKeepsEvents(s, r, e0, pc, t);
    SameOriginsKeepDeliveries(s, t);
    WritingKeepsRequests(s, r, e0, pc, t);
  }

  lemma WritingKeepsRequests(s: Sys, r: Id, e0: Id, pc: Pc, t: Sys)
    requires EventsOk(s) && RequestsOk(s) && r in s.requests && s.requests[r].pc.Enqueue?
    requires t == s.(requests := s.requests[r := s.requests[r].(pc := pc)], log := t.log)
    requires e0 in s.origins && s.origins[e0].request == r && Written(t.log, r, e0, s.origins[e0].tasks, pc)
    ensures RequestsOk(t)
  {
    assert OriginOk(s, e0);
    forall q | q in t.requests ensures RequestOk(t, q) {
      if q != r {
        assert RequestOk(s, q);
        SameEventsSameTaken(s, t, s.requests[q]);
      }
    }
  }

  lemma WritingKeepsEvents(s: Sys, r: Id, e0: Id, pc: Pc, t: Sys)
    requires EventsOk(s) && r in s.requests
    requires t == s.(requests := s.requests[r := s.requests[r].(pc := pc)], log := t.log)
    requires e0 in s.origins && s.origins[e0].request == r && Written(t.log, r, e0, s.origins[e0].tasks, pc)
    requires forall f: Id | f != e0 :: OpsOf(t.log, f) == OpsOf(s.log, f)
    ensures EventsOk(t)
  {
    forall e | e in t.events ensures OriginOk(t, e) && RowsOk(t, e) {
      assert OriginOk(s, e) && RowsOk(s, e) && OriginOk(s, e0);
      if e != e0 { assert s.origins[e].request != r; }
    }
  }

  lemma StepKeepsInv(s: Sys, step: Step, t: Sys)
    requires Inv(s) && Next(s, step, t)
    ensures Inv(t)
  {
    match step {
      case AddEndpoint(_, _, _) | PatchEndpoint(_, _, _) | DeleteEndpoint(_) => EndpointKeepsInv(s, step, t);
      case Receive(_, _, _) => ReceiveKeepsInv(s, step, t);
      case Advance(r, matching) =>
        match s.requests[r].pc {
          case Check => CheckKeepsInv(s, r, t);
          case Flush => FlushKeepsInv(s, r, t);
          case FanOut(_) => FanOutKeepsInv(s, r, matching, t);
          case Commit(_, _) => CommitKeepsInv(s, r, t);
          case Enqueue(_, _, _) => EnqueueKeepsInv(s, r, t);
        }
      case Abandon(r) => AbandonKeepsInv(s, r, t);
    }
  }

  lemma {:induction false} RunKeepsInv(ss: seq<Sys>, steps: seq<Step>, n: nat)
    requires IsRun(ss, steps) && n <= |steps|
    ensures Inv(ss[n])
  {
    if n > 0 {
      RunKeepsInv(ss, steps, n - 1);
      assert Leads(ss, steps, n - 1);
      StepKeepsInv(ss[n - 1], steps[n - 1], ss[n]);
    }
  }

  // ---- The guarantees ----

  /** At most one event per tenant and idempotency key, however many requests carry it. */
  lemma OneEventPerKey(ss: seq<Sys>, steps: seq<Step>, n: nat, e: Id, f: Id)
    requires IsRun(ss, steps) && n <= |steps| && e in ss[n].events && f in ss[n].events
    requires ss[n].events[e].key.Some?
    requires ss[n].events[e].tenant == ss[n].events[f].tenant && ss[n].events[e].key == ss[n].events[f].key
    ensures e == f
  {
    RunKeepsInv(ss, steps, n);
  }

  // A request's identity, its answer and an event are there for good.
  predicate Lasts(s: Sys, t: Sys) {
    RequestsStay(s, t) && EventsStay(s, t)
  }

  predicate RequestsStay(s: Sys, t: Sys) {
    forall r | r in s.requests ::
      && r in t.requests && t.requests[r].tenant == s.requests[r].tenant && t.requests[r].key == s.requests[r].key
      && t.requests[r].eventType == s.requests[r].eventType
      && (Ended(s.requests[r].pc) ==> t.requests[r].pc == s.requests[r].pc)
  }

  predicate EventsStay(s: Sys, t: Sys) {
    forall e | e in s.events && e in s.origins ::
      e in t.events && t.events[e] == s.events[e] && e in t.origins && t.origins[e] == s.origins[e]
  }

  predicate Ended(pc: Pc) { pc.Accepted? || pc.Failed? || pc.Gone? }

  // What one operation of request r can change.
  ghost predicate Shape(s: Sys, r: Id, t: Sys) {
    && r in s.requests && r in t.requests && !Ended(s.requests[r].pc)
    && t.requests == s.requests[r := s.requests[r].(pc := t.requests[r].pc)] && t.endpoints == s.endpoints
    && (|| (t.events == s.events && t.origins == s.origins)
        || (&& s.requests[r].pc.Commit? && t.requests[r].pc.Enqueue?
            && var e := s.requests[r].pc.event;
               && t.events == s.events[e := Event(s.requests[r].tenant, s.requests[r].eventType, s.requests[r].key)]
               && t.origins == s.origins[e := Origin(r, Tasks(s.requests[r].pc.matching, s.next))]))
  }

  lemma AdvanceShape(s: Sys, r: Id, matching: seq<Match>, t: Sys)
    requires r in s.requests && NextAdvance(s, r, matching, t)
    ensures Shape(s, r, t)
  {
    match s.requests[r].pc {
      case Check => assert NextCheck(s, r, t);
      case Flush => assert NextFlush(s, r, t);
      case FanOut(_) => assert NextFanOut(s, r, matching, t);
      case Commit(_, _) => assert NextCommit(s, r, t);
      case Enqueue(_, _, _) => assert NextEnqueue(s, r, t);
    }
  }

  lemma ShapeKeepsEvents(s: Sys, r: Id, t: Sys)
    requires Shape(s, r, t) && RequestOk(s, r)
    ensures EventsStay(s, t)
  {}

  lemma ShapeLasts(s: Sys, r: Id, t: Sys)
    requires Inv(s) && Shape(s, r, t)
    ensures Lasts(s, t)
  {
    assert RequestOk(s, r);
    ShapeKeepsEvents(s, r, t);
  }

  lemma StepLasts(s: Sys, step: Step, t: Sys)
    requires Inv(s) && Next(s, step, t)
    ensures Lasts(s, t)
  {
    match step {
      case AddEndpoint(_, _, _) | PatchEndpoint(_, _, _) | DeleteEndpoint(_) => assert NextEndpoint(s, step, t);
      case Receive(_, _, _) =>
      case Advance(r, matching) =>
        AdvanceShape(s, r, matching, t);
        ShapeLasts(s, r, t);
      case Abandon(r) => ShapeLasts(s, r, t);
    }
  }

  lemma {:induction false} RunLasts(ss: seq<Sys>, steps: seq<Step>, n: nat, m: nat)
    requires IsRun(ss, steps) && n <= m <= |steps|
    ensures Lasts(ss[n], ss[m])
  {
    if n < m {
      RunLasts(ss, steps, n, m - 1);
      RunKeepsInv(ss, steps, m - 1);
      assert Leads(ss, steps, m - 1);
      StepLasts(ss[m - 1], steps[m - 1], ss[m]);
    }
    RunKeepsInv(ss, steps, n);
  }

  /** Idempotency: all accepted requests with one tenant and key are answered with one event id, whenever they are
      answered, and it is the id of an event with that tenant and key. */
  lemma SameKeySameAnswer(ss: seq<Sys>, steps: seq<Step>, n: nat, m: nat, r: Id, q: Id)
    requires IsRun(ss, steps) && n <= m <= |steps|
    requires r in ss[n].requests && ss[n].requests[r].pc.Accepted?
    requires q in ss[m].requests && ss[m].requests[q].pc.Accepted?
    requires ss[n].requests[r].key.Some?
    requires ss[n].requests[r].tenant == ss[m].requests[q].tenant && ss[n].requests[r].key == ss[m].requests[q].key
    ensures ss[n].requests[r].pc.event == ss[m].requests[q].pc.event
    ensures var e := ss[m].requests[q].pc.event;
            && e in ss[m].events && ss[m].events[e].tenant == ss[m].requests[q].tenant
            && ss[m].events[e].key == ss[m].requests[q].key
  {
    RunLasts(ss, steps, n, m);
    RunKeepsInv(ss, steps, m);
    assert RequestOk(ss[m], r) && RequestOk(ss[m], q);
  }

  /** Without a key nothing is deduplicated: the answer is the event the request itself made. */
  lemma KeylessIsNeverDeduplicated(ss: seq<Sys>, steps: seq<Step>, n: nat, r: Id)
    requires IsRun(ss, steps) && n <= |steps|
    requires r in ss[n].requests && ss[n].requests[r].pc.Accepted? && ss[n].requests[r].key.None?
    ensures var e := ss[n].requests[r].pc.event; e in ss[n].origins && ss[n].origins[e].request == r
  {
    RunKeepsInv(ss, steps, n);
    assert RequestOk(ss[n], r);
  }

  /** Only the request that made an event enqueues it: nothing is written for an event that is not committed, and what
      is written for one that is starts, and once its request is answered completes, the script of exactly its
      deliveries, each XADDed once and, on an ordered endpoint, RPUSHed once just before. */
  lemma OnlyTheMakerEnqueues(ss: seq<Sys>, steps: seq<Step>, n: nat, e: Id)
    requires IsRun(ss, steps) && n <= |steps|
    ensures e !in ss[n].events ==> OpsOf(ss[n].log, e) == []
    ensures e in ss[n].events ==>
              && e in ss[n].origins && ss[n].origins[e].request in ss[n].requests
              && var o := ss[n].origins[e];
                 && OpsOf(ss[n].log, e) <= Script(o.request, e, o.tasks)
                 && (ss[n].requests[o.request].pc.Accepted? ==> OpsOf(ss[n].log, e) == Script(o.request, e, o.tasks))
  {
    RunKeepsInv(ss, steps, n);
    if e in ss[n].events {
      var o := ss[n].origins[e];
      assert OriginOk(ss[n], e);
      WrittenIsScript(ss[n].log, o.request, e, o.tasks, ss[n].requests[o.request].pc);
    }
  }

  lemma WrittenIsScript(log: seq<Op>, r: Id, e: Id, tasks: seq<Task>, pc: Pc)
    requires Written(log, r, e, tasks, pc)
    ensures OpsOf(log, e) <= Script(r, e, tasks)
    ensures pc.Accepted? ==> OpsOf(log, e) == Script(r, e, tasks)
  {
    if pc.Enqueue? { EnqueuedIsPrefix(log, r, e, tasks, pc.todo, pc.pushed); }
  }

  lemma EnqueuedIsPrefix(log: seq<Op>, r: Id, e: Id, tasks: seq<Task>, todo: seq<Task>, pushed: bool)
    requires Written(log, r, e, tasks, Enqueue(e, todo, pushed))
    ensures OpsOf(log, e) <= Script(r, e, tasks)
  {
    var k := |tasks| - |todo|;
    if pushed {
      assert todo[0] == tasks[k];
      ScriptOnAppend(r, e, tasks, k);
      ScriptGrows(r, e, tasks, k + 1);
    } else {
      ScriptGrows(r, e, tasks, k);
    }
  }

  /** The deliveries of an event have distinct names and distinct endpoints, and rows as long as those endpoints exist;
      and no delivery row belongs to anything else. */
  lemma DeliveriesAreTheTasks(ss: seq<Sys>, steps: seq<Step>, n: nat, e: Id)
    requires IsRun(ss, steps) && n <= |steps| && e in ss[n].events
    ensures e in ss[n].origins
    ensures var tasks := ss[n].origins[e].tasks;
            && (forall i, j | 0 <= i < j < |tasks| ::
                  tasks[i].delivery != tasks[j].delivery && tasks[i].endpoint != tasks[j].endpoint)
            && (forall i | 0 <= i < |tasks| && tasks[i].endpoint in ss[n].endpoints ::
                  && tasks[i].delivery in ss[n].deliveries
                  && ss[n].deliveries[tasks[i].delivery] == (e, tasks[i].endpoint))
            && (forall d | d in ss[n].deliveries && ss[n].deliveries[d].0 == e ::
                  && ss[n].deliveries[d].1 in ss[n].endpoints
                  && exists i :: IsTask(ss[n], e, i, d, ss[n].deliveries[d].1))
  {
    RunKeepsInv(ss, steps, n);
    assert RowsOk(ss[n], e);
  }

  // At step m, request r selected the endpoints its deliveries are for.
  ghost predicate Selected(ss: seq<Sys>, steps: seq<Step>, m: nat, r: Id, matching: seq<Match>) {
    && m < |steps| && m < |ss| && steps[m] == Advance(r, matching) && r in ss[m].requests
    && ss[m].requests[r].pc.FanOut? && IsFanOut(ss[m], ss[m].requests[r], matching)
  }

  predicate AreFor(tasks: seq<Task>, matching: seq<Match>) {
    && |tasks| == |matching|
    && forall i | 0 <= i < |tasks| ::
         tasks[i].endpoint == matching[i].endpoint && tasks[i].ordered == matching[i].ordered
  }

  lemma {:induction false} CommitFollowsSelection(ss: seq<Sys>, steps: seq<Step>, n: nat, r: Id)
    requires IsRun(ss, steps) && n <= |steps| && r in ss[n].requests && ss[n].requests[r].pc.Commit?
    ensures exists m: nat :: m < n && Selected(ss, steps, m, r, ss[n].requests[r].pc.matching)
  {
    assert Leads(ss, steps, n - 1);
    var s, t := ss[n - 1], ss[n];
    if r in s.requests && s.requests[r].pc == t.requests[r].pc {
      CommitFollowsSelection(ss, steps, n - 1, r);
    } else {
      StepIntoCommit(s, steps[n - 1], t, r);
      assert Selected(ss, steps, n - 1, r, t.requests[r].pc.matching);
    }
  }

  lemma StepIntoCommit(s: Sys, step: Step, t: Sys, r: Id)
    requires Next(s, step, t) && r in t.requests && t.requests[r].pc.Commit?
    requires r !in s.requests || s.requests[r].pc != t.requests[r].pc
    ensures r in s.requests && s.requests[r].pc.FanOut? && step == Advance(r, t.requests[r].pc.matching)
    ensures IsFanOut(s, s.requests[r], t.requests[r].pc.matching)
  {
    if step.Advance? { AdvanceShape(s, step.request, step.matching, t); }
  }

  /** One delivery per endpoint that matched: the deliveries of an event are those of the endpoints its request found
      matching when it selected them, in that order. */
  lemma {:induction false} DeliveriesMatchTheSelection(ss: seq<Sys>, steps: seq<Step>, n: nat, e: Id)
    requires IsRun(ss, steps) && n <= |steps| && e in ss[n].origins
    ensures exists m: nat, matching :: m < n && Selected(ss, steps, m, ss[n].origins[e].request, matching)
                                       && AreFor(ss[n].origins[e].tasks, matching)
  {
    assert Leads(ss, steps, n - 1);
    var s, t := ss[n - 1], ss[n];
    if e in s.origins && s.origins[e] == t.origins[e] {
      DeliveriesMatchTheSelection(ss, steps, n - 1, e);
    } else {
      StepIntoOrigin(s, steps[n - 1], t, e);
      var r := t.origins[e].request;
      CommitFollowsSelection(ss, steps, n - 1, r);
      assert AreFor(t.origins[e].tasks, s.requests[r].pc.matching);
    }
  }

  lemma StepIntoOrigin(s: Sys, step: Step, t: Sys, e: Id)
    requires Next(s, step, t) && e in t.origins && (e !in s.origins || s.origins[e] != t.origins[e])
    ensures var r := t.origins[e].request;
            && r in s.requests && s.requests[r].pc.Commit? && step.Advance? && step.request == r
            && t.origins[e].tasks == Tasks(s.requests[r].pc.matching, s.next)
  {}

  // Subscribed, field by field: the tenant's own endpoint, active, and for all types of event or for this one.
  predicate IsSubscribed(v: Event, x: Endpoint) {
    x.tenant == v.tenant && x.active && (x.types == {} || v.eventType in x.types)
  }

  // Task i is for the endpoint, with the ordering it has.
  predicate IsFor(tasks: seq<Task>, i: int, ep: Id, x: Endpoint) {
    0 <= i < |tasks| && tasks[i].endpoint == ep && tasks[i].ordered == x.ordered
  }

  // At step m, the request r with these fields looked at the endpoints.
  ghost predicate Looks(ss: seq<Sys>, steps: seq<Step>, m: nat, r: Id, v: Event) {
    && m < |steps| && m < |ss| && steps[m].Advance? && steps[m].request == r && r in ss[m].requests
    && ss[m].requests[r].pc.FanOut? && v == Event(ss[m].requests[r].tenant, ss[m].requests[r].eventType,
                                                  ss[m].requests[r].key)
  }

  /** The fan-out, field by field: an event's deliveries are for exactly the endpoints that were its tenant's, active
      and subscribed to its type when its request looked, one for each. */
  lemma DeliveriesAreForTheSubscribed(ss: seq<Sys>, steps: seq<Step>, n: nat, e: Id) returns (m: nat)
    requires IsRun(ss, steps) && n <= |steps| && e in ss[n].events
    ensures e in ss[n].origins && m < n && Looks(ss, steps, m, ss[n].origins[e].request, ss[n].events[e])
    ensures var tasks := ss[n].origins[e].tasks;
            && (forall i | 0 <= i < |tasks| ::
                  && tasks[i].endpoint in ss[m].endpoints
                  && IsFor(tasks, i, tasks[i].endpoint, ss[m].endpoints[tasks[i].endpoint])
                  && IsSubscribed(ss[n].events[e], ss[m].endpoints[tasks[i].endpoint]))
            && (forall ep | ep in ss[m].endpoints && IsSubscribed(ss[n].events[e], ss[m].endpoints[ep]) ::
                  exists i :: IsFor(tasks, i, ep, ss[m].endpoints[ep]))
            && (forall i, j | 0 <= i < j < |tasks| :: tasks[i].endpoint != tasks[j].endpoint)
  {
    RunKeepsInv(ss, steps, n);
    assert RowsOk(ss[n], e) && OriginOk(ss[n], e);
    DeliveriesMatchTheSelection(ss, steps, n, e);
    var r, tasks := ss[n].origins[e].request, ss[n].origins[e].tasks;
    var k: nat, matching :| k < n && Selected(ss, steps, k, r, matching) && AreFor(tasks, matching);
    m := k;
    RunLasts(ss, steps, m, n);
    SelectionIsSubscribed(ss[m], ss[m].requests[r], ss[n].events[e], matching, tasks);
  }

  lemma SelectionIsSubscribed(s: Sys, x: Request, v: Event, matching: seq<Match>, tasks: seq<Task>)
    requires v == Event(x.tenant, x.eventType, x.key) && IsFanOut(s, x, matching) && AreFor(tasks, matching)
    ensures forall i | 0 <= i < |tasks| ::
              && tasks[i].endpoint in s.endpoints && IsFor(tasks, i, tasks[i].endpoint, s.endpoints[tasks[i].endpoint])
              && IsSubscribed(v, s.endpoints[tasks[i].endpoint])
    ensures forall ep | ep in s.endpoints && IsSubscribed(v, s.endpoints[ep]) ::
              exists i :: IsFor(tasks, i, ep, s.endpoints[ep])
  {
    forall i | 0 <= i < |tasks| ensures Matches(s, x, tasks[i].endpoint) {
      assert Matches(s, x, matching[i].endpoint);
    }
    forall ep | ep in s.endpoints && IsSubscribed(v, s.endpoints[ep])
      ensures exists i :: IsFor(tasks, i, ep, s.endpoints[ep])
    {
      assert Matches(s, x, ep);
      var i :| 0 <= i < |matching| && matching[i].endpoint == ep;
      assert IsFor(tasks, i, ep, s.endpoints[ep]);
    }
  }

  /** And the event says what its request was sent. */
  lemma {:induction false} RequestsSayWhatWasSent(ss: seq<Sys>, steps: seq<Step>, n: nat, r: Id) returns (j: nat)
    requires IsRun(ss, steps) && n <= |steps| && r in ss[n].requests
    ensures j < n && r == ss[j].next
    ensures var x := ss[n].requests[r]; steps[j] == Receive(x.tenant, x.eventType, x.key)
  {
    assert Leads(ss, steps, n - 1);
    if r in ss[n - 1].requests {
      RunLasts(ss, steps, n - 1, n);
      j := RequestsSayWhatWasSent(ss, steps, n - 1, r);
    } else {
      j := n - 1;
      if steps[j].Advance? { AdvanceShape(ss[j], steps[j].request, steps[j].matching, ss[n]); }
    }
  }

  // ---- What is written to Redis, operation by operation ----

  predicate IsXadd(op: Op, r: Id, e: Id, x: Task) {
    op == Xadd(r, e, x.endpoint, x.delivery)
  }

  predicate IsRpush(op: Op, r: Id, e: Id, x: Task) {
    op == Rpush(r, e, x.endpoint, x.delivery)
  }

  // Operation k of an event is the XADD of task x, just after its RPUSH if it is ordered; or that RPUSH.
  predicate InPlace(ops: seq<Op>, k: nat, r: Id, e: Id, x: Task)
    requires k < |ops|
  {
    || (IsXadd(ops[k], r, e, x) && (x.ordered ==> k > 0 && IsRpush(ops[k - 1], r, e, x)))
    || (IsRpush(ops[k], r, e, x) && x.ordered && (k + 1 < |ops| ==> IsXadd(ops[k + 1], r, e, x)))
  }

  lemma {:induction false} ScriptInPlace(r: Id, e: Id, tasks: seq<Task>, k: nat) returns (i: nat)
    requires k < |Script(r, e, tasks)|
    ensures i < |tasks| && InPlace(Script(r, e, tasks), k, r, e, tasks[i])
    ensures Script(r, e, tasks)[k].Rpush? ==> k + 1 < |Script(r, e, tasks)|
  {
    var n := |tasks| - 1;
    var front := Script(r, e, tasks[..n]);
    if k < |front| {
      i := ScriptInPlace(r, e, tasks[..n], k);
    } else {
      i := n;
    }
  }

  lemma {:induction false} ScriptHasEach(r: Id, e: Id, tasks: seq<Task>, i: nat) returns (k: nat)
    requires i < |tasks|
    ensures k < |Script(r, e, tasks)| && IsXadd(Script(r, e, tasks)[k], r, e, tasks[i])
  {
    var n := |tasks| - 1;
    if i < n {
      k := ScriptHasEach(r, e, tasks[..n], i);
    } else {
      k := |Script(r, e, tasks)| - 1;
    }
  }

  lemma {:induction false} ScriptHasNoneTwice(r: Id, e: Id, tasks: seq<Task>, k: nat, l: nat)
    requires forall i, j | 0 <= i < j < |tasks| :: tasks[i].delivery != tasks[j].delivery
    requires k < l < |Script(r, e, tasks)|
    ensures Script(r, e, tasks)[k] != Script(r, e, tasks)[l]
  {
    var n := |tasks| - 1;
    var front := Script(r, e, tasks[..n]);
    if l < |front| {
      ScriptHasNoneTwice(r, e, tasks[..n], k, l);
    } else if k < |front| {
      var i := ScriptInPlace(r, e, tasks[..n], k);
      assert tasks[i].delivery != tasks[n].delivery;
    }
  }

  ghost predicate HasItsTask(ops: seq<Op>, k: nat, r: Id, e: Id, tasks: seq<Task>)
    requires k < |ops|
  {
    exists i :: 0 <= i < |tasks| && InPlace(ops, k, r, e, tasks[i])
  }

  ghost predicate HasItsXadd(ops: seq<Op>, r: Id, e: Id, x: Task) {
    exists k :: 0 <= k < |ops| && IsXadd(ops[k], r, e, x)
  }

  // Each operation is in its place, and none comes twice.
  ghost predicate AllInPlace(ops: seq<Op>, r: Id, e: Id, tasks: seq<Task>) {
    && (forall k: nat | k < |ops| :: HasItsTask(ops, k, r, e, tasks))
    && (forall k, l | 0 <= k < l < |ops| :: ops[k] != ops[l])
  }

  /** Operation by operation: what has been written for an event is an XADD for one of its deliveries, just after that
      delivery's RPUSH if it is ordered, or that RPUSH; nothing is written twice; and once its request is answered, each
      of its deliveries has its XADD. */
  lemma OperationsAreInPlace(ss: seq<Sys>, steps: seq<Step>, n: nat, e: Id)
    requires IsRun(ss, steps) && n <= |steps| && e in ss[n].events
    ensures e in ss[n].origins && ss[n].origins[e].request in ss[n].requests
    ensures var o := ss[n].origins[e];
            && AllInPlace(OpsOf(ss[n].log, e), o.request, e, o.tasks)
            && (ss[n].requests[o.request].pc.Accepted? ==>
                  forall i | 0 <= i < |o.tasks| :: HasItsXadd(OpsOf(ss[n].log, e), o.request, e, o.tasks[i]))
  {
    DeliveriesAreTheTasks(ss, steps, n, e);
    OnlyTheMakerEnqueues(ss, steps, n, e);
    var o, ops := ss[n].origins[e], OpsOf(ss[n].log, e);
    PrefixIsInPlace(ops, o.request, e, o.tasks);
    if ss[n].requests[o.request].pc.Accepted? { ScriptIsComplete(ops, o.request, e, o.tasks); }
  }

  lemma ScriptIsComplete(ops: seq<Op>, r: Id, e: Id, tasks: seq<Task>)
    requires ops == Script(r, e, tasks)
    ensures forall i | 0 <= i < |tasks| :: HasItsXadd(ops, r, e, tasks[i])
  {
    forall i | 0 <= i < |tasks| ensures HasItsXadd(ops, r, e, tasks[i]) {
      var k := ScriptHasEach(r, e, tasks, i);
    }
  }

  lemma PrefixIsInPlace(ops: seq<Op>, r: Id, e: Id, tasks: seq<Task>)
    requires ops <= Script(r, e, tasks)
    requires forall i, j | 0 <= i < j < |tasks| :: tasks[i].delivery != tasks[j].delivery
    ensures AllInPlace(ops, r, e, tasks)
  {
    forall k: nat | k < |ops| ensures HasItsTask(ops, k, r, e, tasks) {
      var i := ScriptInPlace(r, e, tasks, k);
      assert InPlace(ops, k, r, e, tasks[i]);
    }
    forall k, l | 0 <= k < l < |ops| ensures ops[k] != ops[l] { ScriptHasNoneTwice(r, e, tasks, k, l); }
  }

  // ---- The 500s ----

  ghost predicate Advances(ss: seq<Sys>, steps: seq<Step>, m: nat, r: Id) {
    m < |steps| && m < |ss| && steps[m].Advance? && steps[m].request == r && r in ss[m].requests
  }

  // At step j, request r looked for its key and did not find it.
  ghost predicate FindsNoEvent(ss: seq<Sys>, steps: seq<Step>, j: nat, r: Id) {
    Advances(ss, steps, j, r) && ss[j].requests[r].pc.Check? && !Taken(ss[j], ss[j].requests[r])
  }

  // At step k, request q committed an event with the key of x.
  ghost predicate CommitsKey(ss: seq<Sys>, steps: seq<Step>, k: nat, q: Id, x: Request) {
    && Advances(ss, steps, k, q) && ss[k].requests[q].pc.Commit?
    && x.key.Some? && ss[k].requests[q].key == x.key && ss[k].requests[q].tenant == x.tenant
    && !SomeGone(ss[k], ss[k].requests[q].pc.matching)
  }

  ghost predicate Overtakes(ss: seq<Sys>, steps: seq<Step>, j: nat, k: nat, q: Id, m: nat, r: Id)
    requires m < |ss| && r in ss[m].requests
  {
    j < k < m && FindsNoEvent(ss, steps, j, r) && q != r && CommitsKey(ss, steps, k, q, ss[m].requests[r])
  }

  /** The INSERT of request r runs at step m, and since r looked for its key another request has committed it. */
  ghost predicate LosesRace(ss: seq<Sys>, steps: seq<Step>, m: nat, r: Id) {
    && Advances(ss, steps, m, r) && ss[m].requests[r].pc.Flush?
    && exists j: nat, k: nat, q :: Overtakes(ss, steps, j, k, q, m, r)
  }

  /** At step m, the commit of request r finds an endpoint of its selection deleted. */
  ghost predicate MeetsDeletion(ss: seq<Sys>, steps: seq<Step>, m: nat, r: Id) {
    Advances(ss, steps, m, r) && ss[m].requests[r].pc.Commit? && SomeGone(ss[m], ss[m].requests[r].pc.matching)
  }

  lemma StepIntoFlush(s: Sys, step: Step, t: Sys, r: Id)
    requires Next(s, step, t) && r in t.requests && t.requests[r].pc.Flush?
    ensures r in s.requests
    ensures if s.requests[r].pc.Flush? then s.requests[r] == t.requests[r]
            else step.Advance? && step.request == r && s.requests[r].pc.Check? && !Taken(s, s.requests[r])
                 && t.events == s.events
  {
    if step.Advance? { AdvanceShape(s, step.request, step.matching, t); }
  }

  lemma {:induction false} FlushFollowsCheck(ss: seq<Sys>, steps: seq<Step>, n: nat, r: Id) returns (j: nat)
    requires IsRun(ss, steps) && n <= |steps| && r in ss[n].requests && ss[n].requests[r].pc.Flush?
    ensures j < n && FindsNoEvent(ss, steps, j, r) && !Taken(ss[j + 1], ss[n].requests[r])
  {
    assert Leads(ss, steps, n - 1);
    StepIntoFlush(ss[n - 1], steps[n - 1], ss[n], r);
    j := n - 1;
    if ss[n - 1].requests[r].pc.Flush? {
      j := FlushFollowsCheck(ss, steps, n - 1, r);
    } else {
      SameEventsSameTaken(ss[n - 1], ss[n], ss[n].requests[r]);
    }
  }

  // Only a commit takes a key.
  lemma StepTakes(s: Sys, step: Step, t: Sys, x: Request)
    requires Next(s, step, t) && !Taken(s, x) && Taken(t, x)
    ensures step.Advance? && step.request in s.requests && s.requests[step.request].pc.Commit?
    ensures SameKey(s.requests[step.request], x) && !SomeGone(s, s.requests[step.request].pc.matching)
  {
    var e :| IsExisting(t, x.tenant, x.key, e);
    assert !IsExisting(s, x.tenant, x.key, e);
    if step.Advance? { AdvanceShape(s, step.request, step.matching, t); }
  }

  lemma {:induction false} TakenByOthers(ss: seq<Sys>, steps: seq<Step>, n: nat, r: Id)
    returns (j: nat, k: nat, q: Id)
    requires IsRun(ss, steps) && n <= |steps| && r in ss[n].requests && ss[n].requests[r].pc.Flush?
    requires Taken(ss[n], ss[n].requests[r])
    ensures Overtakes(ss, steps, j, k, q, n, r)
  {
    assert Leads(ss, steps, n - 1);
    var s, t := ss[n - 1], ss[n];
    StepIntoFlush(s, steps[n - 1], t, r);
    if !s.requests[r].pc.Flush? {
      SameEventsSameTaken(s, t, t.requests[r]);
      assert false;
    } else if Taken(s, s.requests[r]) {
      j, k, q := TakenByOthers(ss, steps, n - 1, r);
    } else {
      StepTakes(s, steps[n - 1], t, t.requests[r]);
      k, q := n - 1, steps[n - 1].request;
      j := FlushFollowsCheck(ss, steps, n - 1, r);
    }
  }

  lemma CommittedKeyIsTaken(ss: seq<Sys>, steps: seq<Step>, k: nat, q: Id, m: nat, x: Request)
    requires IsRun(ss, steps) && k < m <= |steps| && CommitsKey(ss, steps, k, q, x)
    ensures Taken(ss[m], x)
  {
    assert Leads(ss, steps, k);
    var e := ss[k].requests[q].pc.event;
    assert e in ss[k + 1].origins && IsExisting(ss[k + 1], x.tenant, x.key, e);
    RunLasts(ss, steps, k + 1, m);
    assert IsExisting(ss[m], x.tenant, x.key, e);
  }

  /** The INSERT finds the key taken exactly if another request committed it after the check. */
  lemma TakenExactlyWhenOvertaken(ss: seq<Sys>, steps: seq<Step>, m: nat, r: Id)
    requires IsRun(ss, steps) && m <= |steps| && r in ss[m].requests && ss[m].requests[r].pc.Flush?
    ensures Taken(ss[m], ss[m].requests[r]) <==> exists j: nat, k: nat, q :: Overtakes(ss, steps, j, k, q, m, r)
  {
    if Taken(ss[m], ss[m].requests[r]) {
      var j, k, q := TakenByOthers(ss, steps, m, r);
    } else if exists j: nat, k: nat, q :: Overtakes(ss, steps, j, k, q, m, r) {
      var j: nat, k: nat, q :| Overtakes(ss, steps, j, k, q, m, r);
      CommittedKeyIsTaken(ss, steps, k, q, m, ss[m].requests[r]);
    }
  }

  // A step makes r fail exactly if it is r's INSERT and the key is taken, or its commit and an endpoint is gone.
  lemma StepFails(s: Sys, step: Step, t: Sys, r: Id)
    requires Next(s, step, t) && r in t.requests && (r in s.requests ==> !s.requests[r].pc.Failed?)
    ensures t.requests[r].pc.Failed? <==>
              && step.Advance? && step.request == r && r in s.requests
              && (|| (s.requests[r].pc.Flush? && Taken(s, s.requests[r]))
                  || (s.requests[r].pc.Commit? && SomeGone(s, s.requests[r].pc.matching)))
  {
    if step.Advance? && step.request == r {
      OwnStepFails(s, r, step.matching, t);
    } else if step.Advance? {
      AdvanceShape(s, step.request, step.matching, t);
    }
  }

  lemma OwnStepFails(s: Sys, r: Id, matching: seq<Match>, t: Sys)
    requires r in s.requests && NextAdvance(s, r, matching, t) && r in t.requests
    ensures t.requests[r].pc.Failed? <==>
              || (s.requests[r].pc.Flush? && Taken(s, s.requests[r]))
              || (s.requests[r].pc.Commit? && SomeGone(s, s.requests[r].pc.matching))
  {
    match s.requests[r].pc {
      case Check => assert NextCheck(s, r, t);
      case Flush => assert NextFlush(s, r, t);
      case FanOut(_) => assert NextFanOut(s, r, matching, t);
      case Commit(_, _) => assert NextCommit(s, r, t);
      case Enqueue(_, _, _) => assert NextEnqueue(s, r, t);
    }
  }

  ghost predicate FailsAt(ss: seq<Sys>, steps: seq<Step>, m: nat, r: Id) {
    LosesRace(ss, steps, m, r) || MeetsDeletion(ss, steps, m, r)
  }

  lemma FailsExactlyAt(ss: seq<Sys>, steps: seq<Step>, m: nat, r: Id)
    requires IsRun(ss, steps) && m < |steps| && r in ss[m + 1].requests
    requires r in ss[m].requests ==> !ss[m].requests[r].pc.Failed?
    ensures ss[m + 1].requests[r].pc.Failed? <==> FailsAt(ss, steps, m, r)
  {
    assert Leads(ss, steps, m);
    StepFails(ss[m], steps[m], ss[m + 1], r);
    if r in ss[m].requests && ss[m].requests[r].pc.Flush? { TakenExactlyWhenOvertaken(ss, steps, m, r); }
  }

  /** When ingestion answers 500: a request has failed if and only if between its look for the key and its INSERT
      another request committed that key, or its commit met a deleted endpoint. */
  lemma {:induction false} FailsExactlyWhen(ss: seq<Sys>, steps: seq<Step>, n: nat, r: Id)
    requires IsRun(ss, steps) && n <= |steps| && r in ss[n].requests
    ensures ss[n].requests[r].pc.Failed? <==> exists m: nat :: m < n && FailsAt(ss, steps, m, r)
  {
    if n > 0 {
      assert Leads(ss, steps, n - 1);
      if r in ss[n - 1].requests {
        FailsExactlyWhen(ss, steps, n - 1, r);
        RunLasts(ss, steps, n - 1, n);
      } else {
        AbsentNeverFailed(ss, steps, n - 1, r);
      }
      if !(r in ss[n - 1].requests && ss[n - 1].requests[r].pc.Failed?) { FailsExactlyAt(ss, steps, n - 1, r); }
    }
  }

  // A request that is not there yet has done nothing.
  lemma AbsentNeverFailed(ss: seq<Sys>, steps: seq<Step>, n: nat, r: Id)
    requires IsRun(ss, steps) && n <= |steps| && r !in ss[n].requests
    ensures forall m: nat | m < n :: !FailsAt(ss, steps, m, r)
  {
    forall m: nat | m < n ensures r !in ss[m].requests { RunLasts(ss, steps, m, n); }
  }

  // ---- Who does not fail ----

  // What a request may have become that came after its key was committed.
  predicate FindsItsEvent(pc: Pc) { pc.Check? || pc.Accepted? || pc.Gone? }

  lemma LatecomerStep(s: Sys, step: Step, t: Sys, r: Id, e: Id)
    requires Next(s, step, t) && r in t.requests && IsExisting(s, t.requests[r].tenant, t.requests[r].key, e)
    requires r in s.requests ==> SameKey(s.requests[r], t.requests[r]) && FindsItsEvent(s.requests[r].pc)
    ensures FindsItsEvent(t.requests[r].pc)
  {
    if r in s.requests { assert Taken(s, s.requests[r]); }
    if step.Advance? && step.request != r { AdvanceShape(s, step.request, step.matching, t); }
  }

  lemma {:induction false} LatecomersInsertNothing(ss: seq<Sys>, steps: seq<Step>, n: nat, m: nat, e: Id, r: Id)
    requires IsRun(ss, steps) && n <= m <= |steps| && r in ss[m].requests && r !in ss[n].requests
    requires IsExisting(ss[n], ss[m].requests[r].tenant, ss[m].requests[r].key, e)
    ensures FindsItsEvent(ss[m].requests[r].pc)
  {
    assert Leads(ss, steps, m - 1);
    if r in ss[m - 1].requests {
      RunLasts(ss, steps, m - 1, m);
      LatecomersInsertNothing(ss, steps, n, m - 1, e, r);
    }
    EventLasts(ss, steps, n, m - 1, e);
    LatecomerStep(ss[m - 1], steps[m - 1], ss[m], r, e);
  }

  /** Once an event has a key, every request with that key that arrives later finds it: it inserts nothing, never fails,
      and is answered, if at all, with that event. */
  lemma LatecomersFindTheEvent(ss: seq<Sys>, steps: seq<Step>, n: nat, m: nat, e: Id, r: Id)
    requires IsRun(ss, steps) && n <= m <= |steps| && r in ss[m].requests && r !in ss[n].requests
    requires e in ss[n].events && ss[n].events[e].key.Some? && ss[n].events[e].key == ss[m].requests[r].key
    requires ss[n].events[e].tenant == ss[m].requests[r].tenant
    ensures FindsItsEvent(ss[m].requests[r].pc)
    ensures ss[m].requests[r].pc.Accepted? ==> ss[m].requests[r].pc.event == e
  {
    LatecomersInsertNothing(ss, steps, n, m, e, r);
    EventLasts(ss, steps, n, m, e);
    RunKeepsInv(ss, steps, m);
    AnswerIsTheEvent(ss[m], r, e);
  }

  lemma AnswerIsTheEvent(s: Sys, r: Id, e: Id)
    requires Inv(s) && r in s.requests && IsExisting(s, s.requests[r].tenant, s.requests[r].key, e)
    ensures s.requests[r].pc.Accepted? ==> s.requests[r].pc.event == e
  {
    assert RequestOk(s, r);
  }

  lemma EventLasts(ss: seq<Sys>, steps: seq<Step>, n: nat, m: nat, e: Id)
    requires IsRun(ss, steps) && n <= m <= |steps| && e in ss[n].events
    ensures e in ss[m].events && ss[m].events[e] == ss[n].events[e]
  {
    RunKeepsInv(ss, steps, n);
    RunLasts(ss, steps, n, m);
  }

  // The endpoints of `from` that match, in some order.
  lemma {:induction false} Listing(s: Sys, r: Request, from: set<Id>) returns (matching: seq<Match>)
    ensures forall i | 0 <= i < |matching| ::
              matching[i].endpoint in from && Matches(s, r, matching[i].endpoint)
              && matching[i].ordered == s.endpoints[matching[i].endpoint].ordered
    ensures forall i, j | 0 <= i < j < |matching| :: matching[i].endpoint != matching[j].endpoint
    ensures forall ep | ep in from && Matches(s, r, ep) ::
              exists i :: 0 <= i < |matching| && matching[i].endpoint == ep
    decreases |from|
  {
    matching := [];
    if from != {} {
      var ep :| ep in from;
      var rest := Listing(s, r, from - {ep});
      matching := rest;
      if Matches(s, r, ep) {
        matching := rest + [Match(ep, s.endpoints[ep].ordered)];
        assert matching[|rest|].endpoint == ep;
        assert forall i | 0 <= i < |rest| :: matching[i] == rest[i];
      }
    }
  }

  /** Waiting for a key ends: a request that is blocked waits for one other request only, and that one is past its own
      INSERT and can take its next step. */
  lemma BlockedWaitsForOneThatRuns(ss: seq<Sys>, steps: seq<Step>, n: nat, r: Id) returns (q: Id, step: Step, t: Sys)
    requires IsRun(ss, steps) && n <= |steps| && r in ss[n].requests && Blocked(ss[n], r)
    ensures BlockedBy(ss[n], r, q) && forall p | BlockedBy(ss[n], r, p) :: p == q
    ensures ss[n].requests[r].key.Some? && ss[n].requests[q].key == ss[n].requests[r].key
    ensures ss[n].requests[q].tenant == ss[n].requests[r].tenant
    ensures step.Advance? && step.request == q && Next(ss[n], step, t)
  {
    RunKeepsInv(ss, steps, n);
    var s := ss[n];
    q :| BlockedBy(s, r, q);
    if s.requests[q].pc.FanOut? {
      var matching := Listing(s, s.requests[q], s.endpoints.Keys);
      step, t := Advance(q, matching), Put(s, q, Commit(s.requests[q].pc.event, matching));
      assert NextFanOut(s, q, matching, t);
    } else {
      step := Advance(q, []);
      t := if SomeGone(s, s.requests[q].pc.matching) then Put(s, q, Failed) else Committed(s, q);
      assert NextCommit(s, q, t);
    }
  }

  // ---- Two requests that fail ----

  lemma Do(ss: seq<Sys>, steps: seq<Step>, step: Step, t: Sys) returns (ss': seq<Sys>, steps': seq<Step>)
    requires IsRun(ss, steps) && Next(ss[|steps|], step, t)
    ensures IsRun(ss', steps') && ss'[|steps'|] == t && steps' == steps + [step] && ss' == ss + [t]
  {
    ss', steps' := ss + [t], steps + [step];
    forall i: nat | i < |steps'| ensures Leads(ss', steps', i) {
      if i < |steps| { assert Leads(ss, steps, i); }
    }
  }

  // One endpoint, and a request that has selected it.
  lemma AboutToCommit(key: Option<string>) returns (ss: seq<Sys>, steps: seq<Step>)
    ensures IsRun(ss, steps)
    ensures ss[|steps|] == Sys(3, map[0 := Endpoint(0, true, {}, false)], map[], map[],
                               map[1 := Request(0, "a", key, Commit(2, [Match(0, false)]))], map[], [])
  {
    ss, steps := [INITIAL], [];
    var s1 := INITIAL.(next := 1, endpoints := map[0 := Endpoint(0, true, {}, false)]);
    ss, steps := Do(ss, steps, AddEndpoint(0, {}, false), s1);
    var s2 := s1.(next := 2, requests := map[1 := Request(0, "a", key, Check)]);
    ss, steps := Do(ss, steps, Receive(0, "a", key), s2);
    var s3 := s2.(requests := map[1 := Request(0, "a", key, Flush)]);
    ss, steps := Do(ss, steps, Advance(1, []), s3);
    var s4 := s3.(next := 3, requests := map[1 := Request(0, "a", key, FanOut(2))]);
    ss, steps := Do(ss, steps, Advance(1, []), s4);
    var matching := [Match(0, false)];
    assert matching[0].endpoint == 0 && IsFanOut(s4, s4.requests[1], matching);
    var s5 := s4.(requests := map[1 := Request(0, "a", key, Commit(2, matching))]);
    ss, steps := Do(ss, steps, Advance(1, matching), s5);
  }

  /** A request that is alone fails, with a key or without: an endpoint selected for its fan-out is deleted before the
      commit. */
  lemma LoneRequestFails(key: Option<string>) returns (ss: seq<Sys>, steps: seq<Step>, r: Id)
    ensures IsRun(ss, steps) && ss[|steps|].requests.Keys == {r}
    ensures ss[|steps|].requests[r] == Request(0, "a", key, Failed)
  {
    ss, steps := AboutToCommit(key);
    r := 1;
    var s := ss[|steps|];
    var s1 := s.(endpoints := map[]);
    ss, steps := Do(ss, steps, DeleteEndpoint(0), s1);
    assert s1.requests[1].pc.matching[0].endpoint !in s1.endpoints;
    ss, steps := Do(ss, steps, Advance(1, []), Put(s1, 1, Failed));
  }

  // Two requests with one key have looked for it and not found it.
  lemma BothHaveLooked(key: string) returns (ss: seq<Sys>, steps: seq<Step>)
    ensures IsRun(ss, steps)
    ensures ss[|steps|] == INITIAL.(next := 2, requests := map[0 := Request(0, "a", Some(key), Flush),
                                                              1 := Request(0, "a", Some(key), Flush)])
    ensures forall i | 0 <= i < |steps| :: !steps[i].DeleteEndpoint?
  {
    ss, steps := [INITIAL], [];
    var looking, found := Request(0, "a", Some(key), Check), Request(0, "a", Some(key), Flush);
    var s1 := INITIAL.(next := 1, requests := map[0 := looking]);
    ss, steps := Do(ss, steps, Receive(0, "a", Some(key)), s1);
    var s2 := s1.(next := 2, requests := map[0 := looking, 1 := looking]);
    ss, steps := Do(ss, steps, Receive(0, "a", Some(key)), s2);
    var s3 := s2.(requests := map[0 := found, 1 := looking]);
    ss, steps := Do(ss, steps, Advance(0, []), s3);
    ss, steps := Do(ss, steps, Advance(1, []), s3.(requests := map[0 := found, 1 := found]));
  }

  /** Of two requests with one key, and no endpoint ever deleted, one is accepted and the other fails. */
  lemma LoserFails(key: string) returns (ss: seq<Sys>, steps: seq<Step>, e: Id)
    ensures IsRun(ss, steps) && forall i | 0 <= i < |steps| :: !steps[i].DeleteEndpoint?
    ensures ss[|steps|].requests == map[0 := Request(0, "a", Some(key), Accepted(e)),
                                        1 := Request(0, "a", Some(key), Failed)]
  {
    ss, steps := BothHaveLooked(key);
    e := 2;
    var s4 := ss[|steps|];
    var loser := s4.requests[1];
    var s5 := s4.(next := 3, requests := map[0 := Request(0, "a", Some(key), FanOut(2)), 1 := loser]);
    ss, steps := Do(ss, steps, Advance(0, []), s5);
    var s6 := s5.(requests := map[0 := Request(0, "a", Some(key), Commit(2, [])), 1 := loser]);
    ss, steps := Do(ss, steps, Advance(0, []), s6);
    var s7 := Committed(s6, 0);
    ss, steps := Do(ss, steps, Advance(0, []), s7);
    var s8 := Put(s7, 0, Accepted(2));
    ss, steps := Do(ss, steps, Advance(0, []), s8);
    assert IsExisting(s8, 0, Some(key), 2);
    ss, steps := Do(ss, steps, Advance(1, []), Put(s8, 1, Failed));
  }
}
