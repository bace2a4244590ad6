/**
 A concrete run in which a row is left unsettled with nothing to bring it back: the reason AtLeastOnce speaks about
 what was settled in the current cycle and not about what the row says.
 */
module LostRow {
  import opened Protocol
  import opened AtLeastOnce

  const FINE := Choice(Allowed, Success, 1.0, 0.0)

  lemma Do(ss: seq<Sys>, steps: seq<Step>, step: Step, t: Sys) returns (ss': seq<Sys>, steps': seq<Step>)
    requires IsRun(ss, steps) && Next(ss[|steps|], step, t)
    ensures IsRun(ss', steps') && ss'[|steps'|] == t
  {
    ss', steps' := ss + [t], steps + [step];
    RunExtends(ss, steps, step, t);
  }

  // The handler is about to go through the open gates of an active, unordered endpoint for an unsettled row.
  predicate Ready(s: Sys, h: Id) {
    && h in s.handlers && !s.handlers[h].locked
    && s.handlers[h].delivery in s.rows
    && var ep := s.rows[s.handlers[h].delivery].endpoint;
       ep in s.endpoints && s.endpoints[ep] == Endpoint(Active, false)
  }

  // Reading the rows and passing the gates.
  lemma Approach(ss: seq<Sys>, steps: seq<Step>, h: Id) returns (ss': seq<Sys>, steps': seq<Step>)
    requires IsRun(ss, steps) && Ready(ss[|steps|], h)
    requires var s := ss[|steps|]; s.handlers[h].pc.Load? && !Settled(s.rows[s.handlers[h].delivery].status)
    ensures IsRun(ss', steps')
    ensures var s := ss[|steps|];
            var x := s.handlers[h];
            ss'[|steps'|] == Put(s, h, x.(pc := Begin, snap := s.rows[x.delivery], ordered := false))
  {
    var s := ss[|steps|];
    var x := s.handlers[h];
    var step := Advance(h, FINE);
    var y := x.(pc := LoadEndpoint, snap := s.rows[x.delivery]);
    ss', steps' := Do(ss, steps, step, Put(s, h, y));
    ss', steps' := Do(ss', steps', step, Put(Put(s, h, y), h, y.(pc := Gates, ordered := false)));
    var t := Put(s, h, y.(pc := Begin, ordered := false));
    assert t.handlers == ss'[|steps'|].handlers[h := t.handlers[h]];
    ss', steps' := Do(ss', steps', step, t);
  }

  // The first commit, and the request goes out.
  lemma Send(ss: seq<Sys>, steps: seq<Step>, h: Id) returns (ss': seq<Sys>, steps': seq<Step>)
    requires IsRun(ss, steps)
    requires var s := ss[|steps|];
             && h in s.handlers && s.handlers[h].pc.Begin? && s.handlers[h].snap.status.Pending?
             && s.handlers[h].delivery in s.rows
    ensures IsRun(ss', steps')
    ensures var s, t := ss[|steps|], ss'[|steps'|];
            var x := s.handlers[h];
            && t == Put(s, h, x.(pc := Wait, snap := x.snap.(status := Delivering, attempts := x.snap.attempts + 1))).(
                      rows := t.rows, hist := t.hist)
            && t.rows.Keys == s.rows.Keys
            && t.hist.enqueued == s.hist.enqueued && t.hist.dropped == s.hist.dropped
  {
    var s := ss[|steps|];
    var x := s.handlers[h];
    var d := x.delivery;
    var number := x.snap.attempts + 1;
    var y := x.(pc := Post, snap := x.snap.(status := Delivering, attempts := number));
    var begun := s.(rows := s.rows[d := s.rows[d].(status := Delivering, attempts := number)],
                    hist := Overwriting(s.hist, d, s.rows[d], Delivering));
    ss', steps' := Do(ss, steps, Advance(h, FINE), Put(begun, h, y));
    var ep := x.snap.endpoint;
    var t := Put(begun, h, y.(pc := Wait)).(
               hist := begun.hist.(sent := begun.hist.sent[ep := List(begun.hist.sent, ep) + [d]]));
    assert t.handlers == ss'[|steps'|].handlers[h := y.(pc := Wait)];
    ss', steps' := Do(ss', steps', Advance(h, FINE), t);
  }

  // A success comes back and is committed.
  lemma Succeed(ss: seq<Sys>, steps: seq<Step>, h: Id) returns (ss': seq<Sys>, steps': seq<Step>)
    requires IsRun(ss, steps)
    requires var s := ss[|steps|];
             h in s.handlers && s.handlers[h].pc.Wait? && s.handlers[h].delivery in s.rows
    ensures IsRun(ss', steps')
    ensures var s, t := ss[|steps|], ss'[|steps'|];
            var x := s.handlers[h];
            && h in t.handlers
            && t == Put(s, h, x.(pc := Refresh, snap := t.handlers[h].snap, response := Success, delay := 0.0)).(
                      rows := t.rows, hist := t.hist)
            && t.rows.Keys == s.rows.Keys && t.rows[x.delivery].status.Delivered?
            && t.hist.enqueued == s.hist.enqueued && t.hist.dropped == s.hist.dropped
  {
    var s := ss[|steps|];
    var d := s.handlers[h].delivery;
    var y := s.handlers[h].(pc := Conclude, response := Success);
    ss', steps' := Do(ss, steps, Advance(h, FINE), Put(s, h, y));
    var z := y.(snap := y.snap.(status := Delivered), delay := 0.0, pc := Refresh);
    var t := Put(s, h, z).(rows := s.rows[d := s.rows[d].(status := Delivered)],
                           hist := Concluding(s.hist, d, y.snap.attempts, s.rows[d], Delivered));
    assert t.handlers == ss'[|steps'|].handlers[h := z];
    ss', steps' := Do(ss', steps', Advance(h, FINE), t);
  }

  // Cleaning up after a success on an unordered endpoint, and the acknowledgement.
  lemma Acknowledge(ss: seq<Sys>, steps: seq<Step>, h: Id) returns (ss': seq<Sys>, steps': seq<Step>)
    requires IsRun(ss, steps)
    requires var s := ss[|steps|];
             && h in s.handlers && s.handlers[h].pc.Refresh? && !s.handlers[h].ordered && !s.handlers[h].locked
             && s.handlers[h].delivery in s.rows
    ensures IsRun(ss', steps')
    ensures var s := ss[|steps|];
            ss'[|steps'|] == s.(handlers := s.handlers - {h}, pel := s.pel - {s.handlers[h].msg})
  {
    var s := ss[|steps|];
    var x := s.handlers[h];
    var step := Advance(h, FINE);
    var y := x.(pc := Pop, snap := s.rows[x.delivery]);
    ss', steps' := Do(ss, steps, step, Put(s, h, y));
    y := y.(pc := Unlock);
    assert Put(s, h, y).handlers == ss'[|steps'|].handlers[h := y];
    ss', steps' := Do(ss', steps', step, Put(s, h, y));
    y := y.(pc := Ack);
    assert Put(s, h, y).handlers == ss'[|steps'|].handlers[h := y];
    ss', steps' := Do(ss', steps', step, Put(s, h, y));
    var t := s.(handlers := s.handlers - {h}, pel := s.pel - {x.msg});
    assert t.handlers == ss'[|steps'|].handlers - {h};
    ss', steps' := Do(ss', steps', step, t);
  }

  // One delivery is ingested, and its entry claimed by handler 3.
  lemma Ingested() returns (ss: seq<Sys>, steps: seq<Step>)
    ensures IsRun(ss, steps)
    ensures var s := ss[|steps|];
            && s.endpoints == map[0 := Endpoint(Active, false)] && s.rows == map[1 := Row(0, Pending, 0)]
            && s.unread == map[] && s.pel == map[2 := 1] && s.retries == map[] && s.replays == map[] && s.next == 4
            && s.handlers == map[3 := Handler(2, 1, Load, Row(0, Pending, 0), false, false, Success, 0.0)]
            && s.hist == NoHistory.(enqueued := {1})
  {
    var s0 := Initial(7);
    ss, steps := [s0], [];
    var s1 := s0.(endpoints := map[0 := Endpoint(Active, false)], next := 1);
    ss, steps := Do(ss, steps, AddEndpoint(false), s1);
    var s2 := s1.(rows := map[1 := Row(0, Pending, 0)], ingests := map[1 := Ingest(0, false, false)], next := 2);
    ss, steps := Do(ss, steps, IngestCommit(0), s2);
    var s3 := s2.(ingests := s2.ingests - {1}, unread := s2.unread[2 := 1], next := 3,
                  hist := NoHistory.(enqueued := {} + {1}));
    ss, steps := Do(ss, steps, IngestAdd(1), s3);
    var s4 := s3.(unread := s3.unread - {2}, pel := s3.pel[2 := 1], handlers := s3.handlers[3 := NewHandler(2, 1)],
                  next := 4);
    ss, steps := Do(ss, steps, Claim(2), s4);
  }

  // Handler 3 stalls after passing the gates; handler 4 reclaims its message and passes them too.
  lemma Reclaimed() returns (ss: seq<Sys>, steps: seq<Step>)
    ensures IsRun(ss, steps)
    ensures var s := ss[|steps|];
            var x := Handler(2, 1, Begin, Row(0, Pending, 0), false, false, Success, 0.0);
            && s.handlers == map[3 := x, 4 := x] && s.rows == map[1 := Row(0, Pending, 0)]
            && s.unread == map[] && s.pel == map[2 := 1] && s.retries == map[] && s.replays == map[]
            && s.hist == NoHistory.(enqueued := {1})
  {
    ss, steps := Ingested();
    ss, steps := Approach(ss, steps, 3);
    var s := ss[|steps|];
    s := s.(handlers := s.handlers[4 := NewHandler(2, 1)], next := 5);
    ss, steps := Do(ss, steps, Reclaim(2), s);
    ss, steps := Approach(ss, steps, 4);
  }

  // Handler 4 sees the delivery through.
  lemma DeliveredBehindItsBack() returns (ss: seq<Sys>, steps: seq<Step>)
    ensures IsRun(ss, steps)
    ensures var s := ss[|steps|];
            && s.handlers == map[3 := Handler(2, 1, Begin, Row(0, Pending, 0), false, false, Success, 0.0)]
            && s.unread == map[] && s.pel == map[] && s.retries == map[] && s.replays == map[]
            && 1 in s.rows && s.rows[1].status.Delivered?
            && s.hist.enqueued == {1} && s.hist.dropped == {}
  {
    ss, steps := Reclaimed();
    ss, steps := Send(ss, steps, 4);
    ss, steps := Succeed(ss, steps, 4);
    ss, steps := Acknowledge(ss, steps, 4);
  }

  // Handler 3 wakes up and commits what its snapshot says.
  lemma StaleCommit() returns (ss: seq<Sys>, steps: seq<Step>)
    ensures IsRun(ss, steps)
    ensures var s := ss[|steps|];
            && s.handlers == map[3 := Handler(2, 1, Post, Row(0, Delivering, 1), false, false, Success, 0.0)]
            && s.unread == map[] && s.pel == map[] && s.retries == map[] && s.replays == map[]
            && 1 in s.rows && s.rows[1].status.Delivering?
            && s.hist.enqueued == {1} && s.hist.dropped == {} && 1 in s.hist.overwritten
  {
    ss, steps := DeliveredBehindItsBack();
    var s := ss[|steps|];
    var y := s.handlers[3].(pc := Post, snap := Row(0, Delivering, 1));
    var t := s.(handlers := s.handlers[3 := y], rows := s.rows[1 := s.rows[1].(status := Delivering, attempts := 1)],
                hist := Overwriting(s.hist, 1, s.rows[1], Delivering));
    ss, steps := Do(ss, steps, Advance(3, FINE), t);
  }

  lemma NowhereLeft(s: Sys, d: Id)
    requires s.unread == map[] && s.pel == map[] && s.retries == map[] && s.replays == map[]
    ensures !HasCopy(s, d)
  {}

  /** A handler stalls between reading the row and its first commit; its message is reclaimed, delivered and
      acknowledged by another handler; the stalled handler then commits 'delivering' over the settled row and crashes.
      The row stays unsettled and no copy of the delivery is left anywhere. */
  lemma StalledHandlerStrandsARow() returns (ss: seq<Sys>, steps: seq<Step>, d: Id)
    ensures IsRun(ss, steps)
    ensures var s := ss[|steps|];
            && d in s.rows && s.rows[d].status.Delivering?
            && d in s.hist.enqueued && d !in s.hist.dropped && d in s.hist.overwritten
            && !HasCopy(s, d)
  {
    ss, steps := StaleCommit();
    d := 1;
    var s := ss[|steps|];
    var t := s.(handlers := s.handlers - {3}, hist := Losing(s.hist, s.handlers[3]));
    ss, steps := Do(ss, steps, Crash(3), t);
    NowhereLeft(t, d);
  }
}
