/**
 What everybody else does while one process waits: any run of the protocol that leaves the process's own handlers
 alone.
 */
module Environment {
  import opened Protocol
  import opened AtLeastOnce

  /** A step somebody else takes, and the state it leads to. */
  datatype Foreign = Foreign(step: Step, state: Sys)

  // A step of one of the handlers in `mine`.
  predicate IsOwn(step: Step, mine: set<Id>) {
    match step
    case Advance(h, _) => h in mine
    case Raise(h) => h in mine
    case Crash(h) => h in mine
    case _ => false
  }

  ghost predicate OthersRun(s: Sys, mine: set<Id>, path: seq<Foreign>)
    decreases |path|
  {
    path == [] || (&& Next(s, path[0].step, path[0].state) && !IsOwn(path[0].step, mine)
                   && OthersRun(path[0].state, mine, path[1..]))
  }

  function Last(s: Sys, path: seq<Foreign>): Sys {
    if path == [] then s else path[|path| - 1].state
  }

  ghost function States(path: seq<Foreign>): seq<Sys> {
    seq(|path|, i requires 0 <= i < |path| => path[i].state)
  }

  ghost function Steps(path: seq<Foreign>): seq<Step> {
    seq(|path|, i requires 0 <= i < |path| => path[i].step)
  }

  // The handlers in `mine` are where they were.
  ghost predicate Stay(s: Sys, mine: set<Id>, t: Sys) {
    forall h | h in mine && h in s.handlers :: h in t.handlers && t.handlers[h] == s.handlers[h]
  }

  lemma OthersLeaveMine(s: Sys, mine: set<Id>, step: Step, t: Sys)
    requires Numbered(s) && Next(s, step, t) && !IsOwn(step, mine)
    ensures Stay(s, mine, t)
  {
    if step.Advance? {
      AdvanceFrame(s, step.handler, step.choice, t);
    } else if step.ReplayStep? {
      ReplayLeavesHandlers(s, step.replay, t);
    } else if step.Raise? || step.Crash? {
      LossLeavesOthers(s, mine, step, t);
    } else {
      OthersLeaveHandlers(s, mine, step, t);
    }
  }

  lemma LossLeavesOthers(s: Sys, mine: set<Id>, step: Step, t: Sys)
    requires Next(s, step, t) && !IsOwn(step, mine) && (step.Raise? || step.Crash?)
    ensures Stay(s, mine, t)
  {}

  lemma OthersLeaveHandlers(s: Sys, mine: set<Id>, step: Step, t: Sys)
    requires Numbered(s) && Next(s, step, t) && !step.Advance? && !step.ReplayStep? && !step.Raise? && !step.Crash?
    ensures Stay(s, mine, t)
  {
    match step {
      case Claim(m) => assert NextClaim(s, m, t);
      case Reclaim(m) => assert NextReclaim(s, m, t);
      case _ => SourcesLeaveHandlers(s, step, t);
    }
  }

  lemma SourcesLeaveHandlers(s: Sys, step: Step, t: Sys)
    requires Next(s, step, t) && !step.Advance? && !step.ReplayStep? && !step.Raise? && !step.Crash?
    requires !step.Claim? && !step.Reclaim?
    ensures t.handlers == s.handlers
  {
    match step {
      case AddEndpoint(_) | SetEndpoint(_, _) | DeleteEndpoint(_) => assert NextEndpoint(s, step, t);
      case IngestCommit(ep) => assert NextIngestCommit(s, ep, t);
      case IngestPush(d) => assert NextIngestPush(s, d, t);
      case IngestAdd(d) => assert NextIngestAdd(s, d, t);
      case ReplaySelect(d) => assert NextReplaySelect(s, d, t);
      case MoveDue(d, now) => assert NextMoveDue(s, d, now, t);
      case Expire(ep) =>
    }
  }

  lemma ReplayLeavesHandlers(s: Sys, r: Id, t: Sys)
    requires r in s.replays && NextReplay(s, r, t)
    ensures t.handlers == s.handlers
  {
    match s.replays[r].pc {
      case Selected => ResetLeavesHandlers(s, r, t);
      case Committed => assert NextRemove(s, r, t);
      case Removed => RequeueLeavesHandlers(s, r, t);
      case Pushed => assert NextReadd(s, r, t);
    }
  }

  lemma ResetLeavesHandlers(s: Sys, r: Id, t: Sys)
    requires r in s.replays && NextReset(s, r, t)
    ensures t.handlers == s.handlers
  {}

  lemma RequeueLeavesHandlers(s: Sys, r: Id, t: Sys)
    requires r in s.replays && NextRequeue(s, r, t)
    ensures t.handlers == s.handlers
  {}

  /** What handler h has executed in the first n steps of a run: where it was each time it advanced. */
  ghost function Trail(ss: seq<Sys>, steps: seq<Step>, h: Id, n: nat): seq<Pc>
    requires n <= |steps| && n <= |ss|
  {
    if n == 0 then []
    else if steps[n - 1].Advance? && steps[n - 1].handler == h && h in ss[n - 1].handlers then
      Trail(ss, steps, h, n - 1) + [ss[n - 1].handlers[h].pc]
    else
      Trail(ss, steps, h, n - 1)
  }

  lemma {:induction false} TrailOfPrefix(ss: seq<Sys>, steps: seq<Step>, t: Sys, step: Step, h: Id, n: nat)
    requires n <= |steps| && n <= |ss|
    ensures Trail(ss + [t], steps + [step], h, n) == Trail(ss, steps, h, n)
  {
    if n > 0 { TrailOfPrefix(ss, steps, t, step, h, n - 1); }
  }

  lemma TrailOfOthers(ss: seq<Sys>, steps: seq<Step>, t: Sys, step: Step, h: Id)
    requires |ss| == |steps| + 1 && !(step.Advance? && step.handler == h)
    ensures Trail(ss + [t], steps + [step], h, |steps| + 1) == Trail(ss, steps, h, |steps|)
  {
    TrailOfPrefix(ss, steps, t, step, h, |steps|);
  }

  lemma TrailOfOwn(ss: seq<Sys>, steps: seq<Step>, t: Sys, h: Id, c: Choice)
    requires |ss| == |steps| + 1 && h in ss[|steps|].handlers
    ensures Trail(ss + [t], steps + [Advance(h, c)], h, |steps| + 1)
            == Trail(ss, steps, h, |steps|) + [ss[|steps|].handlers[h].pc]
  {
    TrailOfPrefix(ss, steps, t, Advance(h, c), h, |steps|);
  }

  lemma {:induction false} PathExtends(ss: seq<Sys>, steps: seq<Step>, mine: set<Id>, path: seq<Foreign>)
    requires IsRun(ss, steps) && OthersRun(ss[|steps|], mine, path)
    ensures IsRun(ss + States(path), steps + Steps(path))
    ensures (ss + States(path))[|steps| + |path|] == Last(ss[|steps|], path)
    ensures Stay(ss[|steps|], mine, Last(ss[|steps|], path))
    decreases |path|
  {
    if path == [] {
      assert ss + States(path) == ss && steps + Steps(path) == steps;
    } else {
      FirstExtends(ss, steps, mine, path);
      var t := path[0].state;
      PathExtends(ss + [t], steps + [path[0].step], mine, path[1..]);
      PathUnfolds(ss, steps, path);
    }
  }

  lemma PathUnfolds(ss: seq<Sys>, steps: seq<Step>, path: seq<Foreign>)
    requires path != []
    ensures ss + States(path) == (ss + [path[0].state]) + States(path[1..])
    ensures steps + Steps(path) == (steps + [path[0].step]) + Steps(path[1..])
  {}

  // No step of the path is one that handler h takes.
  predicate NotBy(path: seq<Foreign>, h: Id) {
    forall i | 0 <= i < |path| :: !(path[i].step.Advance? && path[i].step.handler == h)
  }

  lemma {:induction false} OthersAreNotBy(s: Sys, mine: set<Id>, path: seq<Foreign>, h: Id)
    requires OthersRun(s, mine, path) && h in mine
    ensures NotBy(path, h)
    decreases |path|
  {
    if path != [] {
      OthersAreNotBy(path[0].state, mine, path[1..], h);
      assert forall i | 1 <= i < |path| :: path[i] == path[1..][i - 1];
    }
  }

  /** While others run, a handler executes nothing. */
  lemma {:induction false} PathKeepsTrail(ss: seq<Sys>, steps: seq<Step>, path: seq<Foreign>, h: Id)
    requires |ss| == |steps| + 1 && NotBy(path, h)
    ensures Trail(ss + States(path), steps + Steps(path), h, |steps| + |path|) == Trail(ss, steps, h, |steps|)
    decreases |path|
  {
    if path == [] {
      assert ss + States(path) == ss && steps + Steps(path) == steps;
    } else {
      TrailOfOthers(ss, steps, path[0].state, path[0].step, h);
      PathKeepsTrail(ss + [path[0].state], steps + [path[0].step], path[1..], h);
      PathUnfolds(ss, steps, path);
    }
  }

  lemma FirstExtends(ss: seq<Sys>, steps: seq<Step>, mine: set<Id>, path: seq<Foreign>)
    requires IsRun(ss, steps) && path != [] && OthersRun(ss[|steps|], mine, path)
    ensures IsRun(ss + [path[0].state], steps + [path[0].step]) && OthersRun(path[0].state, mine, path[1..])
    ensures Stay(ss[|steps|], mine, path[0].state)
  {
    RunKeepsInv(ss, steps, |steps|);
    OthersLeaveMine(ss[|steps|], mine, path[0].step, path[0].state);
    RunExtends(ss, steps, path[0].step, path[0].state);
  }

  lemma PathKeepsTrails(ss: seq<Sys>, steps: seq<Step>, mine: set<Id>, path: seq<Foreign>)
    requires |ss| == |steps| + 1 && OthersRun(ss[|steps|], mine, path)
    ensures forall h | h in mine ::
              Trail(ss + States(path), steps + Steps(path), h, |steps| + |path|) == Trail(ss, steps, h, |steps|)
  {
    forall h | h in mine
      ensures Trail(ss + States(path), steps + Steps(path), h, |steps| + |path|) == Trail(ss, steps, h, |steps|)
    {
      OthersAreNotBy(ss[|steps|], mine, path, h);
      PathKeepsTrail(ss, steps, path, h);
    }
  }
}
