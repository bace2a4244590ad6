/**
 The early diagnosis trigger: which answers of the script ask for it, and what becomes of it on the channel, where its
 PUBLISH may come at any time after the answer, or never.
 */
module BreakerTriggers {
  import opened Breaker
  import opened BreakerRuns

  // ---- The script's answers ----

  ghost predicate SameStreak(h: seq<Event>, start: nat, end: nat) {
    forall i: nat | start <= i < end :: !EndsStreak(h, i)
  }

  lemma {:induction false} StreaksOnlyGrow(h: seq<Event>, ks: seq<Keys>, start: nat, end: nat)
    requires IsRun(h, ks) && start <= end <= |h| && SameStreak(h, start, end)
    ensures ks[end].consecutive >= ks[start].consecutive
    decreases end
  {
    if start < end {
      StreaksOnlyGrow(h, ks, start, end - 1);
      assert Leads(h, ks, end - 1) && !EndsStreak(h, end - 1);
    }
  }

  /** The answer asks for the trigger exactly at the fifth failure of a streak, while the breaker is closed. */
  lemma AsksExactlyAtTheFifth(h: seq<Event>, ks: seq<Keys>, n: nat)
    requires IsRun(h, ks) && n < |h|
    ensures Asks(h, ks, n) <==> IsFailure(h, n) && Streak(h, n + 1) == 5 && ks[n + 1].state.Closed?
  {
    CounterIsStreak(h, ks, n + 1);
  }

  /** At most one answer of a streak of failures asks for the trigger. */
  lemma OneAnswerPerStreak(h: seq<Event>, ks: seq<Keys>, i: nat, j: nat)
    requires IsRun(h, ks) && i < j && Asks(h, ks, i) && Asks(h, ks, j)
    ensures !SameStreak(h, i + 1, j)
  {
    if SameStreak(h, i + 1, j) {
      assert Leads(h, ks, j);
      StreaksOnlyGrow(h, ks, i + 1, j);
    }
  }

  // A closed breaker five or more failures into a streak has asked in that streak.
  lemma {:induction false} ClosedPastFiveHasAsked(h: seq<Event>, ks: seq<Keys>, n: nat) returns (t: nat)
    requires IsRun(h, ks) && n <= |h| && ks[n].state.Closed? && ks[n].consecutive >= CONSECUTIVE_FAILURE_TRIGGER
    ensures t < n && Asks(h, ks, t) && SameStreak(h, t + 1, n)
  {
    assert n > 0 && Leads(h, ks, n - 1);
    if Asks(h, ks, n - 1) {
      t := n - 1;
    } else {
      t := ClosedPastFiveHasAsked(h, ks, n - 1);
    }
  }

  /** Every opening reached by the streak happens at exactly ten failures, and exactly one earlier answer of that
      streak, given while the breaker was still closed, asked for the trigger. */
  lemma ThresholdOpeningWasAskedFor(h: seq<Event>, ks: seq<Keys>, n: nat) returns (t: nat)
    requires IsRun(h, ks) && Opens(ks, n) && ks[n].state.Closed?
    requires ks[n + 1].consecutive >= 10
    ensures ks[n + 1].consecutive == 10
    ensures t < n && Asks(h, ks, t) && ks[t + 1].state.Closed? && SameStreak(h, t + 1, n + 1)
    ensures forall i: nat | i <= n && SameStreak(h, i + 1, n + 1) && Asks(h, ks, i) :: i == t
  {
    assert Leads(h, ks, n);
    ClosedIsClean(h, ks, n);
    t := ClosedPastFiveHasAsked(h, ks, n);
    forall i: nat | i <= n && SameStreak(h, i + 1, n + 1) && Asks(h, ks, i) ensures i == t {
      if i < t {
        OneAnswerPerStreak(h, ks, i, t);
      } else if t < i {
        OneAnswerPerStreak(h, ks, t, i);
      }
    }
  }

  // ---- What becomes of them ----

  // The calls whose trigger is on the channel.
  ghost function Published(b: Bus): set<nat> {
    set i | 0 <= i < |b.channel| && b.channel[i].Trigger? :: b.channel[i].call
  }

  predicate TriggersOnce(b: Bus) {
    forall i, j | 0 <= i < j < |b.channel| && b.channel[i].Trigger? && b.channel[j].Trigger? ::
      b.channel[i].call != b.channel[j].call
  }

  // Every answer that asks is still to be published, lost with its worker, or published once, and nothing else is.
  ghost predicate Accounted(b: Bus) {
    && (forall n :: n in b.asking || n in b.dead || n in Published(b) <==> 0 <= n && Asks(b.h, b.ks, n))
    && b.asking !! b.dead && b.asking !! Published(b) && b.dead !! Published(b)
    && TriggersOnce(b)
  }

  lemma PublishedOnAppend(b: Bus, c: Bus, m: Message)
    requires c.channel == b.channel + [m]
    ensures Published(c) == if m.Trigger? then Published(b) + {m.call} else Published(b)
  {
    forall n ensures n in Published(c) <==> n in Published(b) || (m.Trigger? && n == m.call) {
      if n in Published(b) {
        var i :| 0 <= i < |b.channel| && b.channel[i].Trigger? && b.channel[i].call == n;
        assert c.channel[i] == b.channel[i];
      }
      assert c.channel[|b.channel|] == m;
    }
  }

  lemma SamePublished(b: Bus, c: Bus)
    requires c.channel == b.channel
    ensures Published(c) == Published(b)
  {}

  lemma AskedBefore(b: Bus, e: Event, n: nat)
    requires IsRun(b.h, b.ks)
    ensures var c := Called(b, e);
            Asks(c.h, c.ks, n) <==> if n == |b.h| then Asks(c.h, c.ks, |b.h|) else Asks(b.h, b.ks, n)
  {
    if n < |b.h| {
      assert Called(b, e).h[n] == b.h[n] && Called(b, e).ks[n] == b.ks[n] && Called(b, e).ks[n + 1] == b.ks[n + 1];
    }
  }

  lemma CallPublishes(b: Bus, e: Event)
    requires IsRun(b.h, b.ks)
    ensures Published(Called(b, e)) == Published(b)
    ensures TriggersOnce(b) ==> TriggersOnce(Called(b, e))
  {
    var c := Called(b, e);
    if c.channel != b.channel { PublishedOnAppend(b, c, Transition(|b.h|, c.ks[|c.h|].state)); }
  }

  lemma CallKeepsAccounts(b: Bus, e: Event)
    requires IsRun(b.h, b.ks) && Accounted(b)
    ensures Accounted(Called(b, e))
  {
    var c := Called(b, e);
    CallPublishes(b, e);
    assert !Asks(b.h, b.ks, |b.h|);
    forall n: nat ensures n in c.asking || n in c.dead || n in Published(c) <==> Asks(c.h, c.ks, n) {
      AskedBefore(b, e, n);
    }
  }

  lemma PublishKeepsAccounts(b: Bus, n: nat, c: Bus)
    requires Accounted(b) && n in b.asking
    requires c == b.(asking := b.asking - {n}, channel := b.channel + [Trigger(n)])
    ensures Accounted(c)
  {
    PublishedOnAppend(b, c, Trigger(n));
    forall i | 0 <= i < |b.channel| && b.channel[i].Trigger? ensures b.channel[i].call != n {
      assert b.channel[i].call in Published(b);
    }
  }

  /** Conservation: of the answers that ask for a trigger, each is still to be published, or was lost with its worker,
      or is on the channel exactly once; and no other trigger is. */
  lemma {:induction false} TriggersAreAccounted(bs: seq<Bus>, acts: seq<Act>, n: nat)
    requires IsBusRun(bs, acts) && n <= |acts|
    ensures Accounted(bs[n])
  {
    if n > 0 {
      TriggersAreAccounted(bs, acts, n - 1);
      BusRunIsRun(bs, acts, n - 1);
      assert LeadsBus(bs, acts, n - 1);
      match acts[n - 1] {
        case Call(e) => CallKeepsAccounts(bs[n - 1], e);
        case Publish(k) => PublishKeepsAccounts(bs[n - 1], k, bs[n]);
        case Die(k) => SamePublished(bs[n - 1], bs[n]);
      }
    }
  }

  /** At most one trigger of a streak is ever published, however late. */
  lemma OneTriggerPerStreak(bs: seq<Bus>, acts: seq<Act>, n: nat, i: nat, j: nat)
    requires IsBusRun(bs, acts) && n <= |acts| && i < |bs[n].channel| && j < |bs[n].channel| && i != j
    requires bs[n].channel[i].Trigger? && bs[n].channel[j].Trigger?
    ensures var a, b := bs[n].channel[i].call, bs[n].channel[j].call;
            a != b && !SameStreak(bs[n].h, (if a < b then a else b) + 1, if a < b then b else a)
  {
    TriggersAreAccounted(bs, acts, n);
    BusRunIsRun(bs, acts, n);
    var a, b := bs[n].channel[i].call, bs[n].channel[j].call;
    assert a in Published(bs[n]) && b in Published(bs[n]);
    if a < b {
      OneAnswerPerStreak(bs[n].h, bs[n].ks, a, b);
    } else if b < a {
      OneAnswerPerStreak(bs[n].h, bs[n].ks, b, a);
    }
  }

  // ---- Before or after the opening ----

  ghost predicate BusGrows(b: Bus, c: Bus) {
    b.h <= c.h && b.ks <= c.ks && b.channel <= c.channel
  }

  lemma {:induction false} BusesGrow(bs: seq<Bus>, acts: seq<Act>, n: nat, m: nat)
    requires IsBusRun(bs, acts) && n <= m <= |acts|
    ensures BusGrows(bs[n], bs[m])
  {
    if n < m {
      BusesGrow(bs, acts, n, m - 1);
      assert LeadsBus(bs, acts, m - 1);
    }
  }

  // A transition is on the channel once, since every call has a number of its own.
  ghost predicate TransitionsOnce(b: Bus) {
    && (forall i | 0 <= i < |b.channel| && b.channel[i].Transition? :: b.channel[i].call < |b.h|)
    && (forall i, j | 0 <= i < j < |b.channel| && b.channel[i].Transition? && b.channel[j].Transition? ::
          b.channel[i].call != b.channel[j].call)
  }

  lemma {:induction false} TransitionsAreOnce(bs: seq<Bus>, acts: seq<Act>, n: nat)
    requires IsBusRun(bs, acts) && n <= |acts|
    ensures TransitionsOnce(bs[n])
  {
    if n > 0 {
      TransitionsAreOnce(bs, acts, n - 1);
      assert LeadsBus(bs, acts, n - 1);
    }
  }

  // A trigger is on the channel if and only if its worker has published it.
  lemma {:induction false} PublishedByAct(bs: seq<Bus>, acts: seq<Act>, n: nat, k: nat)
    requires IsBusRun(bs, acts) && n <= |acts|
    ensures k in Published(bs[n]) <==> exists i :: 0 <= i < n && acts[i] == Publish(k)
  {
    if n > 0 {
      PublishedByAct(bs, acts, n - 1, k);
      assert LeadsBus(bs, acts, n - 1);
      BusRunIsRun(bs, acts, n - 1);
      match acts[n - 1] {
        case Call(e) => CallPublishes(bs[n - 1], e);
        case Publish(j) => PublishedOnAppend(bs[n - 1], bs[n], Trigger(j));
        case Die(j) => SamePublished(bs[n - 1], bs[n]);
      }
    }
  }

  predicate IsBefore(channel: seq<Message>, a: Message, b: Message) {
    exists i, j :: 0 <= i < j < |channel| && channel[i] == a && channel[j] == b
  }

  /** Act m is a failure that opens the closed breaker by the length of its streak. */
  ghost predicate OpensByStreak(bs: seq<Bus>, acts: seq<Act>, m: nat) {
    && m < |acts| && m + 1 < |bs| && acts[m].Call?
    && var n, c := |bs[m].h|, bs[m + 1];
       && |c.ks| == n + 2 && Opens(c.ks, n) && c.ks[n].state.Closed?
       && c.ks[n + 1].consecutive >= CONSECUTIVE_FAILURE_THRESHOLD
  }

  // On the channel, the opening is the last message at that act.
  lemma OpeningIsPublished(bs: seq<Bus>, acts: seq<Act>, m: nat)
    requires IsBusRun(bs, acts) && OpensByStreak(bs, acts, m)
    ensures bs[m + 1].channel == bs[m].channel + [Transition(|bs[m].h|, Open)]
  {
    assert LeadsBus(bs, acts, m);
    BusRunIsRun(bs, acts, m);
    BusRunIsRun(bs, acts, m + 1);
    assert Leads(bs[m + 1].h, bs[m + 1].ks, |bs[m].h|);
  }

  /** Subscribers learn of the failing endpoint before they learn that its breaker opened exactly if the worker that
      recorded the fifth failure of the streak had run its PUBLISH by the tenth. The answer t of that worker is the only
      one of the streak that asks. */
  lemma AnnouncedBeforeOpeningExactlyWhen(bs: seq<Bus>, acts: seq<Act>, m: nat, end: nat) returns (t: nat)
    requires IsBusRun(bs, acts) && OpensByStreak(bs, acts, m) && m < end <= |acts|
    ensures t < |bs[m].h| && Asks(bs[m].h, bs[m].ks, t) && SameStreak(bs[m].h, t + 1, |bs[m].h|)
    ensures forall i: nat | SameStreak(bs[m].h, i + 1, |bs[m].h|) && Asks(bs[m].h, bs[m].ks, i) :: i == t
    ensures IsBefore(bs[end].channel, Trigger(t), Transition(|bs[m].h|, Open))
       <==> exists i :: 0 <= i < m && acts[i] == Publish(t)
  {
    t := AnswerOfTheStreak(bs, acts, m);
    OpeningIsPublished(bs, acts, m);
    BusesGrow(bs, acts, m + 1, end);
    TransitionsAreOnce(bs, acts, end);
    PublishedByAct(bs, acts, m, t);
    BeforeTheOpening(bs[m].channel, bs[end], Transition(|bs[m].h|, Open), t);
    assert t in Published(bs[m]) <==> Trigger(t) in bs[m].channel;
  }

  lemma AnswerOfTheStreak(bs: seq<Bus>, acts: seq<Act>, m: nat) returns (t: nat)
    requires IsBusRun(bs, acts) && OpensByStreak(bs, acts, m)
    ensures t < |bs[m].h| && Asks(bs[m].h, bs[m].ks, t) && SameStreak(bs[m].h, t + 1, |bs[m].h|)
    ensures forall i: nat | SameStreak(bs[m].h, i + 1, |bs[m].h|) && Asks(bs[m].h, bs[m].ks, i) :: i == t
  {
    var b, c, e := bs[m], bs[m + 1], acts[m].event;
    assert LeadsBus(bs, acts, m);
    BusRunIsRun(bs, acts, m);
    BusRunIsRun(bs, acts, m + 1);
    t := ThresholdOpeningWasAskedFor(c.h, c.ks, |b.h|);
    AskedBefore(b, e, t);
    forall i | t + 1 <= i < |b.h| ensures !EndsStreak(b.h, i) { assert !EndsStreak(c.h, i) && c.h[i] == b.h[i]; }
    forall i: nat | SameStreak(b.h, i + 1, |b.h|) && Asks(b.h, b.ks, i) ensures i == t {
      AskedBefore(b, e, i);
      forall j | i + 1 <= j < |b.h| + 1 ensures !EndsStreak(c.h, j) {
        if j < |b.h| { assert !EndsStreak(b.h, j) && c.h[j] == b.h[j]; } else { assert !EndsStreak(c.h, |b.h|); }
      }
    }
  }

  lemma BeforeTheOpening(before: seq<Message>, c: Bus, opening: Message, t: nat)
    requires before + [opening] <= c.channel && opening.Transition? && TransitionsOnce(c)
    ensures IsBefore(c.channel, Trigger(t), opening) <==> Trigger(t) in before
  {
    assert c.channel[|before|] == opening && c.channel[..|before|] == before;
    if Trigger(t) in before {
      var i :| 0 <= i < |before| && before[i] == Trigger(t);
      assert c.channel[i] == Trigger(t);
    }
    if IsBefore(c.channel, Trigger(t), opening) {
      var i, j :| 0 <= i < j < |c.channel| && c.channel[i] == Trigger(t) && c.channel[j] == opening;
      assert j == |before|;
      assert before[i] == c.channel[i];
    }
  }

  // Any run of the breaker, with no worker getting to its PUBLISH.
  lemma {:induction false} NobodyPublishes(h: seq<Event>, ks: seq<Keys>) returns (bs: seq<Bus>, acts: seq<Act>)
    requires IsRun(h, ks)
    ensures IsBusRun(bs, acts) && bs[|acts|].h == h && bs[|acts|].ks == ks
    ensures forall i | 0 <= i < |acts| :: acts[i].Call?
    decreases |h|
  {
    bs, acts := [QuietBus], [];
    if h == [] {
      assert ks == [Absent];
    } else {
      var n := |h| - 1;
      var g, js := h[..n], ks[..n + 1];
      forall i: nat | i < n ensures Leads(g, js, i) { assert Leads(h, ks, i); }
      bs, acts := NobodyPublishes(g, js);
      assert Leads(h, ks, n);
      var b := bs[|acts|];
      assert h == b.h + [h[n]] && ks == b.ks + [ks[n + 1]];
      BusRunExtends(bs, acts, Call(h[n]), Called(b, h[n]));
      bs, acts := bs + [Called(b, h[n])], acts + [Call(h[n])];
    }
  }

  /** The documented order can fail: ten failures open the breaker before the worker of the fifth gets to its PUBLISH.
      It then publishes the trigger after the opening, or dies and never does. */
  lemma StalledTriggerIsLateOrLost(dies: bool) returns (bs: seq<Bus>, acts: seq<Act>, t: nat)
    ensures IsBusRun(bs, acts) && |acts| == 11 && OpensByStreak(bs, acts, 9)
    ensures Asks(bs[11].h, bs[11].ks, t) && (dies ==> t in bs[11].dead)
    ensures if dies then Trigger(t) !in bs[11].channel else IsBefore(bs[11].channel, Transition(9, Open), Trigger(t))
  {
    var h, ks := FailuresAtZero(CONSECUTIVE_FAILURE_THRESHOLD - 1);
    var e := Outcome(Attempt(0.0, false, 0));
    RunExtends(h, ks, e);
    bs, acts := NobodyPublishes(h, ks);
    CallsCount(bs, acts, |acts|);
    var b := bs[|acts|];
    var c := Called(b, e);
    BusRunExtends(bs, acts, Call(e), c);
    bs, acts := bs + [c], acts + [Call(e)];
    assert OpensByStreak(bs, acts, 9);
    t := AnnouncedBeforeOpeningExactlyWhen(bs, acts, 9, 10);
    OpeningIsPublished(bs, acts, 9);
    TriggersAreAccounted(bs, acts, 10);
    NobodyIsGone(bs, acts, 10);
    AskedBefore(b, e, t);
    var d := if dies then c.(asking := c.asking - {t}, dead := c.dead + {t})
             else c.(asking := c.asking - {t}, channel := c.channel + [Trigger(t)]);
    var act := if dies then Die(t) else Publish(t);
    BusRunExtends(bs, acts, act, d);
    bs, acts := bs + [d], acts + [act];
    if dies {
      assert Trigger(t) in d.channel ==> t in Published(c);
    } else {
      assert d.channel[|b.channel|] == Transition(9, Open) && d.channel[|b.channel| + 1] == Trigger(t);
    }
  }

  lemma {:induction false} CallsCount(bs: seq<Bus>, acts: seq<Act>, n: nat)
    requires IsBusRun(bs, acts) && n <= |acts| && forall i | 0 <= i < n :: acts[i].Call?
    ensures |bs[n].h| == n
  {
    if n > 0 {
      CallsCount(bs, acts, n - 1);
      assert LeadsBus(bs, acts, n - 1);
    }
  }

  lemma {:induction false} NobodyIsGone(bs: seq<Bus>, acts: seq<Act>, n: nat)
    requires IsBusRun(bs, acts) && n <= |acts| && forall i | 0 <= i < n :: acts[i].Call?
    ensures bs[n].dead == {} && Published(bs[n]) == {}
  {
    if n > 0 {
      NobodyIsGone(bs, acts, n - 1);
      BusRunIsRun(bs, acts, n - 1);
      assert LeadsBus(bs, acts, n - 1);
      CallPublishes(bs[n - 1], acts[n - 1].event);
    }
  }
}
