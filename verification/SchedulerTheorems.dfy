/** Guarantees of the scheduler over every run: limits, work conservation, order and fairness. */
module SchedulerTheorems {
  import opened Scheduler
  import opened SchedulerInvariant
  import opened SchedulerSteps

  // ---- Limits and work conservation ----

  /** After any run: the global count is the sum of the Bots' counts, each Bot's count is the number
      of its active slots, and no limit or queue bound is exceeded. */
  lemma LimitsHold(maxConcurrent: int, actions: seq<Action>, b: nat)
    requires b < |Run(NewState(maxConcurrent), actions).limiters|
    ensures var s := Run(NewState(maxConcurrent), actions);
            var l := s.limiters[b];
            && s.running == SumRunning(s.limiters) <= s.max
            && l.running == |l.active| <= l.max && |l.queue| <= l.maxQueued
  {
    NewSettled(maxConcurrent);
    RunSettled(NewState(maxConcurrent), actions);
    assert LimiterOk(Run(NewState(maxConcurrent), actions), b);
  }

  /** Nothing waits while it could run: with a free global slot, no open Bot has both a queue and
      spare capacity. */
  lemma WorkConserving(maxConcurrent: int, actions: seq<Action>, b: nat)
    requires var s := Run(NewState(maxConcurrent), actions);
             b < |s.limiters| && !s.limiters[b].closed && s.running < s.max
    ensures var l := Run(NewState(maxConcurrent), actions).limiters[b];
            l.queue == [] || l.running == l.max
  {
    NewSettled(maxConcurrent);
    RunSettled(NewState(maxConcurrent), actions);
    assert LimiterOk(Run(NewState(maxConcurrent), actions), b);
  }

  /** Closing leaves nothing behind: a closed limiter has no queue, is finished exactly when its
      last slot is released, and every slot it failed has been told. */
  lemma ClosedLimiterDrains(maxConcurrent: int, actions: seq<Action>, b: nat, i: nat)
    requires var s := Run(NewState(maxConcurrent), actions);
             b < |s.limiters| && s.limiters[b].closed && i < |s.slots| && s.slots[i].owner == b
    ensures var s := Run(NewState(maxConcurrent), actions);
            && s.limiters[b].queue == [] && (s.limiters[b].finished <==> s.limiters[b].active == {})
            && Resolved(s.slots[i])
            && (s.slots[i].granted && !s.slots[i].released ==> i in s.limiters[b].active)
  {
    NewSettled(maxConcurrent);
    RunSettled(NewState(maxConcurrent), actions);
    var s := Run(NewState(maxConcurrent), actions);
    assert LimiterOk(s, b);
    assert SlotOk(s, i);
  }

  lemma {:induction false} DispatchSparesClosed(s: State, b: nat)
    requires Core(s) && b < |s.limiters| && s.limiters[b].closed
    ensures |Dispatch(s).limiters| == |s.limiters| && Dispatch(s).limiters[b] == s.limiters[b]
    decreases QueuedSlots(s.limiters), |s.ready|
  {
    if CanDispatch(s) {
      ReadyHead(s);
      TurnCore(s);
      TurnShrinks(s);
      if s.limiters[s.ready[0]].queue != [] {
        TurnServes(s);
      }
      hide Core;
      hide Turn;
      DispatchSparesClosed(Turn(s), b);
    }
  }

  lemma {:induction false} CloseEachSparesClosed(s: State, order: seq<nat>, b: nat)
    requires b < |s.limiters| && s.limiters[b].closed
    ensures |CloseEach(s, order).limiters| == |s.limiters| && CloseEach(s, order).limiters[b] == s.limiters[b]
    decreases |order|
  {
    if order != [] {
      CloseEachSparesClosed(CloseLimiter(s, order[0]), order[1..], b);
    }
  }

  /** What a closed limiter becomes: only the release of one of its slots changes it. */
  function AfterStep(s: State, a: Action, b: nat): Limiter
    requires b < |s.limiters|
  {
    if a.Done? && Releases(s, a.slot) && s.slots[a.slot].owner == b then ReleasedLimiter(s.limiters[b], a.slot)
    else s.limiters[b]
  }

  lemma EnteredSparesClosed(s: State, a: Action, b: nat)
    requires Settled(s) && b < |s.limiters| && s.limiters[b].closed
    ensures b < |Entered(s, a).limiters| && Entered(s, a).limiters[b] == AfterStep(s, a, b)
  {
    hide Settled;
    hide GivenBack;
    hide ReleasedLimiter;
    hide Without;
    hide Immediate;
    match a
    case StopAll(order) => CloseEachSparesClosed(s.(closed := true), order, b);
    case Done(slot) => ReleaseSparesClosed(s, slot, b);
    case Leave(slot) =>
      if Leaves(s, slot) {
        UnresolvedIsOpen(s, slot);
      }
    case _ =>
  }

  lemma ReleaseSparesClosed(s: State, slot: nat, b: nat)
    requires Settled(s) && b < |s.limiters| && s.limiters[b].closed
    ensures var e := Entered(s, Action.Done(slot));
            b < |e.limiters| && e.limiters[b] == AfterStep(s, Action.Done(slot), b)
  {
    hide GivenBack;
    hide ReleasedLimiter;
    if Releases(s, slot) {
      GivenBackIs(s, slot);
    }
    hide Core;
  }

  lemma UnresolvedIsOpen(s: State, slot: nat)
    requires Settled(s) && slot < |s.slots| && s.slots[slot].owner < |s.limiters|
    ensures !Resolved(s.slots[slot]) ==> !s.limiters[s.slots[slot].owner].closed
  {
    assert SlotOk(s, slot);
    assert LimiterOk(s, s.slots[slot].owner);
  }

  lemma StepSparesClosed(s: State, a: Action, b: nat)
    requires Settled(s) && b < |s.limiters| && s.limiters[b].closed
    ensures b < |Step(s, a).limiters| && Step(s, a).limiters[b] == AfterStep(s, a, b)
  {
    EnteredCore(s, a);
    EnteredSparesClosed(s, a, b);
    StepDispatches(s, a);
    hide Settled;
    hide Step;
    hide Entered;
    DispatchSparesClosed(Entered(s, a), b);
  }

  /** The wait of Close ends: a closed limiter never gets another slot, and whatever else happens it
      is finished once every slot that was running has been released. */
  lemma {:induction false} CloseWaitEnds(s: State, actions: seq<Action>, b: nat)
    requires Settled(s) && b < |s.limiters| && s.limiters[b].closed
    ensures var t := Run(s, actions);
            && b < |t.limiters| && t.limiters[b].closed && t.limiters[b].active <= s.limiters[b].active
            && ((forall x :: x in s.limiters[b].active ==> Action.Done(x) in actions) ==> t.limiters[b].finished)
    ensures forall x :: Action.Done(x) in actions ==> x !in Run(s, actions).limiters[b].active
  {
    if actions == [] {
      ClosedAndIdle(s, b);
    } else {
      var front, a := actions[..|actions| - 1], actions[|actions| - 1];
      var t := Run(s, front);
      CloseWaitEnds(s, front, b);
      RunSettled(s, actions);
      RunSettled(s, front);
      StepSparesClosed(t, a, b);
      ClosedAndIdle(Step(t, a), b);
      if a.Done? {
        ReleasedIsGone(t, a.slot, b);
      }
      hide Settled;
      hide Step;
      assert actions == front + [a];
    }
  }

  lemma ClosedAndIdle(s: State, b: nat)
    requires Settled(s) && b < |s.limiters| && s.limiters[b].closed
    ensures s.limiters[b].active == {} ==> s.limiters[b].finished
  {
    assert LimiterOk(s, b);
  }

  lemma ReleasedIsGone(s: State, slot: nat, b: nat)
    requires Settled(s) && b < |s.limiters|
    ensures slot !in AfterStep(s, Action.Done(slot), b).active
  {
    assert LimiterOk(s, b);
    if slot in s.limiters[b].active {
      assert ActiveSlot(s.slots, b, slot);
    }
  }

  // ---- Order within a Bot ----

  predicate GrantRecorded(slots: seq<Slot>, e: Event) {
    e.Granted? ==> e.slot < |slots| && slots[e.slot].granted && slots[e.slot].owner == e.bot
  }

  predicate InGrantOrder(e: Event, f: Event) {
    e.Granted? && f.Granted? && e.bot == f.bot ==> e.slot < f.slot
  }

  /** Every recorded grant is a granted slot of its Bot, and a Bot's grants are in slot order. */
  predicate GrantsOk(s: State) {
    && (forall i :: 0 <= i < |s.events| ==> GrantRecorded(s.slots, s.events[i]))
    && (forall i, j :: 0 <= i < j < |s.events| ==> InGrantOrder(s.events[i], s.events[j]))
  }

  predicate KeepsGrant(x: Slot, y: Slot) {
    y.owner == x.owner && (x.granted ==> y.granted)
  }

  /** Grants stay on record. */
  predicate KeepsGrants(s: State, t: State) {
    && t.events == s.events && |s.slots| <= |t.slots|
    && forall i :: 0 <= i < |s.slots| ==> KeepsGrant(s.slots[i], t.slots[i])
  }

  lemma KeptGrants(s: State, t: State)
    requires GrantsOk(s) && KeepsGrants(s, t)
    ensures GrantsOk(t)
  {
    forall i | 0 <= i < |t.events| ensures GrantRecorded(t.slots, t.events[i]) {
      assert GrantRecorded(s.slots, s.events[i]);
    }
  }

  lemma GrantsAppend(s: State, t: State, e: Event)
    requires GrantsOk(s) && t.events == s.events + [e] && |s.slots| <= |t.slots|
    requires forall i :: 0 <= i < |s.slots| ==> KeepsGrant(s.slots[i], t.slots[i])
    requires GrantRecorded(t.slots, e) && forall i :: 0 <= i < |s.events| ==> InGrantOrder(s.events[i], e)
    ensures GrantsOk(t)
  {
    forall i | 0 <= i < |t.events| ensures GrantRecorded(t.slots, t.events[i]) {
      if i < |s.events| {
        assert GrantRecorded(s.slots, s.events[i]);
      }
    }
    forall i, j | 0 <= i < j < |t.events| ensures InGrantOrder(t.events[i], t.events[j]) {
      if j < |s.events| {
        assert InGrantOrder(s.events[i], s.events[j]);
      }
    }
  }

  /** The head of a Bot's queue is younger than every slot the Bot was granted. */
  lemma HeadIsNewest(s: State, b: nat)
    requires Core(s) && GrantsOk(s) && b < |s.limiters| && s.limiters[b].queue != []
    ensures var x := s.limiters[b].queue[0];
            && QueuedSlot(s.slots, b, x)
            && forall i :: 0 <= i < |s.events| ==> InGrantOrder(s.events[i], Granted(b, x))
  {
    var x := s.limiters[b].queue[0];
    assert LimiterOk(s, b);
    assert x in s.limiters[b].queue;
    forall i | 0 <= i < |s.events| ensures InGrantOrder(s.events[i], Granted(b, x)) {
      assert GrantRecorded(s.slots, s.events[i]);
    }
  }

  lemma TurnGrants(s: State)
    requires Core(s) && CanDispatch(s) && s.ready[0] < |s.limiters| && GrantsOk(s)
    ensures GrantsOk(Turn(s))
  {
    var b := s.ready[0];
    var p := s.(events := s.events + [Popped(b)]);
    if s.limiters[b].queue != [] {
      TurnServes(s);
      HeadIsNewest(s, b);
      hide Turn;
      hide Core;
      hide QueuedSlot;
      var x := s.limiters[b].queue[0];
      var e := if s.slots[x].canceled then Skipped(b, x) else Granted(b, x);
      GrantsAppend(s, p, Popped(b));
      hide GrantsOk;
      GrantsAppend(p, Turn(s), e);
    }
  }

  lemma {:induction false} DispatchGrants(s: State)
    requires Core(s) && GrantsOk(s)
    ensures GrantsOk(Dispatch(s))
    decreases QueuedSlots(s.limiters), |s.ready|
  {
    if CanDispatch(s) {
      TurnCore(s);
      TurnGrants(s);
      TurnShrinks(s);
      hide Turn;
      hide Core;
      hide GrantsOk;
      DispatchGrants(Turn(s));
    }
  }

  lemma {:induction false} CloseEachKeepsGrants(s: State, order: seq<nat>)
    requires Core(s) && Bounded(s)
    ensures KeepsGrants(s, CloseEach(s, order))
    decreases |order|
  {
    if order != [] {
      CloseCore(s, order[0]);
      CloseKeepsGrants(s, order[0]);
      CloseEachKeepsGrants(CloseLimiter(s, order[0]), order[1..]);
      hide CloseLimiter;
    }
  }

  lemma CloseKeepsGrants(s: State, b: nat)
    requires Core(s)
    ensures KeepsGrants(s, CloseLimiter(s, b))
  {
    if b < |s.limiters| && !s.limiters[b].closed {
      assert LimiterOk(s, b);
      CloseIs(s, b);
      hide CloseLimiter;
    }
  }

  lemma GiveBackKeepsGrants(s: State, slot: nat)
    requires Core(s) && Releases(s, slot)
    ensures KeepsGrants(s, GivenBack(s, slot))
  {
    GivenBackIs(s, slot);
    hide GivenBack;
    hide Core;
  }

  lemma EnteredKeepsGrants(s: State, a: Action)
    requires Settled(s)
    ensures KeepsGrants(s, Entered(s, a))
  {
    match a
    case StopAll(order) =>
      if Enabled(s, a) {
        CloseEachCore(s, order);
        CloseEachKeepsGrants(s, order);
      }
      hide CloseEach;
      hide Settled;
    case Stop(b) =>
      CloseKeepsGrants(s, b);
      hide CloseLimiter;
    case Done(slot) =>
      if Releases(s, slot) {
        GiveBackKeepsGrants(s, slot);
      }
      hide GivenBack;
    case _ =>
      hide Settled;
  }

  lemma StepGrants(s: State, a: Action)
    requires Settled(s) && GrantsOk(s)
    ensures GrantsOk(Step(s, a))
  {
    StepDispatches(s, a);
    EnteredCore(s, a);
    EnteredKeepsGrants(s, a);
    hide Settled;
    hide GrantsOk;
    hide Step;
    KeptGrants(s, Entered(s, a));
    DispatchGrants(Entered(s, a));
  }

  lemma {:induction false} RunGrants(s: State, actions: seq<Action>)
    requires Settled(s) && GrantsOk(s)
    ensures GrantsOk(Run(s, actions))
  {
    if actions != [] {
      RunGrants(s, actions[..|actions| - 1]);
      RunSettled(s, actions[..|actions| - 1]);
      hide Settled;
      hide GrantsOk;
      StepGrants(Run(s, actions[..|actions| - 1]), actions[|actions| - 1]);
    }
  }

  /** Within one Bot, grants follow Acquire order, and whenever a slot has been granted every
      earlier slot of the Bot has been granted, canceled or failed. */
  lemma GrantsInAcquireOrder(maxConcurrent: int, actions: seq<Action>)
    ensures GrantsOk(Run(NewState(maxConcurrent), actions)) && Fifo(Run(NewState(maxConcurrent), actions).slots)
  {
    NewSettled(maxConcurrent);
    RunGrants(NewState(maxConcurrent), actions);
    RunSettled(NewState(maxConcurrent), actions);
  }

  // ---- Bounded bypass ----

  function Pops(events: seq<Event>, c: nat): nat {
    if events == [] then 0
    else Pops(events[..|events| - 1], c) + (if events[|events| - 1] == Popped(c) then 1 else 0)
  }

  function Grants(events: seq<Event>, c: nat): nat {
    if events == [] then 0
    else Grants(events[..|events| - 1], c) + (if events[|events| - 1].Granted? && events[|events| - 1].bot == c then 1 else 0)
  }

  lemma CountAppend(events: seq<Event>, e: Event, c: nat)
    ensures Pops(events + [e], c) == Pops(events, c) + (if e == Popped(c) then 1 else 0)
    ensures Grants(events + [e], c) == Grants(events, c) + (if e.Granted? && e.bot == c then 1 else 0)
  {
    assert (events + [e])[..|events|] == events;
  }

  /** c stands before b in the ready list. */
  predicate Ahead(ready: seq<nat>, c: nat, b: nat) {
    ready != [] && if ready[0] == c then b in ready[1..] else ready[0] != b && Ahead(ready[1..], c, b)
  }

  /** Since the counts in k, Bot b was popped, or is closed, or still waits and Bot c had at most
      one turn, and none if it still stands before b. */
  predicate Bypassed(t: State, b: nat, c: nat, kb: nat, kc: nat, kg: nat) {
    && b < |t.limiters| && Pops(t.events, b) >= kb && Pops(t.events, c) >= kc
    && Grants(t.events, c) - kg <= Pops(t.events, c) - kc
    && (|| Pops(t.events, b) > kb
        || t.limiters[b].closed
        || (b in t.ready && Pops(t.events, c) - kc + (if Ahead(t.ready, c, b) then 1 else 0) <= 1))
  }

  lemma {:induction false} AheadHas(ready: seq<nat>, c: nat, b: nat)
    requires Ahead(ready, c, b)
    ensures c in ready && b in ready
  {
    if ready[0] != c {
      AheadHas(ready[1..], c, b);
    }
  }

  lemma {:induction false} AheadAppend(ready: seq<nat>, x: nat, c: nat, b: nat)
    requires b in ready && c != b
    ensures Ahead(ready + [x], c, b) ==> Ahead(ready, c, b)
  {
    assert (ready + [x])[1..] == ready[1..] + [x];
    if ready[0] != c && ready[0] != b {
      AheadAppend(ready[1..], x, c, b);
    }
  }

  lemma AheadPop(ready: seq<nat>, c: nat, b: nat)
    requires ready != [] && Distinct(ready) && ready[0] != b && b in ready
    ensures b in ready[1..]
    ensures Ahead(ready[1..], c, b) ==> Ahead(ready, c, b) && ready[0] != c
    ensures ready[0] == c ==> Ahead(ready, c, b)
  {
    if Ahead(ready[1..], c, b) {
      AheadHas(ready[1..], c, b);
    }
  }

  lemma {:induction false} AheadWithout(ready: seq<nat>, x: nat, c: nat, b: nat)
    requires x != b
    ensures Ahead(Without(ready, x), c, b) ==> Ahead(ready, c, b)
    ensures b in ready ==> b in Without(ready, x)
  {
    WithoutMember(ready, x);
    if Ahead(Without(ready, x), c, b) && ready != [] {
      if ready[0] == x {
        AheadHas(ready[1..], c, b);
      } else {
        assert Without(ready, x)[1..] == Without(ready[1..], x);
        WithoutMember(ready[1..], x);
        AheadWithout(ready[1..], x, c, b);
      }
    }
  }

  lemma PopBypassed(s: State, b: nat, c: nat, kb: nat, kc: nat, kg: nat)
    requires Core(s) && CanDispatch(s) && s.ready[0] < |s.limiters| && s.limiters[s.ready[0]].queue == []
    requires c != b && Bypassed(s, b, c, kb, kc, kg)
    ensures Bypassed(Turn(s), b, c, kb, kc, kg)
  {
    var h := s.ready[0];
    CountAppend(s.events, Popped(h), b);
    CountAppend(s.events, Popped(h), c);
    if b in s.ready && h != b {
      AheadPop(s.ready, c, b);
    }
  }

  lemma ServeBypassed(s: State, t: State, b: nat, c: nat, kb: nat, kc: nat, kg: nat)
    requires s.ready != [] && Distinct(s.ready) && s.ready[0] !in s.ready[1..] && IsServed(s, t, s.ready[0])
    requires c != b && Bypassed(s, b, c, kb, kc, kg)
    ensures Bypassed(t, b, c, kb, kc, kg)
  {
    var h := s.ready[0];
    var x := s.limiters[h].queue[0];
    var e := if s.slots[x].canceled then Skipped(h, x) else Granted(h, x);
    CountAppend(s.events, Popped(h), b);
    CountAppend(s.events, Popped(h), c);
    CountAppend(s.events + [Popped(h)], e, b);
    CountAppend(s.events + [Popped(h)], e, c);
    if b in s.ready && h != b {
      AheadPop(s.ready, c, b);
      AheadAppend(s.ready[1..], h, c, b);
    }
  }

  lemma TurnBypassed(s: State, b: nat, c: nat, kb: nat, kc: nat, kg: nat)
    requires Core(s) && CanDispatch(s) && s.ready[0] < |s.limiters|
    requires c != b && Bypassed(s, b, c, kb, kc, kg)
    ensures Bypassed(Turn(s), b, c, kb, kc, kg)
  {
    if s.limiters[s.ready[0]].queue == [] {
      PopBypassed(s, b, c, kb, kc, kg);
    } else {
      TurnServes(s);
      ReadyHead(s);
      hide Turn;
      hide Bypassed;
      hide IsServed;
      ServeBypassed(s, Turn(s), b, c, kb, kc, kg);
    }
  }

  lemma {:induction false} DispatchBypassed(s: State, b: nat, c: nat, kb: nat, kc: nat, kg: nat)
    requires Core(s) && c != b && Bypassed(s, b, c, kb, kc, kg)
    ensures Bypassed(Dispatch(s), b, c, kb, kc, kg)
    decreases QueuedSlots(s.limiters), |s.ready|
  {
    if CanDispatch(s) {
      TurnCore(s);
      TurnBypassed(s, b, c, kb, kc, kg);
      TurnShrinks(s);
      hide Turn;
      hide Core;
      hide Bypassed;
      DispatchBypassed(Turn(s), b, c, kb, kc, kg);
    }
  }

  /** A region before its dispatch: no events, and the ready list only gains at its end or loses a
      Bot that is now closed. */
  ghost predicate ReadyMoves(s: State, t: State) {
    && t.events == s.events && |s.limiters| <= |t.limiters|
    && (forall b :: 0 <= b < |s.limiters| && s.limiters[b].closed ==> t.limiters[b].closed)
    && (|| t.ready == s.ready
        || (|t.ready| == |s.ready| + 1 && t.ready[..|s.ready|] == s.ready && t.ready[|s.ready|] !in s.ready)
        || (exists x :: 0 <= x < |t.limiters| && t.limiters[x].closed && t.ready == Without(s.ready, x)))
  }

  lemma MovedBypassed(s: State, t: State, b: nat, c: nat, kb: nat, kc: nat, kg: nat)
    requires ReadyMoves(s, t) && c != b && Bypassed(s, b, c, kb, kc, kg)
    ensures Bypassed(t, b, c, kb, kc, kg)
  {
    if b in s.ready && t.ready != s.ready {
      if |t.ready| == |s.ready| + 1 && t.ready[..|s.ready|] == s.ready && t.ready[|s.ready|] !in s.ready {
        assert t.ready == s.ready + [t.ready[|s.ready|]];
        AheadAppend(s.ready, t.ready[|s.ready|], c, b);
      } else {
        var x :| 0 <= x < |t.limiters| && t.limiters[x].closed && t.ready == Without(s.ready, x);
        if x != b {
          AheadWithout(s.ready, x, c, b);
        }
      }
    }
  }

  lemma CloseMoves(s: State, b: nat)
    requires Core(s)
    ensures ReadyMoves(s, CloseLimiter(s, b))
  {
    if b < |s.limiters| && !s.limiters[b].closed {
      assert LimiterOk(s, b);
      CloseIs(s, b);
      hide CloseLimiter;
    }
  }

  lemma EnqueueMoves(s: State, b: nat, canceled: bool)
    requires Core(s) && Accepts(s, b)
    ensures ReadyMoves(s, MarkReady(Enqueue(s, b, canceled), b))
  {
    assert LimiterOk(s, b);
    EnqueuedIs(s, b, canceled);
    hide MarkReady;
    hide Enqueue;
    hide Core;
  }

  lemma GiveBackMoves(s: State, slot: nat)
    requires Core(s) && Releases(s, slot)
    ensures ReadyMoves(s, GivenBack(s, slot))
  {
    assert LimiterOk(s, s.slots[slot].owner);
    GivenBackIs(s, slot);
    hide GivenBack;
    hide Core;
  }

  lemma EnteredMoves(s: State, a: Action)
    requires Settled(s) && !a.StopAll?
    ensures ReadyMoves(s, Entered(s, a))
  {
    match a
    case NewBot(_, _, _) =>
      hide Settled;
    case Request(b, canceled) =>
      if Accepts(s, b) {
        EnqueueMoves(s, b, canceled);
      }
      hide MarkReady;
      hide Enqueue;
    case Cancel(slot) =>
      hide Settled;
    case Leave(slot) =>
      hide Settled;
    case Done(slot) =>
      if Releases(s, slot) {
        GiveBackMoves(s, slot);
      }
      hide GivenBack;
    case Stop(b) => CloseMoves(s, b);
  }

  lemma StepBypassed(s: State, a: Action, b: nat, c: nat, kb: nat, kc: nat, kg: nat)
    requires Settled(s) && c != b && Bypassed(s, b, c, kb, kc, kg)
    ensures Bypassed(Step(s, a), b, c, kb, kc, kg)
  {
    hide Bypassed;
    match a
    case StopAll(order) =>
      if Enabled(s, a) {
        AllStoppedBypassed(s, order, b, c, kb, kc, kg);
      }
    case _ =>
      StepDispatches(s, a);
      EnteredCore(s, a);
      EnteredMoves(s, a);
      hide Settled;
      hide Step;
      MovedBypassed(s, Entered(s, a), b, c, kb, kc, kg);
      DispatchBypassed(Entered(s, a), b, c, kb, kc, kg);
  }

  lemma {:induction false} CloseEachEvents(s: State, order: seq<nat>)
    ensures CloseEach(s, order).events == s.events
    decreases |order|
  {
    if order != [] {
      CloseEachEvents(CloseLimiter(s, order[0]), order[1..]);
    }
  }

  lemma AllStoppedBypassed(s: State, order: seq<nat>, b: nat, c: nat, kb: nat, kc: nat, kg: nat)
    requires Settled(s) && Enabled(s, StopAll(order)) && Bypassed(s, b, c, kb, kc, kg)
    ensures Bypassed(CloseAll(s, order), b, c, kb, kc, kg)
  {
    CloseEachCore(s, order);
    CloseEachEvents(s, order);
    assert LimiterOk(s, b);
    hide CloseEach;
  }

  lemma {:induction false} RunBypassed(s: State, actions: seq<Action>, b: nat, c: nat, kb: nat, kc: nat, kg: nat)
    requires Settled(s) && c != b && Bypassed(s, b, c, kb, kc, kg)
    ensures Bypassed(Run(s, actions), b, c, kb, kc, kg)
  {
    if actions != [] {
      RunBypassed(s, actions[..|actions| - 1], b, c, kb, kc, kg);
      RunSettled(s, actions[..|actions| - 1]);
      hide Settled;
      hide Bypassed;
      StepBypassed(Run(s, actions[..|actions| - 1]), actions[|actions| - 1], b, c, kb, kc, kg);
    }
  }

  /** The state of a region after k turns of its dispatch loop. */
  function Turns(s: State, k: nat): State
    decreases k
  {
    if k == 0 || !CanDispatch(s) || s.ready[0] >= |s.limiters| then s else Turns(Turn(s), k - 1)
  }

  lemma {:induction false} TurnsDispatch(s: State, k: nat)
    requires Core(s)
    ensures Core(Turns(s, k)) && Dispatch(Turns(s, k)) == Dispatch(s)
    decreases k
  {
    if k > 0 && CanDispatch(s) {
      TurnCore(s);
      hide Core;
      hide Turn;
      TurnsDispatch(Turn(s), k - 1);
    }
  }

  /** Bounded bypass: from any moment when Bot b is in the ready list, between two turns of a
      dispatch included, in any continuation in which b has not yet been popped or closed, every
      other Bot has had at most one turn, so at most one slot was granted to it. */
  lemma BoundedBypass(s: State, a: Action, k: nat, actions: seq<Action>, b: nat, c: nat)
    requires Settled(s) && c != b && b in Turns(Entered(s, a), k).ready
    requires var m, t := Turns(Entered(s, a), k), Run(Step(s, a), actions);
             b < |t.limiters| && !t.limiters[b].closed && Pops(t.events, b) == Pops(m.events, b)
    ensures var m, t := Turns(Entered(s, a), k), Run(Step(s, a), actions);
            Pops(t.events, c) <= Pops(m.events, c) + 1 && Grants(t.events, c) <= Grants(m.events, c) + 1
  {
    var m := Turns(Entered(s, a), k);
    var kb, kc, kg := Pops(m.events, b), Pops(m.events, c), Grants(m.events, c);
    EnteredCore(s, a);
    TurnsDispatch(Entered(s, a), k);
    StepDispatches(s, a);
    StepSettled(s, a);
    hide Turns;
    hide Entered;
    hide Step;
    hide Settled;
    hide Run;
    DispatchBypassed(m, b, c, kb, kc, kg);
    RunBypassed(Step(s, a), actions, b, c, kb, kc, kg);
  }
}
