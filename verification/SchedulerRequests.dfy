/** What becomes of one request: when it is refused, granted or queued, what its cancellation and the
    closing of its Bot do to it, and who can have canceled it (internal/adapter/scheduler.go). */
module SchedulerRequests {
  import opened Scheduler
  import opened SchedulerInvariant
  import opened SchedulerSteps
  import opened SchedulerTheorems

  // ---- Acquire ----

  /** A request could run at once: below the global limit and below its Bot's. */
  predicate HasRoom(s: State, b: nat)
    requires b < |s.limiters|
  {
    s.running < s.max && s.limiters[b].running < s.limiters[b].max
  }

  /** The slot is new, decided by its context alone, and the Bot has one more running unless the
      context was canceled. */
  predicate GrantedAtOnce(s: State, t: State, b: nat, canceled: bool)
    requires b < |s.limiters|
  {
    var l, x := s.limiters[b], |s.slots|;
    && t.slots == s.slots + [Slot(b, canceled, !canceled, if canceled then Canceled else NoError, true, false)]
    && t.limiters == s.limiters[b := if canceled then l else l.(active := l.active + {x}, running := l.running + 1)]
    && t.running == s.running + (if canceled then 0 else 1)
    && t.events == s.events + [Popped(b), if canceled then Skipped(b, x) else Granted(b, x)]
    && t.ready == s.ready && t.bots == s.bots && t.max == s.max && t.closed == s.closed
  }

  /** The slot is new, undecided and last in its Bot's queue; nothing else happens. */
  predicate QueuedLast(s: State, t: State, b: nat, canceled: bool)
    requires b < |s.limiters|
  {
    var l, x := s.limiters[b], |s.slots|;
    && t.slots == s.slots + [Slot(b, canceled, false, NoError, false, false)]
    && t.limiters == s.limiters[b := l.(queue := l.queue + [x], ready := l.running < l.max)]
    && t.running == s.running && t.events == s.events && t.bots == s.bots && t.max == s.max && t.closed == s.closed
    && t.ready == if l.ready || l.running == l.max then s.ready else s.ready + [b]
  }

  /** With the lock free, a Bot that has room has nothing queued, and no Bot is ready. */
  lemma RoomIsImmediate(s: State, b: nat)
    requires Settled(s) && b < |s.limiters| && !s.limiters[b].closed && !s.closed
    ensures Immediate(s, s.limiters[b]) <==> HasRoom(s, b)
    ensures s.limiters[b].running <= s.limiters[b].max && s.running <= s.max && |s.limiters[b].queue| <= s.limiters[b].maxQueued
    ensures s.limiters[b].ready ==> s.limiters[b].running < s.limiters[b].max
  {
    assert LimiterOk(s, b);
  }

  lemma RoomGrants(s: State, b: nat, canceled: bool)
    requires Settled(s) && b < |s.limiters| && !s.limiters[b].closed && !s.closed && HasRoom(s, b)
    ensures GrantedAtOnce(s, Acquire(s, b, canceled), b, canceled)
  {
    RoomIsImmediate(s, b);
    var t := MarkReady(Enqueue(s, b, canceled), b);
    EnqueueCore(s, b, canceled);
    EnqueuedIs(s, b, canceled);
    hide MarkReady;
    hide Enqueue;
    assert LimiterOk(s, b);
    ImmediateTurn(s, t, b, canceled);
    TurnServes(t);
    hide Core;
    hide LimiterOk;
    hide Turn;
    ServedAtOnce(s, t, Turn(t), b, canceled);
    DispatchTurn(t);
    NothingReady(Turn(t));
    hide Dispatch;
  }

  lemma NothingReady(s: State)
    requires !CanDispatch(s)
    ensures Dispatch(s) == s
  {
  }

  lemma ServedAtOnce(s: State, t: State, u: State, b: nat, canceled: bool)
    requires b < |s.limiters| && Immediate(s, s.limiters[b]) && !s.limiters[b].ready
    requires IsEnqueued(s, t, b, canceled) && t.ready == [b] && IsServed(t, u, b)
    ensures GrantedAtOnce(s, u, b, canceled) && !CanDispatch(u)
  {
    assert [b][1..] == [];
  }

  lemma NoRoomQueues(s: State, b: nat, canceled: bool)
    requires Settled(s) && b < |s.limiters| && !s.limiters[b].closed && !s.closed && !HasRoom(s, b)
    requires |s.limiters[b].queue| < s.limiters[b].maxQueued
    ensures QueuedLast(s, Acquire(s, b, canceled), b, canceled)
  {
    RoomIsImmediate(s, b);
    var t := MarkReady(Enqueue(s, b, canceled), b);
    EnqueuedIs(s, b, canceled);
    assert LimiterOk(s, b);
    hide MarkReady;
    hide Enqueue;
    assert !CanDispatch(t);
    NothingReady(t);
    hide Dispatch;
  }

  /** A request of an open Bot is refused exactly if its queue is full and it has no room. Otherwise it
      is granted at once, or reported canceled, exactly if there is room, and else waits last in line. */
  lemma AcquireDecides(s: State, b: nat, canceled: bool)
    requires Settled(s) && b < |s.limiters| && !s.limiters[b].closed && !s.closed
    ensures var t, l := Acquire(s, b, canceled), s.limiters[b];
            var full := |l.queue| == l.maxQueued && (s.running == s.max || l.running == l.max);
            && (!Accepts(s, b) <==> full) && (HasRoom(s, b) <==> s.running != s.max && l.running != l.max)
            && if full then t == s
               else if HasRoom(s, b) then GrantedAtOnce(s, t, b, canceled)
               else QueuedLast(s, t, b, canceled)
  {
    RoomIsImmediate(s, b);
    if HasRoom(s, b) {
      RoomGrants(s, b, canceled);
    } else if |s.limiters[b].queue| < s.limiters[b].maxQueued {
      NoRoomQueues(s, b, canceled);
    }
    hide Settled;
  }

  // ---- The state is what its slots say ----

  /** A Bot's running slots are exactly those granted and not released, and its queue holds exactly
      its undecided slots, in Acquire order. */
  lemma SlotsTellAll(s: State, b: nat)
    requires Settled(s) && b < |s.limiters|
    ensures var l := s.limiters[b];
            && l.active == (set i | 0 <= i < |s.slots| && s.slots[i].owner == b && s.slots[i].granted && !s.slots[i].released)
            && l.running == |l.active| && Ascending(l.queue)
            && (forall i :: i in l.queue <==> 0 <= i < |s.slots| && s.slots[i].owner == b && !Resolved(s.slots[i]))
  {
    assert LimiterOk(s, b);
    var l := s.limiters[b];
    forall i | 0 <= i < |s.slots| && s.slots[i].owner == b
      ensures (i in l.active <==> s.slots[i].granted && !s.slots[i].released) && (i in l.queue <==> !Resolved(s.slots[i]))
    {
      assert SlotOk(s, i);
      assert i in l.active ==> ActiveSlot(s.slots, b, i);
      assert i in l.queue ==> QueuedSlot(s.slots, b, i);
    }
    forall i | i in l.active ensures i < |s.slots| && s.slots[i].owner == b {
      assert ActiveSlot(s.slots, b, i);
    }
    forall i | i in l.queue ensures i < |s.slots| && s.slots[i].owner == b {
      assert QueuedSlot(s.slots, b, i);
    }
  }

  // ---- What a step does to one slot ----

  /** Dispatch decides open slots: a canceled one is told so, any other is granted. */
  predicate DispatchedSlot(x: Slot, y: Slot) {
    y == x || (!Resolved(x) && y == if x.canceled then x.(err := Canceled, signaled := true) else x.(granted := true, signaled := true))
  }

  lemma TurnOnSlots(s: State)
    requires Core(s) && CanDispatch(s) && s.ready[0] < |s.limiters|
    ensures |Turn(s).slots| == |s.slots|
    ensures forall i :: 0 <= i < |s.slots| ==> DispatchedSlot(s.slots[i], Turn(s).slots[i])
  {
    var b := s.ready[0];
    if s.limiters[b].queue != [] {
      TurnServes(s);
      assert LimiterOk(s, b);
      assert s.limiters[b].queue[0] in s.limiters[b].queue;
      assert QueuedSlot(s.slots, b, s.limiters[b].queue[0]);
      hide Turn;
      hide Core;
      hide LimiterOk;
      hide ServedLimiter;
    }
  }

  lemma DispatchedOnce(x: Slot, y: Slot, z: Slot)
    requires DispatchedSlot(x, y) && DispatchedSlot(y, z)
    ensures DispatchedSlot(x, z)
  {
  }

  lemma {:induction false} DispatchOnSlots(s: State)
    requires Core(s)
    ensures |Dispatch(s).slots| == |s.slots|
    ensures forall i :: 0 <= i < |s.slots| ==> DispatchedSlot(s.slots[i], Dispatch(s).slots[i])
    decreases QueuedSlots(s.limiters), |s.ready|
  {
    if CanDispatch(s) {
      TurnCore(s);
      TurnShrinks(s);
      TurnOnSlots(s);
      hide Turn;
      hide Core;
      hide DispatchedSlot;
      DispatchOnSlots(Turn(s));
      forall i | 0 <= i < |s.slots| ensures DispatchedSlot(s.slots[i], Dispatch(s).slots[i]) {
        DispatchedOnce(s.slots[i], Turn(s).slots[i], Dispatch(s).slots[i]);
      }
    }
  }

  /** Closing a Bot fails its waiting slots and cancels its running ones. */
  function StoppedSlot(x: Slot): Slot {
    if !Resolved(x) then x.(err := SchedulerClosed, canceled := true, signaled := true)
    else if x.granted && !x.released then x.(canceled := true)
    else x
  }

  lemma CloseOnSlots(s: State, b: nat)
    requires Core(s) && b < |s.limiters|
    ensures |CloseLimiter(s, b).slots| == |s.slots|
    ensures forall i :: 0 <= i < |s.slots| ==>
      CloseLimiter(s, b).slots[i]
      == if s.slots[i].owner == b && !s.limiters[b].closed then StoppedSlot(s.slots[i]) else s.slots[i]
  {
    if !s.limiters[b].closed {
      assert LimiterOk(s, b);
      CloseIs(s, b);
      hide CloseLimiter;
      var l := s.limiters[b];
      forall i | 0 <= i < |s.slots|
        ensures ClosedSlot(l, i, s.slots[i]) == if s.slots[i].owner == b then StoppedSlot(s.slots[i]) else s.slots[i]
      {
        assert SlotOk(s, i);
        assert i in l.queue ==> QueuedSlot(s.slots, b, i);
        assert i in l.active ==> ActiveSlot(s.slots, b, i);
      }
      hide Core;
      hide ClosedSlot;
    }
  }

  lemma {:induction false} CloseEachOnSlots(s: State, order: seq<nat>)
    requires Core(s) && Bounded(s) && forall b :: b in order ==> b < |s.limiters|
    ensures |CloseEach(s, order).slots| == |s.slots|
    ensures forall i :: 0 <= i < |s.slots| ==>
      && s.slots[i].owner < |s.limiters|
      && CloseEach(s, order).slots[i]
         == if s.slots[i].owner in order && !s.limiters[s.slots[i].owner].closed then StoppedSlot(s.slots[i]) else s.slots[i]
    decreases |order|
  {
    OwnersExist(s);
    if order != [] {
      assert order == [order[0]] + order[1..] && order[0] in order;
      assert forall b :: b in order[1..] ==> b in order;
      var t := CloseLimiter(s, order[0]);
      CloseCore(s, order[0]);
      CloseOnSlots(s, order[0]);
      hide CloseLimiter;
      hide Core;
      hide Bounded;
      CloseEachOnSlots(t, order[1..]);
    }
  }

  lemma OwnersExist(s: State)
    requires Core(s)
    ensures forall i :: 0 <= i < |s.slots| ==> s.slots[i].owner < |s.limiters|
  {
    forall i | 0 <= i < |s.slots| ensures s.slots[i].owner < |s.limiters| {
      assert SlotOk(s, i);
    }
  }

  /** The step closes the open Bot b. */
  predicate Stops(s: State, a: Action, b: nat) {
    b < |s.limiters| && !s.limiters[b].closed && (a == Stop(b) || (a.StopAll? && Enabled(s, a)))
  }

  /** Slot i before dispatch: only its own cancellation, withdrawal, release or its Bot's end touch it. */
  function EnteredSlot(s: State, a: Action, i: nat): Slot
    requires i < |s.slots|
  {
    var x := s.slots[i];
    if Stops(s, a, x.owner) then StoppedSlot(x)
    else if a == Cancel(i) then x.(canceled := true)
    else if a == Leave(i) && x.canceled && !Resolved(x) then x.(err := Canceled)
    else if a == Action.Done(i) && x.granted && !x.released then x.(canceled := true, released := true)
    else x
  }

  /** The region up to its dispatch does to each slot what EnteredSlot says; only a request adds one,
      undecided. */
  predicate OnSlots(s: State, a: Action, t: State) {
    && |s.slots| <= |t.slots| && (forall i :: 0 <= i < |s.slots| ==> t.slots[i] == EnteredSlot(s, a, i))
    && (|t.slots| > |s.slots| ==>
          a.Request? && |t.slots| == |s.slots| + 1 && t.slots[|s.slots|] == Slot(a.bot, a.canceled, false, NoError, false, false))
  }

  lemma EnteredOnSlots(s: State, a: Action)
    requires Settled(s)
    ensures OnSlots(s, a, Entered(s, a))
  {
    hide Settled;
    hide OnSlots;
    hide Entered;
    match a
    case Stop(b) => StopOnSlots(s, b);
    case StopAll(order) => StopAllOnSlots(s, order);
    case Done(slot) => DoneOnSlots(s, slot);
    case _ => PlainOnSlots(s, a);
  }

  lemma PlainOnSlots(s: State, a: Action)
    requires Settled(s) && (a.NewBot? || a.Request? || a.Cancel? || a.Leave?)
    ensures OnSlots(s, a, Entered(s, a))
  {
    hide Settled;
    hide Accepts;
    hide Without;
    forall i | 0 <= i < |s.slots| ensures s.slots[i].owner < |s.limiters| {
      OwnerExists(s, i);
    }
  }

  lemma DoneOnSlots(s: State, slot: nat)
    requires Settled(s)
    ensures OnSlots(s, Action.Done(slot), Entered(s, Action.Done(slot)))
  {
    hide GivenBack;
    hide ReleasedLimiter;
    if Releases(s, slot) {
      GivenBackIs(s, slot);
    }
    hide Settled;
    forall i | 0 <= i < |s.slots| ensures s.slots[i].owner < |s.limiters| {
      OwnerExists(s, i);
    }
  }

  lemma StopOnSlots(s: State, b: nat)
    requires Settled(s)
    ensures OnSlots(s, Stop(b), Entered(s, Stop(b)))
  {
    hide CloseLimiter;
    hide Core;
    if b < |s.limiters| {
      CloseOnSlots(s, b);
    } else {
      ClosesNothing(s, b);
    }
    forall i | 0 <= i < |s.slots| ensures s.slots[i].owner < |s.limiters| {
      OwnerExists(s, i);
    }
  }

  lemma ClosesNothing(s: State, b: nat)
    requires b >= |s.limiters|
    ensures CloseLimiter(s, b) == s
  {
  }

  lemma SettledParts(s: State)
    requires Settled(s)
    ensures Core(s) && Bounded(s)
  {
  }

  lemma OpenIsListed(s: State, order: seq<nat>)
    requires Settled(s) && Enabled(s, StopAll(order))
    ensures forall b :: 0 <= b < |s.limiters| && !s.limiters[b].closed ==> b in order
    ensures forall b :: b in order ==> b < |s.limiters|
  {
    forall b | 0 <= b < |s.limiters| && !s.limiters[b].closed ensures b in order {
      assert LimiterOk(s, b);
    }
  }

  lemma StopAllOnSlots(s: State, order: seq<nat>)
    requires Settled(s)
    ensures OnSlots(s, StopAll(order), Entered(s, StopAll(order)))
  {
    hide CloseEach;
    hide Core;
    hide Settled;
    hide Bounded;
    hide StoppedSlot;
    if Enabled(s, StopAll(order)) {
      SettledParts(s);
      CloseEachCore(s, order);
      CloseEachOnSlots(s, order);
      OpenIsListed(s, order);
    }
  }

  /** The exact life of a slot: what every step makes of it. Its own cancellation, withdrawal and
      release and the closing of its Bot do what they say; besides, only dispatch decides it. */
  lemma StepOnSlot(s: State, a: Action, i: nat)
    requires Settled(s) && i < |s.slots|
    ensures i < |Step(s, a).slots|
    ensures var x, y := s.slots[i], Step(s, a).slots[i];
            && DispatchedSlot(EnteredSlot(s, a, i), y) && y.owner == x.owner
            && (Resolved(x) ==> y.granted == x.granted && y.err == x.err)
            && (!Resolved(x) && y.granted ==> !x.canceled && !Stops(s, a, x.owner))
            && (!Resolved(x) && y.err == Canceled ==> x.canceled || a == Cancel(i))
            && (!Resolved(x) ==> (y.err == SchedulerClosed <==> Stops(s, a, x.owner)))
            && (y.canceled && !x.canceled ==> a == Cancel(i) || a == Action.Done(i) || Stops(s, a, x.owner))
            && (x.released ==> y.released) && (y.released && !x.released ==> a == Action.Done(i) && x.granted)
  {
    hide Settled;
    hide Step;
    hide Entered;
    hide Stops;
    hide Dispatch;
    EnteredOnSlots(s, a);
    EnteredCore(s, a);
    StepDispatches(s, a);
    DispatchOnSlots(Entered(s, a));
  }

  // ---- Who can have canceled a request ----

  /** The request of slot i came with a done context, or its caller canceled it later. */
  predicate CallerCanceled(maxConcurrent: int, actions: seq<Action>, i: nat) {
    || Cancel(i) in actions
    || exists j :: 0 <= j < |actions| && actions[j].Request? && actions[j].canceled && |Run(NewState(maxConcurrent), actions[..j]).slots| == i
  }

  lemma EarlierCanceled(maxConcurrent: int, actions: seq<Action>, i: nat)
    requires actions != [] && CallerCanceled(maxConcurrent, actions[..|actions| - 1], i)
    ensures CallerCanceled(maxConcurrent, actions, i)
  {
    var front := actions[..|actions| - 1];
    hide Run;
    if !(Cancel(i) in front) {
      var j :| 0 <= j < |front| && front[j].Request? && front[j].canceled && |Run(NewState(maxConcurrent), front[..j]).slots| == i;
      assert front[..j] == actions[..j];
    }
  }

  /** A slot that was not there before: its request was accepted just now. */
  lemma NewSlot(s: State, a: Action, i: nat)
    requires Settled(s) && |s.slots| <= i < |Step(s, a).slots|
    ensures a.Request? && i == |s.slots| && Step(s, a).slots[i].canceled == a.canceled
    ensures Step(s, a).slots[i].err != SchedulerClosed && (Step(s, a).slots[i].err == Canceled ==> a.canceled)
  {
    hide Settled;
    hide Core;
    hide Step;
    hide Entered;
    hide Dispatch;
    hide EnteredSlot;
    EnteredOnSlots(s, a);
    EnteredCore(s, a);
    StepDispatches(s, a);
    DispatchOnSlots(Entered(s, a));
  }

  /** Over every run, a request that was told it is canceled, or stands canceled and undecided, was
      canceled by its own caller; one told that the scheduler is closed belongs to a closed Bot. */
  lemma {:induction false} RefusedForCause(maxConcurrent: int, actions: seq<Action>, i: nat)
    requires i < |Run(NewState(maxConcurrent), actions).slots|
    ensures var s := Run(NewState(maxConcurrent), actions);
            && (s.slots[i].err == Canceled || (s.slots[i].canceled && !Resolved(s.slots[i])) ==> CallerCanceled(maxConcurrent, actions, i))
            && (s.slots[i].err == SchedulerClosed ==>
                  s.slots[i].owner < |s.limiters| && s.limiters[s.slots[i].owner].closed)
  {
    hide Step;
    hide Settled;
    hide CallerCanceled;
    NewSettled(maxConcurrent);
    var front, a := actions[..|actions| - 1], actions[|actions| - 1];
    var s := Run(NewState(maxConcurrent), front);
    var t := Step(s, a);
    RunSettled(NewState(maxConcurrent), front);
    if i < |s.slots| {
      RefusedForCause(maxConcurrent, front, i);
      OwnerExists(s, i);
      StepOnSlot(s, a, i);
      ClosedStays(s, a, s.slots[i].owner);
      if a == Cancel(i) {
        CanceledNow(maxConcurrent, actions, i);
      } else if CallerCanceled(maxConcurrent, front, i) {
        EarlierCanceled(maxConcurrent, actions, i);
      }
    } else {
      NewSlot(s, a, i);
      if a.canceled {
        CanceledNow(maxConcurrent, actions, i);
      }
    }
  }

  lemma CanceledNow(maxConcurrent: int, actions: seq<Action>, i: nat)
    requires actions != []
    requires var last := |actions| - 1;
             || actions[last] == Cancel(i)
             || (actions[last].Request? && actions[last].canceled && |Run(NewState(maxConcurrent), actions[..last]).slots| == i)
    ensures CallerCanceled(maxConcurrent, actions, i)
  {
    hide Run;
  }

  /** A Bot that is closed, or that the step closes, is closed afterwards. */
  lemma ClosedStays(s: State, a: Action, b: nat)
    requires Settled(s) && b < |s.limiters|
    ensures s.limiters[b].closed || Stops(s, a, b) ==> b < |Step(s, a).limiters| && Step(s, a).limiters[b].closed
  {
    hide Settled;
    hide Step;
    if s.limiters[b].closed {
      StepSparesClosed(s, a, b);
    } else if Stops(s, a, b) {
      if a.StopAll? {
        StoppedAll(s, a.order, b);
      } else {
        StoppedOne(s, b);
      }
    }
  }

  lemma StoppedOne(s: State, b: nat)
    requires Settled(s) && b < |s.limiters|
    ensures b < |Step(s, Stop(b)).limiters| && Step(s, Stop(b)).limiters[b].closed
  {
    hide CloseLimiter;
    hide Core;
    hide Dispatch;
    CloseCore(s, b);
    DispatchSparesClosed(CloseLimiter(s, b), b);
  }

  lemma StoppedAll(s: State, order: seq<nat>, b: nat)
    requires Settled(s) && b < |s.limiters| && Stops(s, StopAll(order), b)
    ensures b < |Step(s, StopAll(order)).limiters| && Step(s, StopAll(order)).limiters[b].closed
  {
    hide CloseEach;
    hide Core;
    hide Settled;
    SettledParts(s);
    CloseEachCore(s, order);
    OpenIsListed(s, order);
  }

  lemma OwnerExists(s: State, i: nat)
    requires Settled(s) && i < |s.slots|
    ensures s.slots[i].owner < |s.limiters|
  {
    OwnersExist(s);
    hide Core;
  }
}
