/** The scheduler as the object its callers share: every method is one region under the lock and is
    proved to compute the region of module Scheduler. */
module ExecutionSchedulers {
  import opened Scheduler
  import opened SchedulerInvariant
  import opened SchedulerSteps
  import opened SchedulerRequests

  datatype Refusal = ContextDone | Closed | QueueFull
  datatype Outcome = Refused(why: Refusal) | Waiting(slot: nat)

  lemma {:induction false} WithoutAt(list: seq<nat>, x: nat, i: nat)
    requires i <= |list| && (forall j :: 0 <= j < i ==> list[j] != x) && (i < |list| ==> list[i] == x)
    ensures Without(list, x) == if i < |list| then list[..i] + list[i + 1..] else list
  {
    if i > 0 {
      WithoutAt(list[1..], x, i - 1);
      assert list == [list[0]] + list[1..];
      if i < |list| {
        assert list[..i] == [list[0]] + list[1..][..i - 1];
        assert list[i + 1..] == list[1..][i..];
      }
    }
  }

  /** Removes the first occurrence of x, shifting the rest down. */
  method RemoveFirst(list: seq<nat>, x: nat) returns (r: seq<nat>)
    ensures r == Without(list, x)
  {
    for i := 0 to |list|
      invariant forall j :: 0 <= j < i ==> list[j] != x
    {
      if list[i] == x {
        WithoutAt(list, x, i);
        return list[..i] + list[i + 1..];
      }
    }
    WithoutAt(list, x, |list|);
    r := list;
  }

  lemma HeadIsQueued(s: State, b: nat)
    requires Core(s) && b < |s.limiters| && s.limiters[b].queue != []
    ensures QueuedSlot(s.slots, b, s.limiters[b].queue[0])
  {
    assert LimiterOk(s, b);
    assert s.limiters[b].queue[0] in s.limiters[b].queue;
  }

  /** Dispatch decides open slots only: a decided slot stays exactly as it is. */
  lemma {:induction false} DispatchKeepsDecided(s: State, x: nat)
    requires Core(s) && x < |s.slots| && Resolved(s.slots[x])
    ensures x < |Dispatch(s).slots| && Dispatch(s).slots[x] == s.slots[x]
    decreases QueuedSlots(s.limiters), |s.ready|
  {
    if CanDispatch(s) {
      TurnCore(s);
      TurnShrinks(s);
      if s.limiters[s.ready[0]].queue != [] {
        TurnServes(s);
        HeadIsQueued(s, s.ready[0]);
      }
      hide Turn;
      hide Core;
      DispatchKeepsDecided(Turn(s), x);
    }
  }

  lemma QueueIsOpen(s: State, b: nat)
    requires Unflagged(s) && b < |s.limiters|
    ensures Ascending(s.limiters[b].queue) && forall x :: x in s.limiters[b].queue ==> x < |s.slots| && !s.slots[x].signaled
    ensures forall x :: x in s.limiters[b].active ==> x < |s.slots|
  {
    assert LimiterOk(s.(closed := false), b);
    forall x | x in s.limiters[b].queue ensures x < |s.slots| && !s.slots[x].signaled {
      assert QueuedSlot(s.slots, b, x);
    }
    forall x | x in s.limiters[b].active ensures x < |s.slots| {
      assert ActiveSlot(s.slots, b, x);
    }
  }

  /** Core without regard to the scheduler's closed flag, which Close sets first. */
  ghost predicate Unflagged(s: State) {
    Core(s.(closed := false)) && Bounded(s)
  }

  lemma SettledUnflagged(s: State)
    requires Settled(s)
    ensures Unflagged(s)
  {
    var t := s.(closed := false);
    forall b | 0 <= b < |t.limiters| ensures LimiterOk(t, b) {
      assert LimiterOk(s, b);
    }
    forall i | 0 <= i < |t.slots| ensures SlotOk(t, i) {
      assert SlotOk(s, i);
    }
  }

  lemma BotsRegistered(s: State)
    requires Settled(s)
    ensures forall id :: id in s.bots ==> s.bots[id] < |s.limiters| && s.limiters[s.bots[id]].id == id
  {
  }

  lemma CloseUnflagged(s: State, b: nat)
    requires Unflagged(s)
    ensures Unflagged(CloseLimiter(s, b)) && |CloseLimiter(s, b).limiters| == |s.limiters|
  {
    var t := s.(closed := false);
    CloseCore(t, b);
    CloseIgnoresFlag(t, b);
    hide Core;
    assert CloseLimiter(s, b).(closed := false) == CloseLimiter(t, b);
  }

  lemma {:induction false} CloseEachAppend(s: State, order: seq<nat>, b: nat)
    ensures CloseEach(s, order + [b]) == CloseLimiter(CloseEach(s, order), b)
    decreases |order|
  {
    hide CloseLimiter;
    if order != [] {
      assert (order + [b])[1..] == order[1..] + [b];
      CloseEachAppend(CloseLimiter(s, order[0]), order[1..], b);
    } else {
      assert order + [b] == [b] && [b][1..] == [];
      assert CloseEach(CloseLimiter(s, b), []) == CloseLimiter(s, b);
    }
  }

  class ExecutionScheduler {
    var max: nat
    var running: int
    var closed: bool
    var bots: map<string, nat>
    var ready: seq<nat>
    var limiters: seq<Limiter>
    var slots: seq<Slot>
    ghost var events: seq<Event>

    ghost function View(): State
      reads this
    {
      State(max, running, closed, bots, ready, limiters, slots, events)
    }

    ghost predicate Valid()
      reads this
    {
      Settled(View())
    }

    constructor (maxConcurrent: int)
      ensures View() == NewState(maxConcurrent) && Valid()
    {
      max := if maxConcurrent < 1 then 1 else maxConcurrent;
      running, closed, bots, ready, limiters, slots, events := 0, false, map[], [], [], [], [];
    }

    method ForBot(id: string, maxConcurrent: int, maxQueued: int) returns (b: nat)
      requires Valid()
      modifies this
      ensures Valid() && View() == Scheduler.ForBot(old(View()), id, maxConcurrent, maxQueued)
      ensures b < |limiters| && limiters[b].id == id
      ensures if id in old(bots) then b == old(bots[id]) else b == old(|limiters|)
      ensures id !in old(bots) ==>
                && limiters == old(limiters) + [Limiter(id, if maxConcurrent < 1 then 1 else maxConcurrent,
                                                        if maxQueued < 0 then 0 else maxQueued, 0, closed, false, [], {}, closed)]
                && bots == if closed then old(bots) else old(bots)[id := b]
      ensures id in old(bots) ==> View() == old(View())
    {
      ForBotSettled(View(), id, maxConcurrent, maxQueued);
      if id in bots {
        return bots[id];
      }
      b := |limiters|;
      var l := Limiter(id, if maxConcurrent < 1 then 1 else maxConcurrent, if maxQueued < 0 then 0 else maxQueued,
                       0, false, false, [], {}, false);
      if closed {
        l := l.(closed := true, finished := true);
      } else {
        bots := bots[id := b];
      }
      limiters := limiters + [l];
    }

    method AppendReady(b: nat)
      requires b < |limiters|
      modifies `limiters, `ready
      ensures View() == MarkReady(old(View()), b)
    {
      var l := limiters[b];
      if !l.ready && !l.closed && |l.queue| > 0 && l.running < l.max {
        limiters := limiters[b := l.(ready := true)];
        ready := ready + [b];
      }
    }

    /** Closes the slot's ready channel; closing it twice would panic. */
    method Signal(x: nat)
      requires x < |slots| && !slots[x].signaled
      modifies `slots
      ensures slots == old(slots)[x := old(slots)[x].(signaled := true)]
    {
      slots := slots[x := slots[x].(signaled := true)];
    }

    method ServeNext(b: nat)
      requires Servable(View(), b) && QueuedSlot(slots, b, limiters[b].queue[0])
      modifies `limiters, `slots, `running, `ready, `events
      ensures View() == MarkReady(ServeHead(old(View()), b), b)
    {
      var l := limiters[b];
      var x := l.queue[0];
      var rest := RemoveFirst(l.queue, x);
      if slots[x].canceled {
        limiters := limiters[b := l.(queue := rest)];
        slots := slots[x := slots[x].(err := Canceled)];
        Signal(x);
        events := events + [Skipped(b, x)];
      } else {
        slots := slots[x := slots[x].(granted := true)];
        limiters := limiters[b := l.(queue := rest, active := l.active + {x}, running := l.running + 1)];
        running := running + 1;
        Signal(x);
        events := events + [Granted(b, x)];
      }
      assert View() == ServeHead(old(View()), b);
      AppendReady(b);
    }

    /** One round: the first ready Bot leaves the list and gets at most one slot. */
    method TakeTurn()
      requires Core(View()) && CanDispatch(View()) && ready[0] < |limiters|
      modifies `limiters, `slots, `running, `ready, `events
      ensures View() == Turn(old(View()))
    {
      ghost var before := View();
      ReadyHead(before);
      var b := ready[0];
      if limiters[b].queue != [] {
        HeadIsQueued(before, b);
      }
      hide Core;
      ready := ready[1..];
      limiters := limiters[b := limiters[b].(ready := false)];
      events := events + [Popped(b)];
      assert View() == PopReady(before);
      if limiters[b].closed || limiters[b].running >= limiters[b].max || |limiters[b].queue| == 0 {
        return;
      }
      ServeNext(b);
    }

    /** Grants from the head of the ready list until the scheduler is full or nothing is ready. */
    method DispatchReady()
      requires Core(View())
      modifies `limiters, `slots, `running, `ready, `events
      ensures View() == Dispatch(old(View()))
    {
      while !closed && running < max && |ready| > 0
        invariant Core(View()) && Dispatch(View()) == Dispatch(old(View()))
        decreases QueuedSlots(limiters), |ready|
      {
        TurnCore(View());
        TurnShrinks(View());
        hide Turn;
        ReadyHead(View());
        TakeTurn();
      }
    }

    /** Acquire up to the wait. The context may be canceled before the call or while the caller
        waits for the lock. */
    method Acquire(b: nat, done: bool, canceled: bool) returns (r: Outcome)
      requires Valid() && b < |limiters|
      modifies `limiters, `slots, `running, `ready, `events
      ensures Valid() && View() == if r.Waiting? then Scheduler.Acquire(old(View()), b, canceled) else old(View())
      ensures r == if done then Refused(ContextDone)
                   else if old(limiters[b].closed || closed) then Refused(Closed)
                   else if old(|limiters[b].queue| == limiters[b].maxQueued && (running == max || limiters[b].running == limiters[b].max))
                     then Refused(QueueFull)
                   else Waiting(old(|slots|))
      ensures r.Waiting? ==>
                if old(running < max && limiters[b].running < limiters[b].max) then GrantedAtOnce(old(View()), View(), b, canceled)
                else QueuedLast(old(View()), View(), b, canceled)
    {
      if done {
        return Refused(ContextDone);
      }
      var l := limiters[b];
      if l.closed || closed {
        return Refused(Closed);
      }
      AcquireDecides(View(), b, canceled);
      hide GrantedAtOnce;
      hide QueuedLast;
      var immediate := running < max && l.running < l.max && |l.queue| == 0 && |ready| == 0;
      if !immediate && |l.queue| >= l.maxQueued {
        return Refused(QueueFull);
      }
      AcquireSettled(View(), b, canceled);
      EnqueueCore(View(), b, canceled);
      r := Waiting(|slots|);
      limiters := limiters[b := l.(queue := l.queue + [|slots|])];
      slots := slots + [Slot(b, canceled, false, NoError, false, false)];
      assert View() == Enqueue(old(View()), b, canceled);
      AppendReady(b);
      DispatchReady();
    }

    method Cancel(x: nat)
      requires Valid() && x < |slots|
      modifies `slots
      ensures Valid() && View() == CancelContext(old(View()), x)
      ensures slots == old(slots)[x := old(slots)[x].(canceled := true)]
    {
      CancelSettled(View(), x);
      slots := slots[x := slots[x].(canceled := true)];
    }

    /** The waiting caller saw its context end first. */
    method Leave(x: nat)
      requires Valid() && x < |slots| && slots[x].canceled
      modifies `limiters, `slots, `running, `ready, `events
      ensures Valid() && View() == Abandon(old(View()), x)
      ensures x < |slots| && Resolved(slots[x])
    {
      assert SlotOk(View(), x);
      AbandonSettled(View(), x);
      WithdrawCore(View(), x);
      var b := slots[x].owner;
      if !slots[x].granted && slots[x].err == NoError {
        var rest := RemoveFirst(limiters[b].queue, x);
        limiters := limiters[b := limiters[b].(queue := rest)];
        slots := slots[x := slots[x].(err := Canceled, canceled := true)];
      }
      assert View() == Withdraw(old(View()), x);
      DispatchKeepsDecided(View(), x);
      DispatchReady();
    }

    method UnregisterFinished(b: nat)
      requires b < |limiters|
      modifies `limiters, `bots
      ensures View() == FinishClose(old(View()), b)
    {
      var l := limiters[b];
      if l.closed && l.running == 0 {
        if l.id in bots && bots[l.id] == b {
          bots := bots - {l.id};
        }
        limiters := limiters[b := l.(finished := true)];
      }
    }

    /** The slot's run is over: its Bot may become ready again, or finish closing. */
    method ReturnSlot(x: nat)
      requires x < |slots| && slots[x].owner < |limiters|
      modifies `limiters, `slots, `running, `ready, `bots
      ensures View() == GivenBack(old(View()), x)
    {
      var b := slots[x].owner;
      var l := limiters[b];
      slots := slots[x := slots[x].(canceled := true, released := true)];
      limiters := limiters[b := l.(active := l.active - {x}, running := l.running - 1)];
      running := running - 1;
      assert View() == GiveBack(old(View()), x);
      AppendReady(b);
      UnregisterFinished(b);
    }

    /** The release function of a granted slot, guarded by its once. */
    method Release(x: nat)
      requires Valid() && x < |slots| && slots[x].granted
      modifies `limiters, `slots, `running, `ready, `events, `bots
      ensures Valid() && View() == Scheduler.Release(old(View()), x)
      ensures x < |slots| && slots[x].released
    {
      assert SlotOk(View(), x);
      if slots[x].released {
        return;
      }
      ReleaseSettled(View(), x);
      GiveBackCore(View(), x);
      hide Core;
      hide Settled;
      ReturnSlot(x);
      DispatchKeepsDecided(View(), x);
      DispatchReady();
    }

    /** Acquire after the wait: the slot's verdict, given up at once when its context is done. */
    method Collect(x: nat) returns (run: bool, err: SlotError)
      requires Valid() && x < |slots| && Resolved(slots[x])
      modifies `limiters, `slots, `running, `ready, `events, `bots
      ensures Valid()
      ensures run <==> old(slots[x].granted && !slots[x].canceled)
      ensures run ==> err == NoError && View() == old(View())
      ensures !run ==> err != NoError && View() == if old(slots[x].granted) then Scheduler.Release(old(View()), x)
                                                   else CancelContext(old(View()), x)
    {
      if !slots[x].granted {
        run, err := false, slots[x].err;
        Cancel(x);
        return;
      }
      if slots[x].canceled {
        run, err := false, Canceled;
        Release(x);
        return;
      }
      run, err := true, NoError;
    }

    method FailQueue(queue: seq<nat>)
      requires Ascending(queue) && forall x :: x in queue ==> x < |slots| && !slots[x].signaled
      modifies `slots
      ensures slots == FailQueued(old(slots), queue)
    {
      var i := 0;
      while i < |queue|
        invariant 0 <= i <= |queue| && slots == FailQueued(old(slots), queue[..i])
      {
        var x := queue[i];
        FailQueuedAt(old(slots), queue[..i]);
        assert queue[..i + 1][..i] == queue[..i];
        assert x in queue && x !in queue[..i];
        slots := slots[x := slots[x].(err := SchedulerClosed, canceled := true)];
        Signal(x);
        i := i + 1;
      }
      assert queue[..i] == queue;
    }

    /** Cancels the running slots in no particular order. */
    method CancelRunning(active: set<nat>)
      requires forall x :: x in active ==> x < |slots|
      modifies `slots
      ensures slots == CancelActive(old(slots), active)
    {
      var rest := active;
      while rest != {}
        invariant rest <= active && slots == CancelActive(old(slots), active - rest)
        decreases rest
      {
        var x :| x in rest;
        slots := slots[x := slots[x].(canceled := true)];
        rest := rest - {x};
      }
      assert active - rest == active;
    }

    method CloseLocked(b: nat)
      requires Unflagged(View()) && b < |limiters|
      modifies `limiters, `slots, `ready, `bots
      ensures View() == CloseLimiter(old(View()), b)
    {
      var l := limiters[b];
      if l.closed {
        return;
      }
      QueueIsOpen(View(), b);
      hide Unflagged;
      hide FailQueued;
      hide CancelActive;
      hide Without;
      hide Ascending;
      FailQueue(l.queue);
      CancelRunning(l.active);
      if l.ready {
        ready := RemoveFirst(ready, b);
      }
      limiters := limiters[b := l.(closed := true, queue := [], ready := false)];
      UnregisterFinished(b);
    }

    /** Closes one Bot's limiter, before waiting for its released slots. */
    method CloseBot(b: nat)
      requires Valid() && b < |limiters|
      modifies `limiters, `slots, `running, `ready, `events, `bots
      ensures Valid() && View() == Scheduler.CloseBot(old(View()), b)
    {
      CloseBotSettled(View(), b);
      SettledUnflagged(View());
      CloseCore(View(), b);
      CloseLocked(b);
      DispatchReady();
    }

    /** Closes every limiter in the registry, in no particular order. */
    method CloseRegistered() returns (order: seq<nat>)
      requires Unflagged(View()) && forall id :: id in bots ==> bots[id] < |limiters| && limiters[bots[id]].id == id
      modifies `limiters, `slots, `ready, `bots
      ensures View() == CloseEach(old(View()), order)
      ensures forall id :: id in old(bots) ==> old(bots[id]) in order
      ensures forall b :: b in order ==> b < old(|limiters|) && old(limiters[b].id in bots) && old(bots[limiters[b].id]) == b
    {
      hide Unflagged;
      hide CloseLimiter;
      ghost var start := View();
      var registered := bots;
      order := [];
      assert CloseEach(start, []) == start;
      hide CloseEach;
      var todo := registered.Keys;
      while todo != {}
        invariant todo <= registered.Keys && Unflagged(View()) && |limiters| == |start.limiters|
        invariant View() == CloseEach(start, order)
        invariant forall id :: id in registered.Keys - todo ==> registered[id] in order
        invariant forall b :: b in order ==> b < |start.limiters| && start.limiters[b].id in registered && registered[start.limiters[b].id] == b
        decreases todo
      {
        var id :| id in todo;
        CloseUnflagged(View(), registered[id]);
        CloseEachAppend(start, order, registered[id]);
        CloseLocked(registered[id]);
        order := order + [registered[id]];
        todo := todo - {id};
      }
    }

    /** Closes the scheduler; the returned limiters are the ones whose last release it waits for. */
    method Close() returns (order: seq<nat>)
      requires Valid()
      modifies this
      ensures Enabled(old(View()), StopAll(order))
      ensures Valid() && View() == CloseAll(old(View()), order)
    {
      ghost var start := View();
      SettledUnflagged(start);
      BotsRegistered(start);
      hide Settled;
      hide Core;
      closed := true;
      order := CloseRegistered();
      ready := [];
      CloseAllSettled(start, order);
    }
  }
}
