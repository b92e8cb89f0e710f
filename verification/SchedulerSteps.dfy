/** Every region under the scheduler's lock keeps the invariant. */
module SchedulerSteps {
  import opened Scheduler
  import opened SchedulerInvariant

  // ---- Dispatch ----

  lemma ReadyHead(s: State)
    requires Core(s) && s.ready != []
    ensures var b := s.ready[0];
            && b < |s.limiters| && s.limiters[b].ready && !s.limiters[b].closed
            && s.limiters[b].running < s.limiters[b].max
            && b !in s.ready[1..] && Distinct(s.ready[1..])
            && (forall c :: c in s.ready[1..] <==> c in s.ready && c != b)
  {
    var b := s.ready[0];
    assert b in s.ready;
    assert LimiterOk(s, b);
    assert s.ready == [b] + s.ready[1..];
  }

  /** The popped Bot has no queue left: only its ready flag changes. */
  lemma PopCore(s: State)
    requires Core(s) && s.ready != [] && s.ready[0] < |s.limiters| && s.limiters[s.ready[0]].queue == []
    ensures Core(PopReady(s))
  {
    var b := s.ready[0];
    var t := PopReady(s);
    ReadyHead(s);
    SumRunningUpdate(s.limiters, b, t.limiters[b]);
    assert LimiterOk(s, b);
    forall i | 0 <= i < |t.slots| && t.slots[i].owner == b ensures SlotOk(t, i) {
      assert SlotOk(s, i);
    }
    CoreAfter(s, t, b);
  }

  lemma TailOfQueue(queue: seq<nat>)
    requires queue != [] && Ascending(queue)
    ensures Ascending(queue[1..]) && queue[0] !in queue[1..]
    ensures forall x :: x in queue <==> x == queue[0] || x in queue[1..]
  {
    assert queue == [queue[0]] + queue[1..];
    forall i | 0 <= i < |queue[1..]| ensures queue[1..][i] != queue[0] {
      assert queue[1..][i] == queue[i + 1];
    }
  }

  /** The slot the head of the queue becomes. */
  function Served(slot: Slot): Slot {
    if slot.canceled then slot.(err := Canceled, signaled := true) else slot.(granted := true, signaled := true)
  }

  lemma HeadIsLeast(queue: seq<nat>, y: nat)
    requires queue != [] && Ascending(queue) && y in queue
    ensures queue[0] <= y
  {
  }

  lemma AscendingAppend(queue: seq<nat>, y: nat)
    requires Ascending(queue) && forall x :: x in queue ==> x < y
    ensures Ascending(queue + [y])
  {
    assert forall i :: 0 <= i < |queue| ==> queue[i] in queue;
  }

  lemma ServeFifo(slots: seq<Slot>, b: nat, queue: seq<nat>)
    requires queue != [] && Ascending(queue) && Fifo(slots)
    requires forall x :: x in queue ==> QueuedSlot(slots, b, x)
    requires forall i :: 0 <= i < |slots| && slots[i].owner == b && !Resolved(slots[i]) ==> i in queue
    requires queue[0] < |slots|
    ensures Fifo(slots[queue[0] := Served(slots[queue[0]])])
  {
    var x := queue[0];
    var after := slots[x := Served(slots[x])];
    assert QueuedSlot(slots, b, x);
    forall i, j | 0 <= i < j < |after| && after[i].owner == after[j].owner && after[j].granted
      ensures Resolved(after[i])
    {
      if j == x && !Resolved(slots[i]) {
        HeadIsLeast(queue, i);
        assert false;
      }
    }
  }

  /** The Bot's record after its head is served. */
  function ServedLimiter(l: Limiter, canceled: bool): Limiter
    requires l.queue != []
  {
    var m := if canceled then l.(queue := l.queue[1..])
             else l.(queue := l.queue[1..], active := l.active + {l.queue[0]}, running := l.running + 1);
    m.(ready := m.queue != [] && m.running < m.max)
  }

  /** t is s after the head of Bot b's queue was served. */
  predicate IsServed(s: State, t: State, b: nat) {
    && b < |s.limiters| && s.limiters[b].queue != [] && s.limiters[b].queue[0] < |s.slots|
    && var x := s.limiters[b].queue[0];
       var m := ServedLimiter(s.limiters[b], s.slots[x].canceled);
       && t.limiters == s.limiters[b := m] && t.slots == s.slots[x := Served(s.slots[x])]
       && t.ready == (if m.ready then s.ready[if s.ready == [] then 0 else 1..] + [b] else s.ready[if s.ready == [] then 0 else 1..])
       && t.running == s.running + (if s.slots[x].canceled then 0 else 1)
       && t.max == s.max && t.closed == s.closed && t.bots == s.bots
       && t.events == s.events + [Popped(b)] + [if s.slots[x].canceled then Skipped(b, x) else Granted(b, x)]
  }

  lemma TurnServes(s: State)
    requires Core(s) && CanDispatch(s) && s.ready[0] < |s.limiters| && s.limiters[s.ready[0]].queue != []
    ensures IsServed(s, Turn(s), s.ready[0])
  {
    ReadyHead(s);
    var b := s.ready[0];
    assert LimiterOk(s, b);
    assert QueuedSlot(s.slots, b, s.limiters[b].queue[0]);
    hide Core;
    hide LimiterOk;
    ServesHead(s, b);
  }

  lemma ServesHead(s: State, b: nat)
    requires s.ready != [] && b == s.ready[0] && b < |s.limiters| && !s.limiters[b].closed
    requires s.limiters[b].queue != [] && s.limiters[b].queue[0] < |s.slots| && s.limiters[b].running < s.limiters[b].max
    ensures IsServed(s, Turn(s), b)
  {
    var h := ServeHead(PopReady(s), b);
    assert h.limiters[b] == ServedLimiter(s.limiters[b], s.slots[s.limiters[b].queue[0]].canceled).(ready := false);
  }

  lemma ServedLimiterOk(s: State, t: State, b: nat)
    requires Core(s) && IsServed(s, t, b) && s.limiters[b].ready && !s.closed
    requires t.limiters[b].ready <==> b in t.ready
    ensures LimiterOk(t, b)
    ensures forall i :: 0 <= i < |t.slots| && t.slots[i].owner == b ==> SlotOk(t, i)
  {
    var l, m := s.limiters[b], t.limiters[b];
    var x := l.queue[0];
    assert LimiterOk(s, b);
    assert QueuedSlot(s.slots, b, x);
    TailOfQueue(l.queue);
    forall y | y in l.active ensures y != x {
      assert ActiveSlot(s.slots, b, y);
    }
    forall y | y in m.queue ensures QueuedSlot(t.slots, b, y) {
      assert y in l.queue;
    }
    forall y | y in m.active ensures ActiveSlot(t.slots, b, y) {
      assert y in l.active || y == x;
    }
    forall i | 0 <= i < |t.slots| && t.slots[i].owner == b ensures SlotOk(t, i) {
      assert SlotOk(s, i);
    }
  }

  lemma ServeGlobal(s: State, t: State, b: nat)
    requires GlobalOk(s) && CanDispatch(s) && b == s.ready[0] && IsServed(s, t, b)
    requires b !in s.ready[1..] && Distinct(s.ready[1..])
    ensures GlobalOk(t)
  {
    SumRunningUpdate(s.limiters, b, t.limiters[b]);
    forall c | c in t.ready ensures c < |t.limiters| {
      assert s.ready == [b] + s.ready[1..];
      assert c in s.ready;
    }
  }

  lemma UndecidedAreQueued(s: State, b: nat)
    requires Core(s) && b < |s.limiters|
    ensures forall i :: 0 <= i < |s.slots| && s.slots[i].owner == b && !Resolved(s.slots[i]) ==> i in s.limiters[b].queue
  {
    forall i | 0 <= i < |s.slots| && s.slots[i].owner == b && !Resolved(s.slots[i]) ensures i in s.limiters[b].queue {
      assert SlotOk(s, i);
    }
  }

  lemma ServeCore(s: State)
    requires Core(s) && CanDispatch(s) && s.ready[0] < |s.limiters| && s.limiters[s.ready[0]].queue != []
    ensures Core(Turn(s))
  {
    ReadyHead(s);
    TurnServes(s);
    hide Turn;
    hide Core;
    hide IsServed;
    ServedCore(s, Turn(s), s.ready[0]);
  }

  lemma ServedCore(s: State, t: State, b: nat)
    requires Core(s) && CanDispatch(s) && b == s.ready[0] && IsServed(s, t, b) && s.limiters[b].ready
    requires b !in s.ready[1..] && Distinct(s.ready[1..])
    ensures Core(t)
  {
    UndecidedAreQueued(s, b);
    assert LimiterOk(s, b);
    hide SlotOk;
    ServeGlobal(s, t, b);
    ServeFifo(s.slots, b, s.limiters[b].queue);
    ServedLimiterOk(s, t, b);
    ServedApart(s, t, b);
    hide LimiterOk;
    hide GlobalOk;
    hide Fifo;
    hide OnlyBot;
    CoreAfter(s, t, b);
  }

  lemma ServedApart(s: State, t: State, b: nat)
    requires s.ready != [] && b == s.ready[0] && IsServed(s, t, b) && QueuedSlot(s.slots, b, s.limiters[b].queue[0])
    ensures OnlyBot(s, t, b)
  {
    assert s.ready == [b] + s.ready[1..];
    forall c | 0 <= c < |s.limiters| && c != b ensures c in t.ready <==> c in s.ready {
      assert c in s.ready <==> c in s.ready[1..];
    }
  }

  lemma TurnCore(s: State)
    requires Core(s) && CanDispatch(s)
    ensures s.ready[0] < |s.limiters| && Core(Turn(s))
  {
    ReadyHead(s);
    if s.limiters[s.ready[0]].queue == [] {
      PopCore(s);
    } else {
      ServeCore(s);
    }
  }

  lemma TurnBounded(s: State, b: nat)
    requires Core(s) && CanDispatch(s) && b < |s.limiters| && s.ready[0] < |s.limiters|
    ensures |Turn(s).limiters| == |s.limiters| && Turn(s).limiters[b].maxQueued == s.limiters[b].maxQueued
    ensures |Turn(s).limiters[b].queue| <= |s.limiters[b].queue|
    ensures b == s.ready[0] && s.limiters[b].queue != [] ==> |Turn(s).limiters[b].queue| == |s.limiters[b].queue| - 1
  {
    ReadyHead(s);
    if s.limiters[s.ready[0]].queue != [] {
      TurnServes(s);
    }
  }

  /** Dispatch ends settled: every queue within bounds stays so, and nothing is left to grant. */
  lemma {:induction false} DispatchSettles(s: State)
    requires Core(s) && Bounded(s)
    ensures Settled(Dispatch(s))
    decreases QueuedSlots(s.limiters), |s.ready|
  {
    if CanDispatch(s) {
      TurnCore(s);
      forall b | 0 <= b < |s.limiters| ensures |Turn(s).limiters[b].queue| <= Turn(s).limiters[b].maxQueued {
        TurnBounded(s, b);
      }
      TurnShrinks(s);
      hide Turn;
      hide Core;
      DispatchSettles(Turn(s));
    }
  }

  // ---- Acquire ----

  /** t is s after a slot was queued for Bot b and the Bot made ready. */
  predicate IsEnqueued(s: State, t: State, b: nat, canceled: bool)
    requires b < |s.limiters|
  {
    var l := s.limiters[b];
    var wakes := !l.ready && l.running < l.max;
    && t.limiters == s.limiters[b := l.(queue := l.queue + [|s.slots|], ready := l.ready || wakes)]
    && t.slots == s.slots + [Slot(b, canceled, false, NoError, false, false)]
    && t.ready == (if wakes then s.ready + [b] else s.ready)
    && t.running == s.running && t.max == s.max && t.closed == s.closed && t.bots == s.bots && t.events == s.events
  }

  lemma EnqueuedIs(s: State, b: nat, canceled: bool)
    requires b < |s.limiters| && !s.limiters[b].closed
    ensures IsEnqueued(s, MarkReady(Enqueue(s, b, canceled), b), b, canceled)
  {
  }

  lemma EnqueueCore(s: State, b: nat, canceled: bool)
    requires Core(s) && Accepts(s, b)
    ensures Core(MarkReady(Enqueue(s, b, canceled), b))
  {
    var t := MarkReady(Enqueue(s, b, canceled), b);
    EnqueuedIs(s, b, canceled);
    hide MarkReady;
    hide Enqueue;
    assert LimiterOk(s, b);
    EnqueuedGlobal(s, t, b, canceled);
    EnqueuedLimiter(s, t, b, canceled);
    EnqueuedSlots(s, t, b, canceled);
    hide LimiterOk;
    hide GlobalOk;
    hide SlotOk;
    CoreAfter(s, t, b);
  }

  lemma EnqueuedGlobal(s: State, t: State, b: nat, canceled: bool)
    requires GlobalOk(s) && b < |s.limiters| && LimiterOk(s, b) && !s.closed && IsEnqueued(s, t, b, canceled)
    ensures GlobalOk(t)
  {
    SumRunningUpdate(s.limiters, b, t.limiters[b]);
  }

  lemma EnqueuedSlots(s: State, t: State, b: nat, canceled: bool)
    requires Core(s) && b < |s.limiters| && IsEnqueued(s, t, b, canceled)
    ensures OnlyBot(s, t, b) && Fifo(t.slots)
    ensures forall i :: 0 <= i < |t.slots| && t.slots[i].owner == b ==> SlotOk(t, i)
  {
    hide GlobalOk;
    hide LimiterOk;
    assert Fifo(s.slots);
    forall i | 0 <= i < |t.slots| && t.slots[i].owner == b ensures SlotOk(t, i) {
      if i < |s.slots| {
        assert SlotOk(s, i);
      } else {
        assert t.limiters[b].queue[|s.limiters[b].queue|] == i;
      }
    }
  }

  lemma EnqueuedLimiter(s: State, t: State, b: nat, canceled: bool)
    requires b < |s.limiters| && LimiterOk(s, b) && !s.limiters[b].closed && !s.closed && IsEnqueued(s, t, b, canceled)
    ensures LimiterOk(t, b)
  {
    var l, m := s.limiters[b], t.limiters[b];
    forall x | x in l.queue ensures x < |s.slots| {
      assert QueuedSlot(s.slots, b, x);
    }
    AscendingAppend(l.queue, |s.slots|);
    forall x | x in m.queue ensures QueuedSlot(t.slots, b, x) {
      if x in l.queue {
        assert QueuedSlot(s.slots, b, x);
      }
    }
    forall x | x in m.active ensures ActiveSlot(t.slots, b, x) {
      assert ActiveSlot(s.slots, b, x);
    }
  }

  lemma ImmediateTurn(s: State, t: State, b: nat, canceled: bool)
    requires b < |s.limiters| && LimiterOk(s, b) && !s.closed && IsEnqueued(s, t, b, canceled) && Immediate(s, s.limiters[b])
    ensures t.ready == [b] && CanDispatch(t)
    ensures |t.limiters| == |s.limiters| && t.limiters[b].queue == [|s.slots|]
    ensures forall c :: 0 <= c < |s.limiters| && c != b ==> t.limiters[c] == s.limiters[c]
  {
  }

  /** A request over the queue bound is accepted only when the first turn serves it. */
  lemma ImmediateSettled(s: State, t: State, b: nat, canceled: bool)
    requires Settled(s) && Core(t) && b < |s.limiters| && !s.limiters[b].closed && !s.closed
    requires IsEnqueued(s, t, b, canceled) && Immediate(s, s.limiters[b])
    ensures Settled(Dispatch(t))
  {
    assert LimiterOk(s, b);
    ImmediateTurn(s, t, b, canceled);
    hide IsEnqueued;
    hide LimiterOk;
    TurnCore(t);
    hide Core;
    hide Turn;
    forall c | 0 <= c < |t.limiters| ensures |Turn(t).limiters[c].queue| <= Turn(t).limiters[c].maxQueued {
      TurnBounded(t, c);
    }
    DispatchTurn(t);
    hide Dispatch;
    DispatchSettles(Turn(t));
  }

  lemma DispatchTurn(s: State)
    requires CanDispatch(s) && s.ready[0] < |s.limiters|
    ensures Dispatch(s) == Dispatch(Turn(s))
  {
  }

  lemma AcquireSettled(s: State, b: nat, canceled: bool)
    requires Settled(s)
    ensures Settled(Acquire(s, b, canceled))
  {
    if Accepts(s, b) {
      var t := MarkReady(Enqueue(s, b, canceled), b);
      EnqueueCore(s, b, canceled);
      EnqueuedIs(s, b, canceled);
      hide MarkReady;
      hide Enqueue;
      hide Core;
      hide Dispatch;
      if Immediate(s, s.limiters[b]) {
        ImmediateSettled(s, t, b, canceled);
      } else {
        DispatchSettles(t);
      }
    }
  }

  // ---- The other regions ----

  lemma ForBotSettled(s: State, id: string, maxConcurrent: int, maxQueued: int)
    requires Settled(s)
    ensures Settled(ForBot(s, id, maxConcurrent, maxQueued))
  {
    var t := ForBot(s, id, maxConcurrent, maxQueued);
    if id !in s.bots {
      SumRunningAppend(s.limiters, t.limiters[|s.limiters|]);
      forall b | 0 <= b < |t.limiters| ensures LimiterOk(t, b) {
        if b < |s.limiters| {
          assert LimiterOk(s, b);
        }
      }
      forall i | 0 <= i < |t.slots| ensures SlotOk(t, i) {
        assert SlotOk(s, i);
      }
    }
  }

  lemma CancelSettled(s: State, slot: nat)
    requires Settled(s)
    ensures Settled(CancelContext(s, slot))
  {
    var t := CancelContext(s, slot);
    forall b | 0 <= b < |t.limiters| ensures LimiterOk(t, b) {
      CanceledLimiter(s, t, slot, b);
    }
    forall i | 0 <= i < |t.slots| ensures SlotOk(t, i) {
      assert SlotOk(s, i);
    }
    hide LimiterOk;
  }

  lemma CanceledLimiter(s: State, t: State, slot: nat, b: nat)
    requires t == CancelContext(s, slot) && b < |s.limiters| && LimiterOk(s, b)
    ensures LimiterOk(t, b)
  {
    forall x | x in t.limiters[b].queue ensures QueuedSlot(t.slots, b, x) {
      assert QueuedSlot(s.slots, b, x);
    }
    forall x | x in t.limiters[b].active ensures ActiveSlot(t.slots, b, x) {
      assert ActiveSlot(s.slots, b, x);
    }
  }

  lemma WithdrawCore(s: State, slot: nat)
    requires Core(s) && Bounded(s) && slot < |s.slots| && s.slots[slot].owner < |s.limiters|
    ensures Core(Withdraw(s, slot)) && Bounded(Withdraw(s, slot))
  {
    if !Resolved(s.slots[slot]) {
      var b := s.slots[slot].owner;
      var t := Withdraw(s, slot);
      assert LimiterOk(s, b);
      assert SlotOk(s, slot);
      assert s.limiters[b].queue != [];
      WithdrawnLimiter(s, t, slot);
      WithdrawnApart(s, t, slot);
      hide Withdraw;
      hide LimiterOk;
      hide GlobalOk;
      hide SlotOk;
      hide Fifo;
      hide OnlyBot;
      hide Bounded;
      CoreAfter(s, t, b);
    }
  }

  lemma WithdrawnLimiter(s: State, t: State, slot: nat)
    requires slot < |s.slots| && s.slots[slot].owner < |s.limiters| && t == Withdraw(s, slot) && !Resolved(s.slots[slot])
    requires LimiterOk(s, s.slots[slot].owner) && forall i :: 0 <= i < |s.slots| ==> SlotOk(s, i)
    requires s.limiters[s.slots[slot].owner].queue != []
    ensures LimiterOk(t, s.slots[slot].owner)
    ensures forall i :: 0 <= i < |t.slots| && t.slots[i].owner == s.slots[slot].owner ==> SlotOk(t, i)
  {
    var b := s.slots[slot].owner;
    var l := s.limiters[b];
    WithoutKeepsOrder(l.queue, slot);
    WithoutMember(l.queue, slot);
    forall x | x in t.limiters[b].queue ensures QueuedSlot(t.slots, b, x) {
      assert QueuedSlot(s.slots, b, x);
    }
    forall x | x in t.limiters[b].active ensures ActiveSlot(t.slots, b, x) {
      assert ActiveSlot(s.slots, b, x);
    }
    forall i | 0 <= i < |t.slots| && t.slots[i].owner == b ensures SlotOk(t, i) {
      assert SlotOk(s, i);
    }
  }

  lemma WithdrawnApart(s: State, t: State, slot: nat)
    requires slot < |s.slots| && s.slots[slot].owner < |s.limiters| && t == Withdraw(s, slot) && !Resolved(s.slots[slot])
    requires GlobalOk(s) && Fifo(s.slots) && Bounded(s)
    ensures OnlyBot(s, t, s.slots[slot].owner) && GlobalOk(t) && Fifo(t.slots) && Bounded(t)
  {
    var b := s.slots[slot].owner;
    WithoutMember(s.limiters[b].queue, slot);
    SumRunningUpdate(s.limiters, b, t.limiters[b]);
  }

  lemma AbandonSettled(s: State, slot: nat)
    requires Settled(s)
    ensures Settled(Abandon(s, slot))
  {
    if slot < |s.slots| && s.slots[slot].owner < |s.limiters| && s.slots[slot].canceled {
      WithdrawCore(s, slot);
      DispatchSettles(Withdraw(s, slot));
    }
  }

  /** The Bot's record after one of its slots is given back. */
  function ReleasedLimiter(l: Limiter, slot: nat): Limiter {
    var m := l.(active := l.active - {slot}, running := l.running - 1);
    m.(ready := m.ready || (!m.closed && m.queue != [] && m.running < m.max), finished := m.finished || (m.closed && m.running == 0))
  }

  function GivenBack(s: State, slot: nat): State
    requires slot < |s.slots| && s.slots[slot].owner < |s.limiters|
  {
    FinishClose(MarkReady(GiveBack(s, slot), s.slots[slot].owner), s.slots[slot].owner)
  }

  lemma GivenBackIs(s: State, slot: nat)
    requires Core(s) && slot < |s.slots| && s.slots[slot].owner < |s.limiters|
    ensures IsGivenBack(s, GivenBack(s, slot), slot)
  {
    var b := s.slots[slot].owner;
    assert LimiterOk(s, b);
    hide Core;
    var m := MarkReady(GiveBack(s, slot), b);
    assert m.limiters[b] == ReleasedLimiter(s.limiters[b], slot).(finished := s.limiters[b].finished);
  }

  lemma GiveBackCore(s: State, slot: nat)
    requires Core(s) && Bounded(s) && slot < |s.slots| && s.slots[slot].owner < |s.limiters|
    requires s.slots[slot].granted && !s.slots[slot].released
    ensures Core(GivenBack(s, slot)) && Bounded(GivenBack(s, slot))
  {
    var b := s.slots[slot].owner;
    var t := GivenBack(s, slot);
    GivenBackIs(s, slot);
    hide GivenBack;
    GivenBackLimiter(s, t, slot);
    GivenBackGlobal(s, t, slot);
    GivenBackApart(s, t, slot);
    hide LimiterOk;
    hide GlobalOk;
    hide SlotOk;
    hide Fifo;
    hide OnlyBot;
    hide IsGivenBack;
    hide Bounded;
    CoreAfter(s, t, b);
  }

  lemma GivenBackApart(s: State, t: State, slot: nat)
    requires slot < |s.slots| && s.slots[slot].owner < |s.limiters| && IsGivenBack(s, t, slot) && Fifo(s.slots) && Bounded(s)
    ensures OnlyBot(s, t, s.slots[slot].owner) && Fifo(t.slots) && Bounded(t)
  {
  }

  predicate IsGivenBack(s: State, t: State, slot: nat)
    requires slot < |s.slots| && s.slots[slot].owner < |s.limiters|
  {
    var b := s.slots[slot].owner;
    && t.limiters == s.limiters[b := ReleasedLimiter(s.limiters[b], slot)]
    && t.slots == s.slots[slot := s.slots[slot].(canceled := true, released := true)]
    && t.running == s.running - 1 && t.max == s.max && t.closed == s.closed && t.events == s.events
    && t.ready == (if !s.limiters[b].ready && t.limiters[b].ready then s.ready + [b] else s.ready)
    && (forall id :: id in t.bots ==> id in s.bots && t.bots[id] == s.bots[id])
    && (forall id :: id in s.bots && s.bots[id] != b ==> id in t.bots)
    && (!s.limiters[b].closed ==> t.bots == s.bots)
  }

  lemma GivenBackLimiter(s: State, t: State, slot: nat)
    requires Core(s) && slot < |s.slots| && s.slots[slot].owner < |s.limiters|
    requires s.slots[slot].granted && !s.slots[slot].released && IsGivenBack(s, t, slot)
    ensures LimiterOk(t, s.slots[slot].owner)
    ensures forall i :: 0 <= i < |t.slots| && t.slots[i].owner == s.slots[slot].owner ==> SlotOk(t, i)
  {
    var b := s.slots[slot].owner;
    hide GlobalOk;
    hide Fifo;
    assert LimiterOk(s, b);
    assert SlotOk(s, slot);
    forall x | x in t.limiters[b].queue ensures QueuedSlot(t.slots, b, x) {
      assert QueuedSlot(s.slots, b, x);
    }
    forall x | x in t.limiters[b].active ensures ActiveSlot(t.slots, b, x) {
      assert ActiveSlot(s.slots, b, x);
    }
    forall i | 0 <= i < |t.slots| && t.slots[i].owner == b ensures SlotOk(t, i) {
      assert SlotOk(s, i);
    }
  }

  lemma GivenBackGlobal(s: State, t: State, slot: nat)
    requires Core(s) && slot < |s.slots| && s.slots[slot].owner < |s.limiters| && IsGivenBack(s, t, slot)
    ensures GlobalOk(t)
  {
    var b := s.slots[slot].owner;
    assert LimiterOk(s, b);
    SumRunningUpdate(s.limiters, b, t.limiters[b]);
  }

  lemma ReleaseSettled(s: State, slot: nat)
    requires Settled(s)
    ensures Settled(Release(s, slot))
  {
    if slot < |s.slots| && s.slots[slot].owner < |s.limiters| && s.slots[slot].granted && !s.slots[slot].released {
      GiveBackCore(s, slot);
      DispatchSettles(GivenBack(s, slot));
    }
  }

  // ---- Close ----

  lemma {:induction false} FailQueuedAt(slots: seq<Slot>, queue: seq<nat>)
    requires Ascending(queue)
    ensures var after := FailQueued(slots, queue);
            forall i :: 0 <= i < |slots| ==>
              after[i] == (if i in queue then slots[i].(err := SchedulerClosed, canceled := true, signaled := true) else slots[i])
  {
    if queue != [] {
      var front := queue[..|queue| - 1];
      FailQueuedAt(slots, front);
      assert queue == front + [queue[|queue| - 1]];
    }
  }

  /** What closing limiter l does to slot number i. */
  function ClosedSlot(l: Limiter, i: nat, slot: Slot): Slot {
    if i in l.queue then slot.(err := SchedulerClosed, canceled := true, signaled := true)
    else if i in l.active then slot.(canceled := true)
    else slot
  }

  /** t is s after limiter b was closed. */
  predicate IsClosed(s: State, t: State, b: nat)
    requires b < |s.limiters|
  {
    var l := s.limiters[b];
    && t.limiters == s.limiters[b := l.(closed := true, queue := [], ready := false, finished := l.finished || l.running == 0)]
    && |t.slots| == |s.slots|
    && (forall i :: 0 <= i < |s.slots| ==> t.slots[i] == ClosedSlot(l, i, s.slots[i]))
    && t.running == s.running && t.max == s.max && t.closed == s.closed && t.events == s.events
    && t.ready == (if l.ready then Without(s.ready, b) else s.ready)
    && (forall id :: id in t.bots ==> id in s.bots && t.bots[id] == s.bots[id])
    && (forall id :: id in s.bots && s.bots[id] != b ==> id in t.bots)
  }

  lemma CloseIs(s: State, b: nat)
    requires b < |s.limiters| && !s.limiters[b].closed && Ascending(s.limiters[b].queue)
    ensures IsClosed(s, CloseLimiter(s, b), b)
  {
    FailQueuedAt(s.slots, s.limiters[b].queue);
  }

  lemma ClosedLimiterOk(s: State, t: State, b: nat)
    requires Core(s) && b < |s.limiters| && IsClosed(s, t, b) && b !in t.ready
    ensures LimiterOk(t, b)
    ensures forall i :: 0 <= i < |t.slots| && t.slots[i].owner == b ==> SlotOk(t, i)
  {
    assert LimiterOk(s, b);
    var l := s.limiters[b];
    forall x | x in l.active ensures ActiveSlot(t.slots, b, x) {
      assert ActiveSlot(s.slots, b, x);
      assert forall y :: y in l.queue ==> QueuedSlot(s.slots, b, y);
      assert x !in l.queue;
    }
    forall i | 0 <= i < |t.slots| && t.slots[i].owner == b ensures SlotOk(t, i) {
      assert SlotOk(s, i);
      assert i in l.queue ==> QueuedSlot(s.slots, b, i);
    }
  }

  lemma ClosedApart(s: State, t: State, b: nat)
    requires Core(s) && b < |s.limiters| && IsClosed(s, t, b)
    ensures OnlyBot(s, t, b) && b !in t.ready && GlobalOk(t) && Fifo(t.slots)
  {
    assert LimiterOk(s, b);
    ClosedGlobal(s, t, b);
    ClosedSlots(s, t, b);
    WithoutMember(s.ready, b);
    hide GlobalOk;
    hide LimiterOk;
    hide SlotOk;
    hide Fifo;
    hide ClosedSlot;
  }

  lemma ClosedSlots(s: State, t: State, b: nat)
    requires b < |s.limiters| && LimiterOk(s, b) && IsClosed(s, t, b) && Fifo(s.slots)
    ensures forall i :: 0 <= i < |s.slots| ==> t.slots[i].owner == s.slots[i].owner && (s.slots[i].owner != b ==> t.slots[i] == s.slots[i])
    ensures Fifo(t.slots)
  {
    var l := s.limiters[b];
    hide CountsOk;
    forall i | 0 <= i < |s.slots| ensures t.slots[i].owner == s.slots[i].owner && (s.slots[i].owner != b ==> t.slots[i] == s.slots[i]) {
      assert i in l.queue ==> QueuedSlot(s.slots, b, i);
      assert i in l.active ==> ActiveSlot(s.slots, b, i);
    }
  }

  lemma ClosedGlobal(s: State, t: State, b: nat)
    requires GlobalOk(s) && b < |s.limiters| && LimiterOk(s, b) && IsClosed(s, t, b)
    ensures GlobalOk(t) && b !in t.ready
  {
    WithoutKeepsDistinct(s.ready, b);
    WithoutMember(s.ready, b);
    SumRunningUpdate(s.limiters, b, t.limiters[b]);
  }

  lemma CloseCore(s: State, b: nat)
    requires Core(s) && Bounded(s)
    ensures Core(CloseLimiter(s, b)) && Bounded(CloseLimiter(s, b))
    ensures |CloseLimiter(s, b).limiters| == |s.limiters| && (b < |s.limiters| ==> CloseLimiter(s, b).limiters[b].closed)
    ensures forall c :: 0 <= c < |s.limiters| && c != b ==> CloseLimiter(s, b).limiters[c] == s.limiters[c]
  {
    if b < |s.limiters| && !s.limiters[b].closed {
      var t := CloseLimiter(s, b);
      assert LimiterOk(s, b);
      CloseIs(s, b);
      hide CloseLimiter;
      ClosedApart(s, t, b);
      ClosedLimiterOk(s, t, b);
      hide OnlyBot;
      hide GlobalOk;
      hide Fifo;
      hide LimiterOk;
      hide SlotOk;
      CoreAfter(s, t, b);
    }
  }

  lemma CloseBotSettled(s: State, b: nat)
    requires Settled(s)
    ensures Settled(CloseBot(s, b))
  {
    CloseCore(s, b);
    DispatchSettles(CloseLimiter(s, b));
  }

  /** The closed flag of the scheduler plays no part in closing a limiter. */
  lemma CloseIgnoresFlag(s: State, b: nat)
    ensures CloseLimiter(s.(closed := true), b) == CloseLimiter(s, b).(closed := true)
  {
  }

  lemma {:induction false} CloseEachCore(s: State, order: seq<nat>)
    requires Core(s) && Bounded(s)
    ensures Core(CloseEach(s, order)) && Bounded(CloseEach(s, order))
    ensures CloseEach(s.(closed := true), order) == CloseEach(s, order).(closed := true)
    ensures |CloseEach(s, order).limiters| == |s.limiters|
    ensures forall b :: 0 <= b < |s.limiters| && (b in order || s.limiters[b].closed) ==> CloseEach(s, order).limiters[b].closed
    decreases |order|
  {
    if order != [] {
      var t := CloseLimiter(s, order[0]);
      CloseCore(s, order[0]);
      CloseIgnoresFlag(s, order[0]);
      CloseEachCore(t, order[1..]);
      hide CloseLimiter;
      hide Core;
      hide Bounded;
      assert order == [order[0]] + order[1..];
    }
  }

  lemma CloseAllSettled(s: State, order: seq<nat>)
    requires Settled(s) && Enabled(s, StopAll(order))
    ensures Settled(CloseAll(s, order))
  {
    var t := CloseEach(s, order);
    CloseEachCore(s, order);
    forall b | 0 <= b < |t.limiters| ensures t.limiters[b].closed {
      assert LimiterOk(s, b);
    }
    hide CloseEach;
    AllClosedSettled(t);
  }

  lemma AllClosedSettled(t: State)
    requires Core(t) && Bounded(t) && forall b :: 0 <= b < |t.limiters| ==> t.limiters[b].closed
    ensures Settled(t.(closed := true, ready := []))
  {
    var u := t.(closed := true, ready := []);
    assert t.ready != [] ==> t.ready[0] in t.ready;
    forall b | 0 <= b < |u.limiters| ensures LimiterOk(u, b) && b !in t.ready {
      assert LimiterOk(t, b);
    }
    forall i | 0 <= i < |u.slots| ensures SlotOk(u, i) {
      assert SlotOk(t, i);
    }
  }

  lemma StepSettled(s: State, a: Action)
    requires Settled(s)
    ensures Settled(Step(s, a))
  {
    hide Settled;
    match a
    case NewBot(id, maxConcurrent, maxQueued) => ForBotSettled(s, id, maxConcurrent, maxQueued);
    case Request(b, canceled) => AcquireSettled(s, b, canceled);
    case Cancel(slot) => CancelSettled(s, slot);
    case Leave(slot) => AbandonSettled(s, slot);
    case Done(slot) => ReleaseSettled(s, slot);
    case Stop(b) => CloseBotSettled(s, b);
    case StopAll(order) =>
      if Enabled(s, a) {
        CloseAllSettled(s, order);
      }
  }

  lemma NewSettled(maxConcurrent: int)
    ensures Settled(NewState(maxConcurrent))
  {
  }

  lemma {:induction false} RunSettled(s: State, actions: seq<Action>)
    requires Settled(s)
    ensures Settled(Run(s, actions))
  {
    if actions != [] {
      RunSettled(s, actions[..|actions| - 1]);
      hide Settled;
      StepSettled(Run(s, actions[..|actions| - 1]), actions[|actions| - 1]);
    }
  }

  // ---- A region up to its dispatch ----

  predicate Leaves(s: State, slot: nat) {
    slot < |s.slots| && s.slots[slot].owner < |s.limiters| && s.slots[slot].canceled
  }

  predicate Releases(s: State, slot: nat) {
    slot < |s.slots| && s.slots[slot].owner < |s.limiters| && s.slots[slot].granted && !s.slots[slot].released
  }

  /** The state in which a region starts to dispatch; one that does not dispatch is over by then. */
  function Entered(s: State, a: Action): State {
    match a
    case Request(b, canceled) => if Accepts(s, b) then MarkReady(Enqueue(s, b, canceled), b) else s
    case Leave(slot) => if Leaves(s, slot) then Withdraw(s, slot) else s
    case Done(slot) => if Releases(s, slot) then GivenBack(s, slot) else s
    case Stop(b) => CloseLimiter(s, b)
    case _ => Step(s, a)
  }

  lemma EnteredCore(s: State, a: Action)
    requires Settled(s)
    ensures Core(Entered(s, a))
  {
    hide Core;
    hide CloseAll;
    hide MarkReady;
    hide Bounded;
    match a
    case NewBot(id, maxConcurrent, maxQueued) => ForBotSettled(s, id, maxConcurrent, maxQueued);
    case Request(b, canceled) =>
      if Accepts(s, b) {
        EnqueueCore(s, b, canceled);
      }
    case Cancel(slot) => CancelSettled(s, slot);
    case Leave(slot) =>
      if Leaves(s, slot) {
        WithdrawCore(s, slot);
      }
    case Done(slot) =>
      if Releases(s, slot) {
        GiveBackCore(s, slot);
      }
    case Stop(b) => CloseCore(s, b);
    case StopAll(order) => StepSettled(s, a);
  }

  /** Every region is its changes and then a dispatch. */
  lemma StepDispatches(s: State, a: Action)
    requires Settled(s)
    ensures Step(s, a) == Dispatch(Entered(s, a))
  {
    hide Settled;
    hide Turn;
    match a
    case Request(b, canceled) => SettledStays(s);
    case Leave(slot) => SettledStays(s);
    case Done(slot) => SettledStays(s);
    case Stop(b) =>
    case _ =>
      StepSettled(s, a);
      SettledStays(Step(s, a));
  }

  lemma SettledStays(s: State)
    requires Settled(s)
    ensures Dispatch(s) == s
  {
  }
}
