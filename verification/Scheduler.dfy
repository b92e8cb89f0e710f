/** The execution scheduler: a global limit, per-Bot limits, bounded Bot queues and a round-robin
    ready list (internal/adapter/scheduler.go). Limiters and slots are named by their position in
    creation order; slot numbers are therefore Acquire order. */
module Scheduler {
  datatype SlotError = NoError | Canceled | SchedulerClosed

  /** `signaled` is the closed ready channel; `canceled` the state of the slot's context. */
  datatype Slot = Slot(owner: nat, canceled: bool, granted: bool, err: SlotError, signaled: bool, released: bool)

  datatype Limiter = Limiter(
    id: string, max: nat, maxQueued: nat, running: int, closed: bool, ready: bool,
    queue: seq<nat>, active: set<nat>, finished: bool)

  /** What dispatch did, in order. */
  datatype Event = Popped(bot: nat) | Granted(bot: nat, slot: nat) | Skipped(bot: nat, slot: nat)

  datatype State = State(
    max: nat, running: int, closed: bool, bots: map<string, nat>, ready: seq<nat>,
    limiters: seq<Limiter>, slots: seq<Slot>, events: seq<Event>)

  function NewState(maxConcurrent: int): State {
    State(if maxConcurrent < 1 then 1 else maxConcurrent, 0, false, map[], [], [], [], [])
  }

  predicate Resolved(slot: Slot) {
    slot.granted || slot.err != NoError
  }

  function Without(queue: seq<nat>, slot: nat): seq<nat> {
    if queue == [] then [] else if queue[0] == slot then queue[1..] else [queue[0]] + Without(queue[1..], slot)
  }

  // ---- The regions under the scheduler's lock ----

  function WithLimiter(s: State, b: nat, l: Limiter): State
    requires b < |s.limiters|
  {
    s.(limiters := s.limiters[b := l])
  }

  function MarkReady(s: State, b: nat): State {
    if b < |s.limiters| && !s.limiters[b].ready && !s.limiters[b].closed && s.limiters[b].queue != []
       && s.limiters[b].running < s.limiters[b].max
    then WithLimiter(s, b, s.limiters[b].(ready := true)).(ready := s.ready + [b])
    else s
  }

  predicate CanDispatch(s: State) {
    !s.closed && s.running < s.max && s.ready != []
  }

  function PopReady(s: State): State
    requires s.ready != [] && s.ready[0] < |s.limiters|
  {
    var b := s.ready[0];
    WithLimiter(s, b, s.limiters[b].(ready := false)).(ready := s.ready[1..], events := s.events + [Popped(b)])
  }

  /** The head of Bot b's queue is granted, or reported canceled when its context is done. */
  function ServeHead(s: State, b: nat): State
    requires b < |s.limiters| && s.limiters[b].queue != [] && s.limiters[b].queue[0] < |s.slots|
  {
    var l := s.limiters[b];
    var slot := l.queue[0];
    if s.slots[slot].canceled then
      WithLimiter(s, b, l.(queue := l.queue[1..]))
        .(slots := s.slots[slot := s.slots[slot].(err := Canceled, signaled := true)],
          events := s.events + [Skipped(b, slot)])
    else
      WithLimiter(s, b, l.(queue := l.queue[1..], active := l.active + {slot}, running := l.running + 1))
        .(slots := s.slots[slot := s.slots[slot].(granted := true, signaled := true)], running := s.running + 1,
          events := s.events + [Granted(b, slot)])
  }

  predicate Servable(s: State, b: nat) {
    b < |s.limiters| && !s.limiters[b].closed && s.limiters[b].running < s.limiters[b].max
    && s.limiters[b].queue != [] && s.limiters[b].queue[0] < |s.slots|
  }

  /** One turn of the dispatch loop. */
  function Turn(s: State): State
    requires s.ready != [] && s.ready[0] < |s.limiters|
  {
    var b := s.ready[0];
    var p := PopReady(s);
    if Servable(p, b) then MarkReady(ServeHead(p, b), b) else p
  }

  function QueuedSlots(ls: seq<Limiter>): nat {
    if ls == [] then 0 else |ls[0].queue| + QueuedSlots(ls[1..])
  }

  lemma {:induction false} QueuedSlotsUpdate(ls: seq<Limiter>, b: nat, l: Limiter)
    requires b < |ls|
    ensures QueuedSlots(ls[b := l]) == QueuedSlots(ls) - |ls[b].queue| + |l.queue|
  {
    if b > 0 {
      assert ls[b := l][1..] == ls[1..][b - 1 := l];
      QueuedSlotsUpdate(ls[1..], b - 1, l);
    } else {
      assert ls[b := l][1..] == ls[1..];
    }
  }

  /** Every turn consumes a queued slot, or leaves the queues alone and shortens the ready list. */
  lemma TurnShrinks(s: State)
    requires s.ready != [] && s.ready[0] < |s.limiters|
    ensures var t := Turn(s);
            || QueuedSlots(t.limiters) < QueuedSlots(s.limiters)
            || (QueuedSlots(t.limiters) == QueuedSlots(s.limiters) && |t.ready| < |s.ready|)
  {
    var b := s.ready[0];
    var p := PopReady(s);
    QueuedSlotsUpdate(s.limiters, b, s.limiters[b].(ready := false));
    if Servable(p, b) {
      var h := ServeHead(p, b);
      QueuedSlotsUpdate(p.limiters, b, h.limiters[b]);
      QueuedSlotsUpdate(h.limiters, b, h.limiters[b].(ready := true));
    }
  }

  /** The dispatch loop. */
  function Dispatch(s: State): State
    decreases QueuedSlots(s.limiters), |s.ready|
  {
    if CanDispatch(s) && s.ready[0] < |s.limiters| then
      TurnShrinks(s);
      Dispatch(Turn(s))
    else s
  }

  /** ForBot: the registered limiter, or a fresh one; after Close of the scheduler a closed one. */
  function ForBot(s: State, id: string, maxConcurrent: int, maxQueued: int): State {
    if id in s.bots then s
    else
      var l := Limiter(id, if maxConcurrent < 1 then 1 else maxConcurrent, if maxQueued < 0 then 0 else maxQueued,
                       0, s.closed, false, [], {}, s.closed);
      s.(limiters := s.limiters + [l], bots := if s.closed then s.bots else s.bots[id := |s.limiters|])
  }

  predicate Immediate(s: State, l: Limiter) {
    s.running < s.max && l.running < l.max && l.queue == [] && s.ready == []
  }

  predicate Accepts(s: State, b: nat) {
    b < |s.limiters| && !s.limiters[b].closed && !s.closed
    && (Immediate(s, s.limiters[b]) || |s.limiters[b].queue| < s.limiters[b].maxQueued)
  }

  /** Acquire up to the wait: a new slot at the end of the Bot's queue, then dispatch. The
      context may already be canceled by the time the slot is dispatched. */
  function Enqueue(s: State, b: nat, canceled: bool): State
    requires b < |s.limiters|
  {
    var l := s.limiters[b];
    WithLimiter(s, b, l.(queue := l.queue + [|s.slots|]))
      .(slots := s.slots + [Slot(b, canceled, false, NoError, false, false)])
  }

  function Acquire(s: State, b: nat, canceled: bool): State {
    if Accepts(s, b) then Dispatch(MarkReady(Enqueue(s, b, canceled), b)) else s
  }

  /** The caller's context is canceled. */
  function CancelContext(s: State, slot: nat): State {
    if slot < |s.slots| then s.(slots := s.slots[slot := s.slots[slot].(canceled := true)]) else s
  }

  /** The waiting caller leaves: an unresolved slot is taken out of the queue. */
  function Withdraw(s: State, slot: nat): State
    requires slot < |s.slots| && s.slots[slot].owner < |s.limiters|
  {
    var b := s.slots[slot].owner;
    if Resolved(s.slots[slot]) then s
    else WithLimiter(s, b, s.limiters[b].(queue := Without(s.limiters[b].queue, slot)))
           .(slots := s.slots[slot := s.slots[slot].(err := Canceled, canceled := true)])
  }

  function Abandon(s: State, slot: nat): State {
    if slot < |s.slots| && s.slots[slot].owner < |s.limiters| && s.slots[slot].canceled
    then Dispatch(Withdraw(s, slot)) else s
  }

  /** finishClose: the last release of a closed limiter unregisters it and closes its done channel. */
  function FinishClose(s: State, b: nat): State {
    if b < |s.limiters| && s.limiters[b].closed && s.limiters[b].running == 0 then
      var l := s.limiters[b];
      WithLimiter(s, b, l.(finished := true))
        .(bots := if l.id in s.bots && s.bots[l.id] == b then s.bots - {l.id} else s.bots)
    else s
  }

  function GiveBack(s: State, slot: nat): State
    requires slot < |s.slots| && s.slots[slot].owner < |s.limiters|
  {
    var b := s.slots[slot].owner;
    var l := s.limiters[b];
    WithLimiter(s, b, l.(active := l.active - {slot}, running := l.running - 1))
      .(slots := s.slots[slot := s.slots[slot].(canceled := true, released := true)], running := s.running - 1)
  }

  /** release, at most once per granted slot. */
  function Release(s: State, slot: nat): State {
    if slot < |s.slots| && s.slots[slot].owner < |s.limiters| && s.slots[slot].granted && !s.slots[slot].released
    then
      var b := s.slots[slot].owner;
      Dispatch(FinishClose(MarkReady(GiveBack(s, slot), b), b))
    else s
  }

  function FailQueued(slots: seq<Slot>, queue: seq<nat>): (r: seq<Slot>)
    ensures |r| == |slots|
  {
    if queue == [] then slots
    else
      var rest := FailQueued(slots, queue[..|queue| - 1]);
      var slot := queue[|queue| - 1];
      if slot < |rest| then rest[slot := rest[slot].(err := SchedulerClosed, canceled := true, signaled := true)] else rest
  }

  function CancelActive(slots: seq<Slot>, active: set<nat>): (r: seq<Slot>)
    ensures |r| == |slots|
  {
    seq(|slots|, i requires 0 <= i < |slots| => if i in active then slots[i].(canceled := true) else slots[i])
  }

  /** closeLocked: fail the queue, cancel the running slots, leave the ready list. */
  function CloseLimiter(s: State, b: nat): State {
    if b >= |s.limiters| || s.limiters[b].closed then s
    else
      var l := s.limiters[b];
      FinishClose(
        WithLimiter(s, b, l.(closed := true, queue := [], ready := false))
          .(slots := CancelActive(FailQueued(s.slots, l.queue), l.active),
            ready := if l.ready then Without(s.ready, b) else s.ready), b)
  }

  function CloseBot(s: State, b: nat): State {
    Dispatch(CloseLimiter(s, b))
  }

  /** Closing every registered limiter, in any order. */
  function CloseEach(s: State, order: seq<nat>): State
    decreases |order|
  {
    if order == [] then s else CloseEach(CloseLimiter(s, order[0]), order[1..])
  }

  function CloseAll(s: State, order: seq<nat>): State {
    CloseEach(s.(closed := true), order).(ready := [])
  }

  datatype Action =
    | NewBot(id: string, maxConcurrent: int, maxQueued: int)
    | Request(bot: nat, canceled: bool)
    | Cancel(slot: nat)
    | Leave(slot: nat)
    | Done(slot: nat)
    | Stop(bot: nat)
    | StopAll(order: seq<nat>)

  predicate Enabled(s: State, a: Action) {
    a.StopAll? ==>
      && (forall id :: id in s.bots ==> s.bots[id] in a.order)
      && (forall b :: b in a.order ==> b < |s.limiters| && s.limiters[b].id in s.bots && s.bots[s.limiters[b].id] == b)
  }

  function Step(s: State, a: Action): State {
    match a
    case NewBot(id, maxConcurrent, maxQueued) => ForBot(s, id, maxConcurrent, maxQueued)
    case Request(b, canceled) => Acquire(s, b, canceled)
    case Cancel(slot) => CancelContext(s, slot)
    case Leave(slot) => Abandon(s, slot)
    case Done(slot) => Release(s, slot)
    case Stop(b) => CloseBot(s, b)
    case StopAll(order) => if Enabled(s, a) then CloseAll(s, order) else s
  }

  function Run(s: State, actions: seq<Action>): State {
    if actions == [] then s else Step(Run(s, actions[..|actions| - 1]), actions[|actions| - 1])
  }
}
