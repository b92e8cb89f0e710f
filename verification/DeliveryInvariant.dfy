/** The invariant of the delivery machine and its preservation by every step. */
module DeliveryInvariant {
  import opened Wrappers
  import opened Protocol
  import opened Journal
  import opened DurableLog
  import opened Delivery

  // ---- The invariant ----

  /** The file is a legal history, and a running service's index is its replay. */
  predicate LogInv(m: Machine) {
    Legal(m.history) && m.log == LogOf(m.history) && (!m.phase.Down? ==> m.index == After(m.history))
  }

  /** A worker's private copy is the journal's entry, and that entry is the head of its queue. */
  predicate Owns(x: Index, s: nat, w: Work) {
    w.key in x.work && x.work[w.key] == w && WorkShard(w.message) == s && IsHead(x, w.key)
  }

  /** Every call so far for this work was a retryable failure. */
  predicate Clean(calls: seq<Invocation>, key: string) {
    forall i :: 0 <= i < |calls| && calls[i].key == key ==> calls[i].outcome == Retryable
  }

  predicate CallOk(calls: seq<Invocation>, call: nat, w: Work, streamed: bool) {
    && call < |calls| && calls[call].key == w.key && calls[call].command == IsCommand(w.message.kind)
    && calls[call].outcome == Running && (streamed <==> calls[call].emits > 0)
  }

  predicate WorkerOk(x: Index, calls: seq<Invocation>, s: nat, worker: Worker) {
    match worker
    case Idle => true
    case Chosen(w) => Owns(x, s, w) && w.state != Done
    case Entered(w) =>
      Owns(x, s, w) && w.state == Admitted && (IsCommand(w.message.kind) ==> w.seqNo <= 1 && Clean(calls, w.key))
    case Handling(w, streamed, call) =>
      && Owns(x, s, w) && w.state == Admitted && CallOk(calls, call, w, streamed)
      && (IsCommand(w.message.kind) ==> w.seqNo >= 1 && (!streamed ==> w.seqNo == 1))
    case Replying(w, _, kind, _, _) =>
      && Owns(x, s, w) && w.state == Admitted && IsCommand(w.message.kind) && w.seqNo >= 1
      && (kind == "run.completed" || kind == "run.accepted")
  }

  predicate WorkersOk(x: Index, calls: seq<Invocation>, workers: seq<Worker>) {
    |workers| == WORKER_COUNT &&
    forall s :: 0 <= s < WORKER_COUNT ==> WorkerOk(x, calls, s, workers[s])
  }

  /** At most the last call of a command is anything but a silent retryable failure, and a command
      with such a call is never queued. */
  predicate CallsOk(x: Index, calls: seq<Invocation>) {
    && (forall i :: 0 <= i < |calls| ==>
          calls[i].key in x.work && calls[i].command == IsCommand(x.work[calls[i].key].message.kind))
    && (forall i, j :: 0 <= i < j < |calls| && calls[i].command && calls[i].key == calls[j].key ==>
          calls[i].outcome == Retryable)
    && (forall i :: 0 <= i < |calls| && calls[i].command && calls[i].outcome != Retryable ==>
          x.work[calls[i].key].state != Queued)
    && (forall i :: 0 <= i < |calls| && calls[i].command && calls[i].outcome == Retryable ==> calls[i].emits == 0)
  }

  /** Every unpublished publication is pending or in the publisher's batch. */
  predicate OutboxOk(x: Index, pending: seq<string>, batch: seq<string>, flight: Flight) {
    && (forall id :: id in x.publications && !x.publications[id].published ==> id in pending || id in batch)
    && (flight.InFlight? ==>
          && flight.id in x.publications
          && (x.publications[flight.id].previous in x.publications ==>
                x.publications[x.publications[flight.id].previous].published)
          && (flight.byPublisher ==> batch != [] && batch[0] == flight.id))
  }

  predicate WithinCapacity(cfg: Config, x: Index) {
    !cfg.console && cfg.capacity.Some? ==> x.pendingCommands <= cfg.capacity.value
  }

  /** Commands that count against the capacity are the deliverable ones. */
  predicate MachineInv(cfg: Config, m: Machine) {
    && LogInv(m)
    && WorkersOk(After(m.history), m.invocations, m.workers)
    && (!m.phase.Serving? ==> m.workers == IDLE_WORKERS)
    && (m.phase.Starting? ==> m.phase.todo == AdmittedKeys(After(m.history)))
    && CallsOk(After(m.history), m.invocations)
    && (!m.phase.Down? ==> OutboxOk(m.index, m.pending, m.batch, m.flight))
    && WithinCapacity(cfg, After(m.history))
  }

  // ---- Frames: what a journal change leaves of the other workers ----

  lemma DoneBeforeKept(x: Index, y: Index, queue: seq<string>, longer: seq<string>, i: nat)
    requires i <= |queue| && queue <= longer && DoneBefore(x, queue, i)
    requires forall j :: 0 <= j < i ==> queue[j] in x.work ==> queue[j] in y.work && y.work[queue[j]] == x.work[queue[j]]
    ensures i <= |longer| && DoneBefore(y, longer, i)
  {
  }

  lemma OwnsTouched(x: Index, y: Index, k: string, s: nat, w: Work)
    requires QueueInv(x) && Touched(x, y, k) && Owns(x, s, w) && WorkShard(x.work[k].message) != s
    ensures Owns(y, s, w) && w.key != k
  {
    hide WorkShard;
    var queue := x.queues[s];
    var i :| 0 <= i < |queue| && queue[i] == w.key && DoneBefore(x, queue, i);
    assert QueueOk(x.work, queue, s);
    DoneBeforeKept(x, y, queue, queue, i);
  }

  lemma OwnsEnqueued(x: Index, y: Index, entry: Work, s: nat, w: Work)
    requires Enqueued(x, y, entry) && Owns(x, s, w)
    ensures Owns(y, s, w)
  {
    hide WorkShard;
    var queue := x.queues[s];
    var i :| 0 <= i < |queue| && queue[i] == w.key && DoneBefore(x, queue, i);
    assert queue <= y.queues[s];
    DoneBeforeKept(x, y, queue, y.queues[s], i);
    assert y.queues[s][i] == w.key;
  }

  lemma OwnsApart(x: Index, y: Index, s: nat, w: Work)
    requires Apart(x, y) && Owns(x, s, w)
    ensures Owns(y, s, w)
  {
    var queue := x.queues[s];
    var i :| 0 <= i < |queue| && queue[i] == w.key && DoneBefore(x, queue, i);
    DoneBeforeKept(x, y, queue, queue, i);
  }

  /** The head keeps its place when its own entry changes. */
  lemma HeadTouched(x: Index, y: Index, k: string)
    requires QueueInv(x) && Touched(x, y, k)
    ensures IsHead(y, k)
  {
    hide WorkShard;
    var s := WorkShard(x.work[k].message);
    var queue := x.queues[s];
    var i :| 0 <= i < |queue| && queue[i] == k && DoneBefore(x, queue, i);
    assert QueueOk(x.work, queue, s);
    DoneBeforeKept(x, y, queue, queue, i);
  }

  /** Calls of other works stay as they are; new calls belong to work k. */
  predicate CallsApart(before: seq<Invocation>, after: seq<Invocation>, k: string) {
    && |before| <= |after|
    && (forall i :: 0 <= i < |before| ==> after[i].key == before[i].key && (before[i].key != k ==> after[i] == before[i]))
    && (forall i :: |before| <= i < |after| ==> after[i].key == k)
  }

  lemma OtherWorker(x: Index, y: Index, before: seq<Invocation>, after: seq<Invocation>, k: string, s: nat, worker: Worker)
    requires WorkerOk(x, before, s, worker) && CallsApart(before, after, k)
    requires !worker.Idle? ==> Owns(y, s, worker.work) && worker.work.key != k
    ensures WorkerOk(y, after, s, worker)
  {
    hide Owns;
  }

  /** A step of worker s that changes only its own work. */
  lemma WorkersAfterTouch(x: Index, y: Index, k: string, s: nat,
                          before: seq<Invocation>, after: seq<Invocation>, workers: seq<Worker>, moved: seq<Worker>)
    requires s < WORKER_COUNT && WorkersOk(x, before, workers) && |moved| == |workers| && moved == workers[s := moved[s]]
    requires QueueInv(x) && Touched(x, y, k) && WorkShard(x.work[k].message) == s && CallsApart(before, after, k)
    requires WorkerOk(y, after, s, moved[s])
    ensures WorkersOk(y, after, moved)
  {
    hide WorkerOk;
    forall t | 0 <= t < WORKER_COUNT ensures WorkerOk(y, after, t, moved[t]) {
      if t != s {
        assert WorkerOk(x, before, t, workers[t]);
        OtherAfterTouch(x, y, k, t, before, after, workers[t]);
      }
    }
  }

  lemma OtherAfterTouch(x: Index, y: Index, k: string, t: nat,
                        before: seq<Invocation>, after: seq<Invocation>, worker: Worker)
    requires WorkerOk(x, before, t, worker) && CallsApart(before, after, k)
    requires QueueInv(x) && Touched(x, y, k) && WorkShard(x.work[k].message) != t
    ensures WorkerOk(y, after, t, worker)
  {
    if !worker.Idle? {
      OwnsTouched(x, y, k, t, worker.work);
    }
    OtherWorker(x, y, before, after, k, t, worker);
  }

  /** A step of worker s that leaves the journal alone. */
  lemma WorkersAfterMove(x: Index, k: string, s: nat,
                         before: seq<Invocation>, after: seq<Invocation>, workers: seq<Worker>, moved: seq<Worker>)
    requires s < WORKER_COUNT && WorkersOk(x, before, workers) && |moved| == |workers| && moved == workers[s := moved[s]]
    requires k in x.work && WorkShard(x.work[k].message) == s && CallsApart(before, after, k)
    requires WorkerOk(x, after, s, moved[s])
    ensures WorkersOk(x, after, moved)
  {
    forall t | 0 <= t < WORKER_COUNT ensures WorkerOk(x, after, t, moved[t]) {
      if t != s {
        assert WorkerOk(x, before, t, workers[t]);
        OtherWorker(x, x, before, after, k, t, workers[t]);
      }
    }
  }

  lemma WorkersAfterEntry(x: Index, y: Index, entry: Work, calls: seq<Invocation>, workers: seq<Worker>)
    requires WorkersOk(x, calls, workers) && Enqueued(x, y, entry)
    ensures WorkersOk(y, calls, workers)
  {
    forall t | 0 <= t < WORKER_COUNT ensures WorkerOk(y, calls, t, workers[t]) {
      assert WorkerOk(x, calls, t, workers[t]);
      if !workers[t].Idle? {
        OwnsEnqueued(x, y, entry, t, workers[t].work);
      }
      SameCallsWorker(x, y, calls, t, workers[t]);
    }
  }

  lemma WorkersApart(x: Index, y: Index, calls: seq<Invocation>, workers: seq<Worker>)
    requires WorkersOk(x, calls, workers) && Apart(x, y)
    ensures WorkersOk(y, calls, workers)
  {
    forall t | 0 <= t < WORKER_COUNT ensures WorkerOk(y, calls, t, workers[t]) {
      assert WorkerOk(x, calls, t, workers[t]);
      if !workers[t].Idle? {
        OwnsApart(x, y, t, workers[t].work);
      }
      SameCallsWorker(x, y, calls, t, workers[t]);
    }
  }

  lemma SameCallsWorker(x: Index, y: Index, calls: seq<Invocation>, t: nat, worker: Worker)
    requires WorkerOk(x, calls, t, worker) && (!worker.Idle? ==> Owns(y, t, worker.work))
    ensures WorkerOk(y, calls, t, worker)
  {
    hide Owns;
  }

  // ---- Journal writes of the machine ----

  lemma WriteLegal(m: Machine, r: Record, c: Change)
    requires LogInv(m) && !m.phase.Down? && LegalChange(m.index, c) && r == RecordOf(m.index, c)
    ensures LogInv(Write(m, r, c)) && Write(m, r, c).index == Next(m.index, c) == After(Write(m, r, c).history)
    ensures Inv(m.index) && Inv(Next(m.index, c))
  {
    AfterInv(m.history);
    NextInv(m.index, c);
    Extend(m.history, c);
  }

  /** An admitted work is the head of its queue. */
  lemma AdmittedIsHead(x: Index, key: string)
    requires WorkInv(x) && QueueInv(x) && key in x.work && x.work[key].state == Admitted
    ensures IsHead(x, key)
  {
    hide WorkShard;
    var s := WorkShard(x.work[key].message);
    var queue := x.queues[s];
    assert QueueOk(x.work, queue, s);
    var i :| 0 <= i < |queue| && queue[i] == key;
    assert DoneBefore(x, queue, i);
  }

  /** The slot of the next event of a current work is free, so emit always writes. */
  lemma SlotFree(x: Index, w: Work)
    requires KeyInv(x) && w.key in x.work && x.work[w.key] == w
    ensures SlotOf(w) !in x.keys
  {
  }

  lemma EmitWrites(cfg: Config, m: Machine, w: Work, kind: string, payload: Payload, to: WorkState, io: Io)
    requires LogInv(m) && !m.phase.Down? && w.key in m.index.work && m.index.work[w.key] == w
    requires IsHead(m.index, w.key) && IsCommand(w.message.kind) && EventOk(w, kind, to)
    ensures Inv(m.index)
    ensures var r := Emit(cfg, m, w, kind, payload, to, io);
            if !CanEmit(m, w, io) then r == (m, None)
            else
              var c := Event(w.key, EventEnvelope(cfg, w, kind, payload, io), io.hash, to);
              && LegalChange(m.index, c) && r == (Write(m, RecordOf(m.index, c), c), Some(NextWork(w, to)))
              && LogInv(r.0) && r.0.index == Next(m.index, c) == After(r.0.history)
  {
    hide ApplyRecord;
    hide After;
    hide Legal;
    hide LogOf;
    hide WorkInv;
    hide QueueInv;
    hide PubInv;
    hide CountInv;
    AfterInv(m.history);
    SlotFree(m.index, w);
    if CanEmit(m, w, io) {
      var c := Event(w.key, EventEnvelope(cfg, w, kind, payload, io), io.hash, to);
      assert LegalChange(m.index, c);
      WriteLegal(m, RecordOf(m.index, c), c);
    }
  }

  lemma SetWorkWrites(m: Machine, w: Work, to: WorkState, cause: Cause)
    requires LogInv(m) && !m.phase.Down? && w.key in m.index.work && m.index.work[w.key] == w
    requires IsHead(m.index, w.key) && MoveOk(w, to) && CauseOk(w, to, cause)
    ensures Inv(m.index)
    ensures var c := Move(w.key, to, cause);
            var r := SetWork(m, w, to, cause, true);
            && LegalChange(m.index, c) && r == Write(m, RecordOf(m.index, c), c)
            && LogInv(r) && r.index == Next(m.index, c) == After(r.history)
  {
    hide ApplyRecord;
    hide After;
    hide Legal;
    hide LogOf;
    hide Inv;
    WriteLegal(m, RecordOf(m.index, Move(w.key, to, cause)), Move(w.key, to, cause));
  }

  // ---- One step of a conversation worker ----

  lemma OutboxAfterWrite(m: Machine, c: Change)
    requires Inv(m.index) && LegalChange(m.index, c) && OutboxOk(m.index, m.pending, m.batch, m.flight)
    ensures OutboxOk(Next(m.index, c), Write(m, RecordOf(m.index, c), c).pending, m.batch, m.flight)
  {
    var x, y := m.index, Next(m.index, c);
    var pending := Write(m, RecordOf(m.index, c), c).pending;
    if c.ClientPublish? || c.Event? {
      NextAdded(x, c);
      OutboxAfterAdd(x, y, NewPublication(x, c), m.pending, m.batch, m.flight);
    } else if c.Published? {
      NextConfirmed(x, c);
      OutboxAfterConfirm(x, y, c.id, m.pending, m.batch, m.flight);
    } else {
      NextSameOutbox(x, c);
    }
  }

  lemma OutboxAfterAdd(x: Index, y: Index, p: Publication, pending: seq<string>, batch: seq<string>, flight: Flight)
    requires PubInv(x) && Added(x, y, p) && OutboxOk(x, pending, batch, flight)
    ensures OutboxOk(y, pending + [p.message.id], batch, flight)
  {
    if flight.InFlight? {
      assert PubOk(x, flight.id, x.publications[flight.id]);
    }
  }

  lemma OutboxAfterConfirm(x: Index, y: Index, id: string, pending: seq<string>, batch: seq<string>, flight: Flight)
    requires Confirmed(x, y, id) && OutboxOk(x, pending, batch, flight)
    ensures OutboxOk(y, pending, batch, flight)
  {
  }

  /** Only an arriving command raises the counter. */
  lemma CapacityAfterWrite(cfg: Config, x: Index, c: Change)
    requires Inv(x) && LegalChange(x, c) && WithinCapacity(cfg, x)
    requires c.Receive? && c.queued && IsCommand(c.item.kind) ==>
               !cfg.console && cfg.capacity.Some? ==> x.pendingCommands < cfg.capacity.value
    ensures WithinCapacity(cfg, Next(x, c))
  {
    hide Next;
    hide LegalChange;
    if c.Move? || c.Event? {
      NextTouched(x, c);
    } else if c.Receive? && c.queued {
      NextEnqueued(x, c);
    } else {
      NextApart(x, c);
    }
  }

  /** Worker s writes a change to its own work, possibly noting a call of its own. */
  lemma WroteOwnWork(cfg: Config, m: Machine, n: Machine, s: nat, c: Change)
    requires MachineInv(cfg, m) && m.phase.Serving? && s < WORKER_COUNT && (c.Move? || c.Event?)
    requires LegalChange(m.index, c) && WorkShard(m.index.work[ChangedKey(c)].message) == s
    requires |n.workers| == WORKER_COUNT
    requires n == Write(m, RecordOf(m.index, c), c)
                    .(workers := m.workers[s := n.workers[s]], invocations := n.invocations)
    requires CallsApart(m.invocations, n.invocations, ChangedKey(c)) && CallsOk(n.index, n.invocations)
    requires WorkerOk(n.index, n.invocations, s, n.workers[s])
    ensures MachineInv(cfg, n)
  {
    assert |m.workers| == WORKER_COUNT;
    hide ApplyRecord;
    hide After;
    hide Legal;
    hide LogOf;
    hide LegalChange;
    hide OutboxOk;
    hide WithinCapacity;
    hide CallsOk;
    hide WorkersOk;
    hide WorkerOk;
    hide Inv;
    WriteLegal(m, RecordOf(m.index, c), c);
    StepOfWorker(m.index, c, s, m.invocations, n.invocations, m.workers, n.workers);
    OutboxAfterWrite(m, c);
    CapacityAfterWrite(cfg, m.index, c);
  }

  lemma StepOfWorker(x: Index, c: Change, s: nat, before: seq<Invocation>, after: seq<Invocation>,
                     workers: seq<Worker>, moved: seq<Worker>)
    requires s < WORKER_COUNT == |workers| == |moved| && moved == workers[s := moved[s]]
    requires (c.Move? || c.Event?) && ChangedKey(c) in x.work && WorkShard(x.work[ChangedKey(c)].message) == s
    requires CallsApart(before, after, ChangedKey(c)) && WorkersOk(x, before, workers) && WorkerOk(Next(x, c), after, s, moved[s])
    requires Inv(x) && LegalChange(x, c)
    ensures WorkersOk(Next(x, c), after, moved)
  {
    hide Next;
    hide LegalChange;
    hide WorkersOk;
    hide WorkerOk;
    NextTouched(x, c);
    WorkersAfterTouch(x, Next(x, c), ChangedKey(c), s, before, after, workers, moved);
  }

  /** Worker s moves without touching the journal. */
  lemma MovedOwnWorker(cfg: Config, m: Machine, n: Machine, s: nat, k: string)
    requires MachineInv(cfg, m) && m.phase.Serving? && s < WORKER_COUNT
    requires |n.workers| == WORKER_COUNT
    requires n == m.(workers := m.workers[s := n.workers[s]], invocations := n.invocations)
    requires k in m.index.work && WorkShard(m.index.work[k].message) == s
    requires CallsApart(m.invocations, n.invocations, k) && CallsOk(m.index, n.invocations)
    requires WorkerOk(m.index, n.invocations, s, n.workers[s])
    ensures MachineInv(cfg, n)
  {
    assert |m.workers| == WORKER_COUNT;
    hide After;
    hide Legal;
    hide LogOf;
    hide OutboxOk;
    hide WithinCapacity;
    hide CallsOk;
    hide WorkersOk;
    hide WorkerOk;
    WorkersAfterMove(m.index, k, s, m.invocations, n.invocations, m.workers, n.workers);
  }

  /** Calls stay in order when a work moves on and its earlier calls allow the new state. */
  lemma CallsAfterTouch(x: Index, y: Index, k: string, calls: seq<Invocation>)
    requires CallsOk(x, calls) && Touched(x, y, k)
    requires y.work[k].state == Queued && IsCommand(x.work[k].message.kind) ==> Clean(calls, k)
    ensures CallsOk(y, calls)
  {
  }
}
