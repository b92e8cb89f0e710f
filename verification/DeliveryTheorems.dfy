/** Guarantees of the messaging service over every run with crashes and restarts. */
module DeliveryTheorems {
  import opened Protocol
  import opened Journal
  import opened DurableLog
  import opened DurableTheorems
  import opened Delivery
  import opened DeliveryInvariant
  import opened DeliverySteps

  // ---- Start-up, crash, clients, inbox and publisher ----

  lemma {:induction false} ReplayedPendingIsAll(cs: seq<Change>)
    requires Legal(cs)
    ensures forall id :: id in After(cs).publications ==> id in After(cs).pending
  {
    if cs != [] {
      var before := cs[..|cs| - 1];
      ReplayedPendingIsAll(before);
      PendingGrows(After(before), cs[|cs| - 1]);
    }
  }

  lemma PendingGrows(x: Index, c: Change)
    requires forall id :: id in x.publications ==> id in x.pending
    ensures forall id :: id in Next(x, c).publications ==> id in Next(x, c).pending
  {
  }

  lemma IdleWorkers(x: Index, calls: seq<Invocation>)
    ensures WorkersOk(x, calls, IDLE_WORKERS)
  {
  }

  lemma BootKeeps(cfg: Config, m: Machine)
    requires MachineInv(cfg, m)
    ensures MachineInv(cfg, BootStep(m))
  {
    if m.phase.Down? {
      ReplayRebuilds(m.history);
      ReplayedPendingIsAll(m.history);
      hide After;
      hide Legal;
      hide LogOf;
      hide Replay;
      hide WorkersOk;
      hide CallsOk;
      IdleWorkers(After(m.history), m.invocations);
    }
  }

  lemma LostCalls(x: Index, calls: seq<Invocation>)
    requires CallsOk(x, calls)
    ensures CallsOk(x, LoseRunning(calls))
  {
  }

  lemma DropKeeps(cfg: Config, m: Machine)
    requires MachineInv(cfg, m)
    ensures MachineInv(cfg, Drop(m))
  {
    hide After;
    hide Legal;
    hide LogOf;
    hide WorkersOk;
    hide CallsOk;
    LostCalls(After(m.history), m.invocations);
    IdleWorkers(After(m.history), LoseRunning(m.invocations));
  }

  /** The work a start-up step settles is the head of its queue and leaves the to-do set. */
  lemma SettledOne(cfg: Config, m: Machine, n: Machine, c: Change)
    requires MachineInv(cfg, m) && m.phase.Starting? && (c.Move? || c.Event?) && LegalChange(m.index, c)
    requires n == Write(m, RecordOf(m.index, c), c).(phase := Starting(m.phase.todo - {ChangedKey(c)}))
    requires if c.Move? then c.to != Admitted && !IsCommand(m.index.work[c.workKey].message.kind) else c.result == Done
    ensures MachineInv(cfg, n)
  {
    assert ChangedKey(c) in m.index.work;
    hide ApplyRecord;
    hide After;
    hide Legal;
    hide LogOf;
    hide LegalChange;
    hide OutboxOk;
    hide WithinCapacity;
    hide CallsOk;
    hide WorkersOk;
    hide Inv;
    hide AdmittedKeys;
    hide Touched;
    WriteLegal(m, RecordOf(m.index, c), c);
    NextTouched(m.index, c);
    IdleWorkers(Next(m.index, c), m.invocations);
    CallsAfterTouch(m.index, Next(m.index, c), ChangedKey(c), m.invocations);
    OutboxAfterWrite(m, c);
    CapacityAfterWrite(cfg, m.index, c);
    AdmittedAfterTouch(m.index, Next(m.index, c), ChangedKey(c));
  }

  lemma AdmittedAfterTouch(x: Index, y: Index, k: string)
    requires Touched(x, y, k) && y.work[k].state != Admitted
    ensures AdmittedKeys(y) == AdmittedKeys(x) - {k}
  {
  }

  lemma SettleKeeps(cfg: Config, m: Machine, key: string, io: Io)
    requires MachineInv(cfg, m)
    ensures MachineInv(cfg, SettleStep(cfg, m, key, io))
  {
    if m.phase.Starting? && key in m.phase.todo && key in m.index.work {
      var w := m.index.work[key];
      var done := m.(phase := Starting(m.phase.todo - {key}));
      AfterInv(m.history);
      assert WorkOk(m.index, key, w);
      AdmittedIsHead(m.index, key);
      DropKeeps(cfg, m);
      assert w.state == Admitted && w.key == key;
      hide MachineInv;
      if !IsCommand(w.message.kind) {
        if io.ok {
          SettleByMove(cfg, m, done, w);
        }
      } else {
        SettleByEvent(cfg, m, done, w, io);
      }
    }
  }

  lemma SettleByMove(cfg: Config, m: Machine, done: Machine, w: Work)
    requires MachineInv(cfg, m) && m.phase.Starting? && done == m.(phase := Starting(m.phase.todo - {w.key}))
    requires w.key in m.index.work && m.index.work[w.key] == w && w.state == Admitted && IsHead(m.index, w.key)
    requires !IsCommand(w.message.kind)
    ensures MachineInv(cfg, SetWork(done, w, Queued, Interruption, true))
  {
    hide ApplyRecord;
    hide After;
    hide IsHead;
    SetWorkWrites(done, w, Queued, Interruption);
    SettledOne(cfg, m, SetWork(done, w, Queued, Interruption, true), Move(w.key, Queued, Interruption));
  }

  lemma SettleByEvent(cfg: Config, m: Machine, done: Machine, w: Work, io: Io)
    requires MachineInv(cfg, m) && m.phase.Starting? && done == m.(phase := Starting(m.phase.todo - {w.key}))
    requires w.key in m.index.work && m.index.work[w.key] == w && w.state == Admitted && IsHead(m.index, w.key)
    requires IsCommand(w.message.kind)
    ensures var r := Emit(cfg, done, w, "run.failed", INTERRUPTED, Done, io);
            r.1.Some? ==> MachineInv(cfg, r.0)
  {
    var r := Emit(cfg, done, w, "run.failed", INTERRUPTED, Done, io);
    hide ApplyRecord;
    hide After;
    hide IsHead;
    EmitWrites(cfg, done, w, "run.failed", INTERRUPTED, Done, io);
    hide Emit;
    if CanEmit(done, w, io) {
      SettledOne(cfg, m, r.0, Event(w.key, EventEnvelope(cfg, w, "run.failed", INTERRUPTED, io), io.hash, Done));
    }
  }

  /** A write that changes no work: client publications, confirmations and plain inbox entries. */
  lemma WroteApart(cfg: Config, m: Machine, n: Machine, c: Change)
    requires MachineInv(cfg, m) && !m.phase.Down? && LegalChange(m.index, c)
    requires c.ClientPublish? || c.Published? || (c.Receive? && !c.queued)
    requires n.workers == m.workers && n.invocations == m.invocations && n.phase == m.phase
    requires LogInv(n) && n.index == Next(m.index, c) && OutboxOk(n.index, n.pending, n.batch, n.flight)
    ensures MachineInv(cfg, n)
  {
    hide Next;
    hide After;
    hide Legal;
    hide LogOf;
    hide LegalChange;
    hide OutboxOk;
    hide WorkersOk;
    NextApart(m.index, c);
    WorkersApart(m.index, Next(m.index, c), m.invocations, m.workers);
  }

  lemma PublishKeeps(cfg: Config, m: Machine, env: Envelope, key: IdempotencyKey, hash: string, ok: bool)
    requires MachineInv(cfg, m)
    ensures MachineInv(cfg, PublishStep(m, env, key, hash, ok))
  {
    var n := PublishStep(m, env, key, hash, ok);
    var c := ClientPublish(env, key, hash);
    if n != m {
      hide ApplyRecord;
      hide After;
      hide Legal;
      hide LogOf;
      hide OutboxOk;
      hide Inv;
      WriteLegal(m, RecordOf(m.index, c), c);
      OutboxAfterWrite(m, c);
      WroteApart(cfg, m, n, c);
    }
  }

  lemma ReceiveKeeps(cfg: Config, m: Machine, item: Envelope, runId: string, ok: bool)
    requires MachineInv(cfg, m)
    ensures MachineInv(cfg, ReceiveStep(cfg, m, item, runId, ok))
  {
    var n := ReceiveStep(cfg, m, item, runId, ok);
    if n != m {
      var c := Change.Receive(item, MakesWork(cfg, item.kind), if NeedsRun(cfg, item.kind) then runId else "");
      assert LegalChange(m.index, c);
      assert n == Write(m, RecordOf(m.index, c), c);
      hide ApplyRecord;
      hide After;
      hide Legal;
      hide LogOf;
      hide LegalChange;
      hide OutboxOk;
      hide Inv;
      WriteLegal(m, RecordOf(m.index, c), c);
      OutboxAfterWrite(m, c);
      if c.queued {
        hide MakesWork;
        ReceivedWork(cfg, m, n, c);
      } else {
        WroteApart(cfg, m, n, c);
      }
    }
  }

  lemma ReceivedWork(cfg: Config, m: Machine, n: Machine, c: Change)
    requires MachineInv(cfg, m) && m.phase.Serving? && LegalChange(m.index, c) && c.Receive? && c.queued
    requires MakesWork(cfg, c.item.kind) && !OverCapacity(cfg, m.index, c.item.kind)
    requires n.workers == m.workers && n.invocations == m.invocations && n.phase == m.phase
    requires LogInv(n) && n.index == Next(m.index, c) && OutboxOk(n.index, n.pending, n.batch, n.flight)
    ensures MachineInv(cfg, n)
  {
    hide Next;
    hide After;
    hide Legal;
    hide LogOf;
    hide LegalChange;
    hide OutboxOk;
    hide WorkersOk;
    AfterInv(m.history);
    NextEnqueued(m.index, c);
    WorkersAfterEntry(m.index, Next(m.index, c), NewWork(c), m.invocations, m.workers);
    CapacityAfterWrite(cfg, m.index, c);
    CallsAfterEntry(m.index, Next(m.index, c), NewWork(c), m.invocations);
  }

  lemma CallsAfterEntry(x: Index, y: Index, entry: Work, calls: seq<Invocation>)
    requires CallsOk(x, calls) && Enqueued(x, y, entry)
    ensures CallsOk(y, calls)
  {
  }

  lemma FlushEndKeeps(cfg: Config, m: Machine, delivered: bool)
    requires MachineInv(cfg, m)
    ensures MachineInv(cfg, FlushEndStep(m, delivered))
  {
    if !m.phase.Down? && m.flight.InFlight? {
      hide After;
      hide LogInv;
      hide WorkersOk;
      hide CallsOk;
      hide WithinCapacity;
      if delivered {
        Confirm(cfg, m);
      }
    }
  }

  lemma Confirm(cfg: Config, m: Machine)
    requires MachineInv(cfg, m) && !m.phase.Down? && m.flight.InFlight?
    ensures MachineInv(cfg, FlushEndStep(m, true))
  {
    hide ApplyRecord;
    hide After;
    hide Legal;
    hide LogOf;
    hide Inv;
    hide WorkersOk;
    hide CallsOk;
    var f := m.flight;
    var c := Published(f.id);
    var n := FlushEndStep(m, true);
    var landed := m.(flight := NoFlight, batch := if f.byPublisher && m.batch != [] then m.batch[1..] else m.batch);
    WriteLegal(landed, RecordOf(m.index, c), c);
    AfterInv(m.history);
    NextConfirmedOutbox(m.index, c);
    ConfirmedLands(m.index, n.index, m.pending, m.batch, f);
    WroteApart(cfg, m, n, c);
  }

  /** The confirmed publication is the only one that leaves the batch. */
  lemma ConfirmedLands(x: Index, y: Index, pending: seq<string>, batch: seq<string>, f: Flight)
    requires OutboxOk(x, pending, batch, f) && f.InFlight? && Confirmed(x, y, f.id)
    ensures OutboxOk(y, pending, if f.byPublisher && batch != [] then batch[1..] else batch, NoFlight)
  {
    forall id | id in y.publications && !y.publications[id].published
      ensures id in pending || id in if f.byPublisher && batch != [] then batch[1..] else batch
    {
      assert id != f.id;
      assert id in pending || id in batch;
    }
  }

  lemma NextConfirmedOutbox(x: Index, c: Change)
    requires Inv(x) && LegalChange(x, c) && c.Published?
    ensures Confirmed(x, Next(x, c), c.id)
  {
    NextConfirmed(x, c);
  }

  lemma StepKeeps(cfg: Config, m: Machine, a: Action)
    requires MachineInv(cfg, m)
    ensures MachineInv(cfg, Step(cfg, m, a))
  {
    hide MachineInv;
    hide BootStep;
    hide SettleStep;
    hide Drop;
    hide PublishStep;
    hide ReceiveStep;
    hide PickStep;
    hide ConsiderStep;
    hide BeginStep;
    hide StreamStep;
    hide ReturnStep;
    hide ReplyStep;
    hide TakeStep;
    hide FlushBeginStep;
    hide FlushEndStep;
    match a
    case Boot => BootKeeps(cfg, m);
    case Settle(key, io) => SettleKeeps(cfg, m, key, io);
    case Serve => ServeKeeps(cfg, m);
    case Crash => DropKeeps(cfg, m);
    case Publish(env, key, hash, ok) => PublishKeeps(cfg, m, env, key, hash, ok);
    case Receive(item, runId, ok) => ReceiveKeeps(cfg, m, item, runId, ok);
    case Pick(s) => PickKeeps(cfg, m, s);
    case Consider(s, o, io) => ConsiderKeeps(cfg, m, s, o, io);
    case Begin(s, io) => BeginKeeps(cfg, m, s, io);
    case Stream(s, text, io) => StreamKeeps(cfg, m, s, text, io);
    case Return(s, result, io) => ReturnKeeps(cfg, m, s, result, io);
    case Reply(s, io) => ReplyKeeps(cfg, m, s, io);
    case TakePending => OutboxMoveKeeps(cfg, m, TakeStep(m));
    case FlushBegin(id, byPublisher) => OutboxMoveKeeps(cfg, m, FlushBeginStep(m, id, byPublisher));
    case FlushEnd(delivered) => FlushEndKeeps(cfg, m, delivered);
  }

  lemma ServeKeeps(cfg: Config, m: Machine)
    requires MachineInv(cfg, m)
    ensures MachineInv(cfg, Step(cfg, m, Serve))
  {
    hide After;
    hide Legal;
    hide LogOf;
    hide WorkersOk;
    hide CallsOk;
  }

  /** Publisher bookkeeping that writes nothing. */
  lemma OutboxMoveKeeps(cfg: Config, m: Machine, n: Machine)
    requires MachineInv(cfg, m)
    requires n == TakeStep(m) || exists id, byPublisher :: n == FlushBeginStep(m, id, byPublisher)
    ensures MachineInv(cfg, n)
  {
    hide After;
    hide Legal;
    hide LogOf;
    hide WorkersOk;
    hide CallsOk;
    hide WithinCapacity;
  }

  // ---- Theorems over all runs ----

  lemma FreshInv(cfg: Config)
    ensures MachineInv(cfg, FRESH_MACHINE)
  {
    IdleWorkers(EMPTY, []);
  }

  lemma {:induction false} RunKeeps(cfg: Config, m: Machine, actions: seq<Action>)
    requires MachineInv(cfg, m)
    ensures MachineInv(cfg, Run(cfg, m, actions))
  {
    hide MachineInv;
    hide Step;
    if actions != [] {
      RunKeeps(cfg, m, actions[..|actions| - 1]);
      StepKeeps(cfg, Run(cfg, m, actions[..|actions| - 1]), actions[|actions| - 1]);
    }
  }

  /** Whatever interleaving of workers, clients, publisher, crashes and restarts: the file is a
      legal history, a running service's index is the replay of its file, and a restart from the
      file would rebuild the same index. All guarantees about legal histories therefore hold. */
  lemma EveryRunIsLegal(cfg: Config, actions: seq<Action>)
    ensures var m := Run(cfg, FRESH_MACHINE, actions);
            && Legal(m.history) && m.log == LogOf(m.history)
            && (!m.phase.Down? ==> m.index == Replay(WireLog(m.log)))
            && After(m.history) == Replay(WireLog(m.log))
  {
    var m := Run(cfg, FRESH_MACHINE, actions);
    FreshInv(cfg);
    RunKeeps(cfg, FRESH_MACHINE, actions);
    ReplayRebuilds(m.history);
  }

  /** At most one execution: of all handler calls for one command, over every run with crashes and
      restarts, every call but the last was a retryable failure that streamed nothing. */
  lemma AtMostOneExecution(cfg: Config, actions: seq<Action>, i: nat, j: nat)
    requires var calls := Run(cfg, FRESH_MACHINE, actions).invocations;
             i < j < |calls| && calls[i].key == calls[j].key && calls[i].command
    ensures var calls := Run(cfg, FRESH_MACHINE, actions).invocations;
            calls[i].outcome == Retryable && calls[i].emits == 0
  {
    FreshInv(cfg);
    RunKeeps(cfg, FRESH_MACHINE, actions);
  }

  /** A command that has been executed, or is being executed, is never queued again. */
  lemma ExecutedIsNotQueued(cfg: Config, actions: seq<Action>, i: nat)
    requires var m := Run(cfg, FRESH_MACHINE, actions);
             i < |m.invocations| && m.invocations[i].command && m.invocations[i].outcome != Retryable
    ensures var m := Run(cfg, FRESH_MACHINE, actions);
            && m.invocations[i].key in After(m.history).work
            && After(m.history).work[m.invocations[i].key].state != Queued
  {
    FreshInv(cfg);
    RunKeeps(cfg, FRESH_MACHINE, actions);
  }

  /** While the service runs, every unpublished publication is waiting in the pending list or in
      the publisher's current batch. */
  lemma NothingUnpublishedIsLost(cfg: Config, actions: seq<Action>, id: string)
    requires var m := Run(cfg, FRESH_MACHINE, actions);
             !m.phase.Down? && id in m.index.publications && !m.index.publications[id].published
    ensures var m := Run(cfg, FRESH_MACHINE, actions); id in m.pending || id in m.batch
  {
    FreshInv(cfg);
    RunKeeps(cfg, FRESH_MACHINE, actions);
  }

  /** On an Agent Bot with a limiter the open commands never exceed its capacity. */
  lemma OpenCommandsWithinCapacity(cfg: Config, actions: seq<Action>)
    requires !cfg.console && cfg.capacity.Some?
    ensures var m := Run(cfg, FRESH_MACHINE, actions);
            |OpenCommands(After(m.history).work)| == After(m.history).pendingCommands <= cfg.capacity.value
  {
    FreshInv(cfg);
    RunKeeps(cfg, FRESH_MACHINE, actions);
    PendingCommandsExact(Run(cfg, FRESH_MACHINE, actions).history);
  }

  // ---- Work found admitted after a crash ----

  predicate FailedLast(cs: seq<Change>, key: string) {
    var events := RunEvents(cs, key);
    events != [] && events[|events| - 1].kind == "run.failed"
  }

  /** A command that a crash left admitted: it is still waiting for start-up to settle it, or it
      is done and its last event is run.failed. */
  predicate Interrupted(m: Machine, key: string) {
    && key in After(m.history).work && IsCommand(After(m.history).work[key].message.kind)
    && var state := After(m.history).work[key].state;
       && (state == Done ==> FailedLast(m.history, key))
       && (state == Done || (state == Admitted && !m.phase.Serving?))
  }

  /** The history and the calls of m go on in n; new calls are the one the step may begin. */
  predicate GrowsTo(m: Machine, a: Action, n: Machine) {
    && m.history <= n.history && |n.history| <= |m.history| + 1 && |m.invocations| <= |n.invocations|
    && (forall i :: 0 <= i < |m.invocations| ==> n.invocations[i].key == m.invocations[i].key)
    && (forall i :: |m.invocations| <= i < |n.invocations| ==>
          a.Begin? && WorkerAt(m, a.shard).Entered? && n.invocations[i].key == WorkerAt(m, a.shard).work.key)
  }

  lemma BeginGrows(cfg: Config, m: Machine, s: nat, io: Io)
    ensures GrowsTo(m, Begin(s, io), BeginStep(cfg, m, s, io))
  {
    hide Emit;
    hide WorkerAt;
  }

  lemma ConsiderGrows(cfg: Config, m: Machine, s: nat, o: Outlook, io: Io)
    ensures GrowsTo(m, Consider(s, o, io), ConsiderStep(cfg, m, s, o, io))
  {
    hide Emit;
    hide SetWork;
    hide Decide;
    hide WorkerAt;
    hide IsCommand;
  }

  lemma StreamGrows(cfg: Config, m: Machine, s: nat, text: string, io: Io)
    ensures GrowsTo(m, Stream(s, text, io), StreamStep(cfg, m, s, text, io))
  {
    hide Emit;
    hide WorkerAt;
    hide IsCommand;
  }

  lemma ReturnGrows(cfg: Config, m: Machine, s: nat, result: Result, io: Io)
    ensures GrowsTo(m, Return(s, result, io), ReturnStep(cfg, m, s, result, io))
  {
    hide Emit;
    hide SetWork;
    hide WorkerAt;
    hide IsCommand;
  }

  lemma ReplyGrows(cfg: Config, m: Machine, s: nat, io: Io)
    ensures GrowsTo(m, Reply(s, io), ReplyStep(cfg, m, s, io))
  {
    hide Emit;
    hide WorkerAt;
  }

  /** A step appends to the history, keeps the calls made so far, and makes a new one only when a
      worker begins its entered work. */
  lemma StepGrows(cfg: Config, m: Machine, a: Action)
    ensures GrowsTo(m, a, Step(cfg, m, a))
  {
    match a
    case Begin(s, io) =>
      hide BeginStep;
      hide WorkerAt;
      BeginGrows(cfg, m, s, io);
    case Consider(s, o, io) =>
      hide ConsiderStep;
      ConsiderGrows(cfg, m, s, o, io);
    case Stream(s, text, io) =>
      hide StreamStep;
      StreamGrows(cfg, m, s, text, io);
    case Return(s, result, io) =>
      hide ReturnStep;
      ReturnGrows(cfg, m, s, result, io);
    case Reply(s, io) =>
      hide ReplyStep;
      ReplyGrows(cfg, m, s, io);
    case _ => QuietGrows(cfg, m, a);
  }

  /** The steps that are no conversation worker's, or only choose its work. */
  lemma QuietGrows(cfg: Config, m: Machine, a: Action)
    requires !a.Begin? && !a.Consider? && !a.Stream? && !a.Return? && !a.Reply?
    ensures GrowsTo(m, a, Step(cfg, m, a))
  {
    hide Emit;
    hide SetWork;
    hide Write;
    hide Replay;
    hide OverCapacity;
    hide FirstOpen;
    hide Previous;
    hide MakesWork;
    hide WorkerAt;
    hide IsCommand;
  }

  /** Once settled, it stays failed and is not called again. */
  lemma DoneStaysFailed(cfg: Config, m: Machine, a: Action, key: string)
    requires MachineInv(cfg, m) && Interrupted(m, key) && After(m.history).work[key].state == Done
    ensures Interrupted(Step(cfg, m, a), key)
  {
    hide Step;
    hide After;
    hide Legal;
    hide WorkersOk;
    hide CallsOk;
    hide OutboxOk;
    var n := Step(cfg, m, a);
    StepKeeps(cfg, m, a);
    StepGrows(cfg, m, a);
    assert n.history[..|m.history|] == m.history;
    DoneIsFinal(n.history, |m.history|, key);
  }

  /** Before the service runs, only start-up touches an admitted work. */
  lemma WaitingStaysOrFails(cfg: Config, m: Machine, a: Action, key: string)
    requires MachineInv(cfg, m) && Interrupted(m, key) && After(m.history).work[key].state == Admitted
    ensures Interrupted(Step(cfg, m, a), key)
  {
    hide After;
    hide Inv;
    if a.Settle? {
      AfterInv(m.history);
      SettleWaiting(cfg, m, a.workKey, a.io, key);
    } else if a.Publish? {
      WaitingPublish(cfg, m, a, key);
    } else if a.FlushEnd? {
      WaitingFlush(cfg, m, a.delivered, key);
    } else {
      WaitingRest(cfg, m, a, key);
    }
  }

  lemma WaitingRest(cfg: Config, m: Machine, a: Action, key: string)
    requires MachineInv(cfg, m) && Interrupted(m, key) && After(m.history).work[key].state == Admitted
    requires !a.Settle? && !a.Publish? && !a.FlushEnd?
    ensures Interrupted(Step(cfg, m, a), key)
  {
    hide After;
    hide RunEvents;
    hide WorkersOk;
    hide CallsOk;
    hide Inv;
    hide Step;
    assert m.phase.Starting? ==> key in m.phase.todo;
    WaitingIdle(cfg, m, a);
  }

  /** While the service is not serving, the other steps leave the history alone. */
  lemma WaitingIdle(cfg: Config, m: Machine, a: Action)
    requires !m.phase.Serving? && !a.Settle? && !a.Publish? && !a.FlushEnd?
    requires m.phase.Starting? && a.Serve? ==> m.phase.todo != {}
    ensures Step(cfg, m, a).history == m.history && !Step(cfg, m, a).phase.Serving?
  {
    hide Replay;
    hide FirstOpen;
    hide Emit;
    hide SetWork;
    hide Write;
  }

  lemma WaitingPublish(cfg: Config, m: Machine, a: Action, key: string)
    requires MachineInv(cfg, m) && Interrupted(m, key) && After(m.history).work[key].state == Admitted && a.Publish?
    ensures Interrupted(Step(cfg, m, a), key)
  {
    hide ApplyRecord;
    hide After;
    hide RunEvents;
    hide WorkersOk;
    hide CallsOk;
    hide Previous;
    var n := PublishStep(m, a.env, a.key, a.hash, a.ok);
    if n != m {
      WaitingApart(m, n, ClientPublish(a.env, a.key, a.hash), key);
    }
  }

  lemma WaitingFlush(cfg: Config, m: Machine, delivered: bool, key: string)
    requires MachineInv(cfg, m) && Interrupted(m, key) && After(m.history).work[key].state == Admitted
    ensures Interrupted(FlushEndStep(m, delivered), key)
  {
    hide ApplyRecord;
    hide After;
    hide RunEvents;
    if !m.phase.Down? && m.flight.InFlight? && delivered {
      WaitingApart(m, FlushEndStep(m, delivered), Published(m.flight.id), key);
    }
  }

  lemma WaitingApart(m: Machine, n: Machine, c: Change, key: string)
    requires LogInv(m) && Interrupted(m, key) && After(m.history).work[key].state == Admitted && !n.phase.Serving?
    requires LegalChange(After(m.history), c) && n.history == m.history + [c]
    requires c.ClientPublish? || c.Published? || (c.Move? && c.workKey != key) || (c.Event? && c.eventOf != key)
    ensures Interrupted(n, key)
  {
    AfterInv(m.history);
    Extend(m.history, c);
    NextWorkAt(After(m.history), c, key);
    hide Next;
    hide LegalChange;
  }

  lemma SettleWaiting(cfg: Config, m: Machine, k: string, io: Io, key: string)
    requires MachineInv(cfg, m) && Interrupted(m, key) && After(m.history).work[key].state == Admitted
    requires Inv(After(m.history))
    ensures Interrupted(SettleStep(cfg, m, k, io), key)
  {
    hide After;
    hide IsHead;
    hide ApplyRecord;
    hide RunEvents;
    hide WorkersOk;
    hide CallsOk;
    if m.phase.Starting? && k in m.phase.todo && k in m.index.work {
      var w := m.index.work[k];
      assert WorkOk(m.index, k, w);
      AdmittedIsHead(m.index, k);
      if !IsCommand(w.message.kind) {
        SettleWaitingMove(cfg, m, w, io, key);
      } else {
        SettleWaitingEvent(cfg, m, w, io, key);
      }
    }
  }

  lemma SettleWaitingMove(cfg: Config, m: Machine, w: Work, io: Io, key: string)
    requires LogInv(m) && m.phase.Starting? && Interrupted(m, key) && After(m.history).work[key].state == Admitted
    requires w.key in m.index.work && m.index.work[w.key] == w && w.state == Admitted && IsHead(m.index, w.key) && w.key in m.phase.todo
    requires !IsCommand(w.message.kind) && (w.seqNo == 0)
    ensures Interrupted(SettleStep(cfg, m, w.key, io), key)
  {
    hide After;
    hide IsHead;
    hide ApplyRecord;
    hide RunEvents;
    if io.ok {
      SetWorkWrites(m.(phase := Starting(m.phase.todo - {w.key})), w, Queued, Interruption);
      WaitingApart(m, SettleStep(cfg, m, w.key, io), Move(w.key, Queued, Interruption), key);
    }
  }

  lemma SettleWaitingEvent(cfg: Config, m: Machine, w: Work, io: Io, key: string)
    requires LogInv(m) && m.phase.Starting? && Interrupted(m, key) && After(m.history).work[key].state == Admitted
    requires w.key in m.index.work && m.index.work[w.key] == w && w.state == Admitted && IsHead(m.index, w.key) && w.key in m.phase.todo
    requires IsCommand(w.message.kind)
    ensures Interrupted(SettleStep(cfg, m, w.key, io), key)
  {
    hide After;
    hide IsHead;
    hide ApplyRecord;
    hide RunEvents;
    hide Emit;
    hide IsCommand;
    var done := m.(phase := Starting(m.phase.todo - {w.key}));
    var n := SettleStep(cfg, m, w.key, io);
    EmitWrites(cfg, done, w, "run.failed", INTERRUPTED, Done, io);
    if CanEmit(done, w, io) {
      var c := Event(w.key, EventEnvelope(cfg, w, "run.failed", INTERRUPTED, io), io.hash, Done);
      assert n.history == m.history + [c];
      if w.key == key {
        FailsNow(m, n, c, key);
      } else {
        WaitingApart(m, n, c, key);
      }
    }
  }

  lemma FailsNow(m: Machine, n: Machine, c: Change, key: string)
    requires LogInv(m) && Interrupted(m, key) && LegalChange(After(m.history), c) && n.history == m.history + [c]
    requires c.Event? && c.eventOf == key && c.event.kind == "run.failed" && c.result == Done
    ensures Interrupted(n, key) && After(n.history).work[key].state == Done
  {
    hide Next;
    hide Legal;
    AfterInv(m.history);
    Extend(m.history, c);
    NextTouched(After(m.history), c);
    hide After;
    hide LegalChange;
    hide Inv;
    FailedAppended(m.history, c, key);
  }

  lemma FailedAppended(cs: seq<Change>, c: Change, key: string)
    requires c.Event? && c.eventOf == key && c.event.kind == "run.failed"
    ensures FailedLast(cs + [c], key)
  {
    assert (cs + [c])[..|cs|] == cs;
    assert RunEvents(cs + [c], key) == RunEvents(cs, key) + [c.event];
  }

  /** Work on a done command starts no call. */
  lemma NoNewCall(cfg: Config, m: Machine, a: Action, key: string)
    requires MachineInv(cfg, m) && Interrupted(m, key)
    ensures var n := Step(cfg, m, a);
            && |m.invocations| <= |n.invocations|
            && forall i :: |m.invocations| <= i < |n.invocations| ==> n.invocations[i].key != key
  {
    if a.Begin? && WorkerAt(m, a.shard).Entered? {
      WorkerHolds(cfg, m, a.shard);
      assert m.workers[a.shard].work.key != key;
    }
    StepGrows(cfg, m, a);
    hide Step;
  }

  /** A command found admitted after a crash is never called again in any continuation, and once
      the service serves again it is done, with run.failed as its last event. */
  lemma {:induction false} InterruptedNeverReruns(cfg: Config, m: Machine, actions: seq<Action>, key: string)
    requires MachineInv(cfg, m) && m.phase.Down?
    requires key in After(m.history).work && After(m.history).work[key].state == Admitted
    requires IsCommand(After(m.history).work[key].message.kind)
    ensures var n := Run(cfg, m, actions);
            && |m.invocations| <= |n.invocations|
            && (forall i :: |m.invocations| <= i < |n.invocations| ==> n.invocations[i].key != key)
            && Interrupted(n, key)
            && (n.phase.Serving? ==> After(n.history).work[key].state == Done && FailedLast(n.history, key))
  {
    if actions != [] {
      var before := actions[..|actions| - 1];
      var a := actions[|actions| - 1];
      var p := Run(cfg, m, before);
      InterruptedNeverReruns(cfg, m, before, key);
      RunKeeps(cfg, m, before);
      NoNewCall(cfg, p, a, key);
      if After(p.history).work[key].state == Done {
        DoneStaysFailed(cfg, p, a, key);
      } else {
        WaitingStaysOrFails(cfg, p, a, key);
      }
      hide Step;
      hide MachineInv;
      hide After;
      StepGrows(cfg, p, a);
    }
  }
}
