/** Every step of the delivery machine keeps its invariant. */
module DeliverySteps {
  import opened Wrappers
  import opened Protocol
  import opened Journal
  import opened DurableLog
  import opened Delivery
  import opened DeliveryInvariant

  // ---- Calls ----

  /** Closing a running call; a silent retryable close leaves the work clean. */
  lemma CloseCall(x: Index, calls: seq<Invocation>, call: nat, w: Work, streamed: bool, outcome: Outcome, result: Result)
    requires CallsOk(x, calls) && CallOk(calls, call, w, streamed) && w.key in x.work && x.work[w.key] == w
    requires w.state == Admitted && outcome != Running && (outcome == Retryable && IsCommand(w.message.kind) ==> !streamed)
    ensures var after := calls[call := calls[call].(outcome := outcome, result := Some(result))];
            && CallsOk(x, after) && CallsApart(calls, after, w.key)
            && (outcome == Retryable && IsCommand(w.message.kind) ==> Clean(after, w.key))
  {
    var after := calls[call := calls[call].(outcome := outcome, result := Some(result))];
    assert forall i :: 0 <= i < |calls| ==>
      after[i].key == calls[i].key && after[i].command == calls[i].command && after[i].emits == calls[i].emits
      && (i != call ==> after[i] == calls[i]);
    forall i, j | 0 <= i < j < |after| && after[i].command && after[i].key == after[j].key
      ensures after[i].outcome == Retryable
    {
      assert calls[i].outcome == Retryable;
    }
    if outcome == Retryable && IsCommand(w.message.kind) {
      forall i | 0 <= i < |after| && after[i].key == w.key ensures after[i].outcome == Retryable {
        assert i <= call;
        assert i < call ==> calls[i].outcome == Retryable;
      }
    }
  }

  lemma NoteCall(x: Index, calls: seq<Invocation>, call: nat, w: Work, streamed: bool, texts: seq<string>)
    requires CallsOk(x, calls) && CallOk(calls, call, w, streamed)
    ensures CallsOk(x, NoteEmit(calls, call, texts)) && CallsApart(calls, NoteEmit(calls, call, texts), w.key)
    ensures CallOk(NoteEmit(calls, call, texts), call, w, true)
  {
    var after := NoteEmit(calls, call, texts);
    assert forall i :: 0 <= i < |calls| ==>
      after[i].key == calls[i].key && after[i].command == calls[i].command && after[i].outcome == calls[i].outcome
      && (i != call ==> after[i] == calls[i]);
    forall i, j | 0 <= i < j < |after| && after[i].command && after[i].key == after[j].key
      ensures after[i].outcome == Retryable
    {
      assert calls[i].outcome == Retryable;
    }
  }

  lemma OpenCall(x: Index, calls: seq<Invocation>, w: Work)
    requires CallsOk(x, calls) && w.key in x.work && x.work[w.key] == w && w.state == Admitted
    requires IsCommand(w.message.kind) ==> Clean(calls, w.key)
    ensures var after := calls + [Invocation(w.key, IsCommand(w.message.kind), 0, Running, [], None)];
            CallsOk(x, after) && CallsApart(calls, after, w.key) && CallOk(after, |calls|, w, false)
  {
    var after := calls + [Invocation(w.key, IsCommand(w.message.kind), 0, Running, [], None)];
    assert forall i :: 0 <= i < |calls| ==> after[i] == calls[i];
    forall i, j | 0 <= i < j < |after| && after[i].command && after[i].key == after[j].key
      ensures after[i].outcome == Retryable
    {
      if j < |calls| {
        assert calls[i].outcome == Retryable;
      }
    }
  }

  // ---- One write by a worker ----

  /** The machine as worker s leaves it: its new standing and its notes on calls. */
  function Stand(m: Machine, s: nat, worker: Worker, calls: seq<Invocation>): Machine
    requires s < |m.workers|
  {
    m.(workers := m.workers[s := worker], invocations := calls)
  }

  /** What a change to one own work needs, stated on the work. */
  predicate MayWrite(m: Machine, s: nat, w: Work, calls: seq<Invocation>) {
    && m.phase.Serving? && s < WORKER_COUNT && |m.workers| == WORKER_COUNT && Owns(m.index, s, w)
    && CallsApart(m.invocations, calls, w.key) && CallsOk(m.index, calls)
  }

  lemma TouchedBy(m: Machine, s: nat, w: Work, c: Change)
    requires Inv(m.index) && Owns(m.index, s, w) && LegalChange(m.index, c) && (c.Move? || c.Event?) && ChangedKey(c) == w.key
    ensures Touched(m.index, Next(m.index, c), w.key)
    ensures Next(m.index, c).work[w.key] == (if c.Move? then w.(state := c.to) else NextWork(w, c.result))
    ensures Owns(Next(m.index, c), s, Next(m.index, c).work[w.key])
  {
    hide Next;
    hide IsHead;
    hide QueueInv;
    hide WorkShard;
    NextTouched(m.index, c);
    HeadTouched(m.index, Next(m.index, c), w.key);
    hide LegalChange;
    hide Inv;
  }

  /** The worker's new standing is right for its work, whatever else the journal holds. */
  ghost predicate StandsOk(calls: seq<Invocation>, s: nat, worker: Worker, w: Work) {
    forall y: Index :: Owns(y, s, w) ==> WorkerOk(y, calls, s, worker)
  }

  lemma HandlingStands(calls: seq<Invocation>, s: nat, w: Work, streamed: bool, call: nat)
    requires w.state == Admitted && CallOk(calls, call, w, streamed)
    requires IsCommand(w.message.kind) ==> w.seqNo >= 1 && (!streamed ==> w.seqNo == 1)
    ensures StandsOk(calls, s, Handling(w, streamed, call), w)
  {
    hide Owns;
    hide CallOk;
  }

  lemma ReplyingStands(calls: seq<Invocation>, s: nat, w: Work, chunks: seq<string>, kind: string, adapterRunId: string, call: nat)
    requires w.state == Admitted && IsCommand(w.message.kind) && w.seqNo >= 1
    requires kind == "run.completed" || kind == "run.accepted"
    ensures StandsOk(calls, s, Replying(w, chunks, kind, adapterRunId, call), w)
  {
    hide Owns;
  }

  /** emit succeeds: the worker goes on with the new copy. */
  lemma EmitAndGo(cfg: Config, m: Machine, s: nat, w: Work, kind: string, payload: Payload, to: WorkState, io: Io,
                  worker: Worker, calls: seq<Invocation>, n: Machine)
    requires MachineInv(cfg, m) && MayWrite(m, s, w, calls) && IsCommand(w.message.kind) && EventOk(w, kind, to)
    requires CanEmit(m, w, io) && n == Emit(cfg, Stand(m, s, worker, calls), w, kind, payload, to, io).0
    requires StandsOk(calls, s, worker, NextWork(w, to))
    requires to != Queued
    ensures MachineInv(cfg, n)
    ensures Emit(cfg, Stand(m, s, worker, calls), w, kind, payload, to, io).1 == Some(NextWork(w, to))
  {
    hide ApplyRecord;
    hide After;
    hide Legal;
    hide LogOf;
    hide LegalChange;
    hide OutboxOk;
    hide WithinCapacity;
    hide CallsOk;
    hide WorkersOk;
    hide WorkerOk;
    hide IsHead;
    var m0 := Stand(m, s, worker, calls);
    EmitWrites(cfg, m0, w, kind, payload, to, io);
    var c := Event(w.key, EventEnvelope(cfg, w, kind, payload, io), io.hash, to);
    TouchedBy(m, s, w, c);
    CallsAfterTouch(m.index, Next(m.index, c), w.key, calls);
    assert WorkerOk(Next(m.index, c), calls, s, worker);
    WroteOwnWork(cfg, m, n, s, c);
  }

  lemma EmitFails(cfg: Config, m: Machine, s: nat, w: Work, kind: string, payload: Payload, to: WorkState, io: Io,
                  worker: Worker, calls: seq<Invocation>, n: Machine)
    requires MachineInv(cfg, m) && MayWrite(m, s, w, calls) && !CanEmit(m, w, io)
    requires n == Emit(cfg, Stand(m, s, worker, calls), w, kind, payload, to, io).0
    requires WorkerOk(m.index, calls, s, worker)
    ensures MachineInv(cfg, n) && n == Stand(m, s, worker, calls)
    ensures Emit(cfg, Stand(m, s, worker, calls), w, kind, payload, to, io).1 == None
  {
    hide After;
    hide Legal;
    hide LogOf;
    hide OutboxOk;
    hide WithinCapacity;
    hide CallsOk;
    hide WorkersOk;
    hide WorkerOk;
    MovedOwnWorker(cfg, m, n, s, w.key);
  }

  /** The worker gives its work a terminal event, if it can, and becomes idle. */
  lemma EmitAndIdle(cfg: Config, m: Machine, s: nat, w: Work, kind: string, payload: Payload, io: Io, calls: seq<Invocation>)
    requires MachineInv(cfg, m) && MayWrite(m, s, w, calls) && IsCommand(w.message.kind) && EventOk(w, kind, Done)
    ensures MachineInv(cfg, Emit(cfg, Stand(m, s, Idle, calls), w, kind, payload, Done, io).0)
  {
    hide Emit;
    hide MachineInv;
    var n := Emit(cfg, Stand(m, s, Idle, calls), w, kind, payload, Done, io).0;
    if CanEmit(m, w, io) {
      EmitAndGo(cfg, m, s, w, kind, payload, Done, io, Idle, calls, n);
    } else {
      EmitFails(cfg, m, s, w, kind, payload, Done, io, Idle, calls, n);
    }
  }

  /** The worker moves its work to a new state, if the append succeeds. */
  lemma SetWorkAndGo(cfg: Config, m: Machine, s: nat, w: Work, to: WorkState, cause: Cause, worker: Worker,
                     calls: seq<Invocation>, n: Machine)
    requires MachineInv(cfg, m) && MayWrite(m, s, w, calls) && MoveOk(w, to) && CauseOk(w, to, cause)
    requires to == Queued && IsCommand(w.message.kind) ==> Clean(calls, w.key)
    requires n == SetWork(Stand(m, s, worker, calls), w, to, cause, true)
    requires StandsOk(calls, s, worker, w.(state := to))
    ensures MachineInv(cfg, n)
  {
    hide ApplyRecord;
    hide After;
    hide Legal;
    hide LogOf;
    hide LegalChange;
    hide OutboxOk;
    hide WithinCapacity;
    hide CallsOk;
    hide WorkersOk;
    hide WorkerOk;
    hide IsHead;
    SetWorkWrites(Stand(m, s, worker, calls), w, to, cause);
    var c := Move(w.key, to, cause);
    TouchedBy(m, s, w, c);
    CallsAfterTouch(m.index, Next(m.index, c), w.key, calls);
    assert WorkerOk(Next(m.index, c), calls, s, worker);
    WroteOwnWork(cfg, m, n, s, c);
  }

  lemma SetWorkAndIdle(cfg: Config, m: Machine, s: nat, w: Work, to: WorkState, cause: Cause, ok: bool, calls: seq<Invocation>)
    requires MachineInv(cfg, m) && MayWrite(m, s, w, calls) && MoveOk(w, to) && CauseOk(w, to, cause)
    requires to == Queued && IsCommand(w.message.kind) ==> Clean(calls, w.key)
    ensures MachineInv(cfg, SetWork(Stand(m, s, Idle, calls), w, to, cause, ok))
  {
    var n := SetWork(Stand(m, s, Idle, calls), w, to, cause, ok);
    if ok {
      SetWorkAndGo(cfg, m, s, w, to, cause, Idle, calls, n);
    } else {
      hide After;
      hide LogInv;
      hide OutboxOk;
      hide WithinCapacity;
      hide CallsOk;
      hide WorkersOk;
      MovedOwnWorker(cfg, m, n, s, w.key);
    }
  }

  // ---- The steps of a worker ----

  /** emit never looks at the workers or the calls. */
  lemma EmitFrame(cfg: Config, m: Machine, s: nat, worker: Worker, calls: seq<Invocation>,
                  w: Work, kind: string, payload: Payload, to: WorkState, io: Io)
    requires s < |m.workers|
    ensures var r := Emit(cfg, m, w, kind, payload, to, io);
            var q := Emit(cfg, Stand(m, s, worker, calls), w, kind, payload, to, io);
            && q.1 == r.1 && r.0.workers == m.workers && r.0.invocations == m.invocations && r.0.phase == m.phase
            && q.0 == Stand(r.0, s, worker, calls)
  {
    hide ApplyRecord;
  }

  lemma EmitRefused(cfg: Config, m: Machine, w: Work, kind: string, payload: Payload, to: WorkState, io: Io)
    requires !CanEmit(m, w, io)
    ensures Emit(cfg, m, w, kind, payload, to, io) == (m, None)
  {
  }

  /** What the invariant says of the worker about to move. */
  lemma WorkerHolds(cfg: Config, m: Machine, s: nat)
    requires MachineInv(cfg, m) && !WorkerAt(m, s).Idle?
    ensures m.phase.Serving? && s < WORKER_COUNT && |m.workers| == WORKER_COUNT && WorkerAt(m, s) == m.workers[s]
    ensures WorkerOk(m.index, m.invocations, s, m.workers[s]) && Owns(m.index, s, m.workers[s].work)
    ensures MayWrite(m, s, m.workers[s].work, m.invocations)
    ensures Inv(m.index)
  {
    hide After;
    AfterInv(m.history);
    assert WorkerOk(m.index, m.invocations, s, m.workers[s]);
  }

  lemma RunningHolds(cfg: Config, m: Machine)
    requires MachineInv(cfg, m) && !m.phase.Down?
    ensures Inv(m.index) && |m.workers| == WORKER_COUNT && CallsOk(m.index, m.invocations)
  {
    hide After;
    hide Inv;
    hide CallsOk;
    hide OutboxOk;
    AfterInv(m.history);
  }

  lemma PickKeeps(cfg: Config, m: Machine, s: nat)
    requires MachineInv(cfg, m)
    ensures MachineInv(cfg, PickStep(m, s))
  {
    hide MachineInv;
    hide CallsOk;
    hide FirstOpen;
    var n := PickStep(m, s);
    if n != m {
      RunningHolds(cfg, m);
      var first := FirstOpen(m.index, m.index.queues[s]).value;
      ChosenOwns(m.index, s, first);
      hide Inv;
      hide IsHead;
      MovedOwnWorker(cfg, m, n, s, first);
    }
  }

  lemma ChosenOwns(x: Index, s: nat, key: string)
    requires WorkInv(x) && QueueInv(x) && s < WORKER_COUNT && FirstOpen(x, x.queues[s]) == Some(key)
    ensures key in x.work && Owns(x, s, x.work[key]) && x.work[key].state != Done
  {
    hide WorkShard;
    hide FirstOpen;
    var queue := x.queues[s];
    var i :| 0 <= i < |queue| && queue[i] == key && DoneBefore(x, queue, i);
    assert QueueOk(x.work, queue, s);
    assert WorkOk(x, key, x.work[key]);
  }

  lemma ConsiderKeeps(cfg: Config, m: Machine, s: nat, o: Outlook, io: Io)
    requires MachineInv(cfg, m)
    ensures MachineInv(cfg, ConsiderStep(cfg, m, s, o, io))
  {
    hide MachineInv;
    hide Emit;
    hide SetWork;
    hide Decide;
    hide IsHead;
    hide CallsOk;
    if WorkerAt(m, s).Chosen? {
      WorkerHolds(cfg, m, s);
      var w := m.workers[s].work;
      assert WorkOk(m.index, w.key, w);
      hide Inv;
      hide MayWrite;
      assert SetWorker(m, s, Idle) == Stand(m, s, Idle, m.invocations);
      if w.state == Admitted {
        if IsCommand(w.message.kind) {
          EmitAndIdle(cfg, m, s, w, "run.failed", INTERRUPTED.(stage := "journal"), io, m.invocations);
        } else {
          SetWorkAndIdle(cfg, m, s, w, Queued, Interruption, io.ok, m.invocations);
        }
      } else {
        ConsiderQueued(cfg, m, s, w, o, io);
      }
    }
  }

  lemma ConsiderQueued(cfg: Config, m: Machine, s: nat, w: Work, o: Outlook, io: Io)
    requires MachineInv(cfg, m) && MayWrite(m, s, w, m.invocations) && w.state == Queued && WorkOk(m.index, w.key, w)
    requires WorkerAt(m, s) == Chosen(w) && SetWorker(m, s, Idle) == Stand(m, s, Idle, m.invocations)
    ensures MachineInv(cfg, ConsiderStep(cfg, m, s, o, io))
  {
    DecideIsSound(cfg, w, o);
    hide MachineInv;
    hide MayWrite;
    hide Emit;
    hide SetWork;
    hide Decide;
    hide WorkerAt;
    hide SetWorker;
    hide Stand;
    match Decide(cfg, w, o)
    case Wait => BecomeIdle(cfg, m, s, w);
    case Retire(cause) => SetWorkAndIdle(cfg, m, s, w, Done, cause, io.ok, m.invocations);
    case Reject(payload) => EmitAndIdle(cfg, m, s, w, "run.failed", payload, io, m.invocations);
    case Admit =>
      if io.ok {
        AdmitKeeps(cfg, m, s, w);
      } else {
        BecomeIdle(cfg, m, s, w);
      }
  }

  /** Only a command is rejected with an event. */
  lemma DecideIsSound(cfg: Config, w: Work, o: Outlook)
    ensures Decide(cfg, w, o).Reject? ==> IsCommand(w.message.kind)
    ensures Decide(cfg, w, o).Retire? ==> CauseOk(w, Done, Decide(cfg, w, o).cause)
  {
  }

  lemma BecomeIdle(cfg: Config, m: Machine, s: nat, w: Work)
    requires MachineInv(cfg, m) && MayWrite(m, s, w, m.invocations)
    ensures MachineInv(cfg, Stand(m, s, Idle, m.invocations))
  {
    hide After;
    hide LogInv;
    hide OutboxOk;
    hide WithinCapacity;
    hide CallsOk;
    hide WorkersOk;
    MovedOwnWorker(cfg, m, Stand(m, s, Idle, m.invocations), s, w.key);
  }

  /** A queued command has only silent retryable calls behind it. */
  lemma QueuedIsClean(x: Index, calls: seq<Invocation>, w: Work)
    requires CallsOk(x, calls) && w.key in x.work && x.work[w.key] == w && w.state == Queued && IsCommand(w.message.kind)
    ensures Clean(calls, w.key)
  {
  }

  lemma AdmitKeeps(cfg: Config, m: Machine, s: nat, w: Work)
    requires MachineInv(cfg, m) && MayWrite(m, s, w, m.invocations) && w.state == Queued && WorkOk(m.index, w.key, w)
    ensures MachineInv(cfg, SetWorker(SetWork(m, w, Admitted, Admission, true), s, Delivery.Entered(w.(state := Admitted))))
  {
    if IsCommand(w.message.kind) {
      QueuedIsClean(m.index, m.invocations, w);
    }
    hide MachineInv;
    var worker := Delivery.Entered(w.(state := Admitted));
    var n := SetWork(Stand(m, s, worker, m.invocations), w, Admitted, Admission, true);
    assert n == SetWorker(SetWork(m, w, Admitted, Admission, true), s, worker);
    SetWorkAndGo(cfg, m, s, w, Admitted, Admission, worker, m.invocations, n);
  }

  lemma BeginKeeps(cfg: Config, m: Machine, s: nat, io: Io)
    requires MachineInv(cfg, m)
    ensures MachineInv(cfg, BeginStep(cfg, m, s, io))
  {
    hide Emit;
    hide IsHead;
    hide Inv;
    hide CallsApart;
    hide CallsOk;
    hide MachineInv;
    if WorkerAt(m, s).Entered? {
      WorkerHolds(cfg, m, s);
      var w := m.workers[s].work;
      OpenCall(m.index, m.invocations, w);
      var calls := m.invocations + [Invocation(w.key, IsCommand(w.message.kind), 0, Running, [], None)];
      if IsCommand(w.message.kind) && w.seqNo == 0 {
        StartAndCall(cfg, m, s, w, calls, io);
      } else {
        CallDirectly(cfg, m, s, w, calls);
      }
    }
  }

  lemma CallDirectly(cfg: Config, m: Machine, s: nat, w: Work, calls: seq<Invocation>)
    requires MachineInv(cfg, m) && MayWrite(m, s, w, calls) && w.state == Admitted
    requires calls == m.invocations + [Invocation(w.key, IsCommand(w.message.kind), 0, Running, [], None)]
    requires CallOk(calls, |m.invocations|, w, false) && (IsCommand(w.message.kind) ==> w.seqNo == 1)
    ensures MachineInv(cfg, Call(m, s, w))
  {
    hide After;
    hide LogInv;
    hide OutboxOk;
    hide WithinCapacity;
    hide CallsOk;
    hide WorkersOk;
    MovedOwnWorker(cfg, m, Call(m, s, w), s, w.key);
  }

  lemma StartAndCall(cfg: Config, m: Machine, s: nat, w: Work, calls: seq<Invocation>, io: Io)
    requires MachineInv(cfg, m) && MayWrite(m, s, w, calls) && MayWrite(m, s, w, m.invocations)
    requires w.state == Admitted && IsCommand(w.message.kind) && w.seqNo == 0
    requires calls == m.invocations + [Invocation(w.key, true, 0, Running, [], None)] && CallOk(calls, |m.invocations|, w, false)
    ensures var r := Emit(cfg, m, w, "run.started", NO_PAYLOAD, Admitted, io);
            MachineInv(cfg, if r.1.Some? then Call(r.0, s, r.1.value) else SetWorker(m, s, Idle))
  {
    var r := Emit(cfg, m, w, "run.started", NO_PAYLOAD, Admitted, io);
    var next := NextWork(w, Admitted);
    var worker := Handling(next, false, |m.invocations|);
    hide MachineInv;
    hide Emit;
    if CanEmit(m, w, io) {
      var n := Emit(cfg, Stand(m, s, worker, calls), w, "run.started", NO_PAYLOAD, Admitted, io).0;
      EmitFrame(cfg, m, s, worker, calls, w, "run.started", NO_PAYLOAD, Admitted, io);
      HandlingStands(calls, s, next, false, |m.invocations|);
      hide StandsOk;
      EmitAndGo(cfg, m, s, w, "run.started", NO_PAYLOAD, Admitted, io, worker, calls, n);
      assert n == Call(r.0, s, next);
    } else {
      EmitRefused(cfg, m, w, "run.started", NO_PAYLOAD, Admitted, io);
      BecomeIdle(cfg, m, s, w);
      assert SetWorker(m, s, Idle) == Stand(m, s, Idle, m.invocations);
    }
  }

  lemma StreamKeeps(cfg: Config, m: Machine, s: nat, text: string, io: Io)
    requires MachineInv(cfg, m)
    ensures MachineInv(cfg, StreamStep(cfg, m, s, text, io))
  {
    hide MachineInv;
    hide IsHead;
    hide Inv;
    hide CallsApart;
    hide CallsOk;
    hide Emit;
    if WorkerAt(m, s).Handling? && IsCommand(WorkerAt(m, s).work.message.kind) {
      WorkerHolds(cfg, m, s);
      var at := m.workers[s];
      var texts := if CanEmit(m, at.work, io) then [text] else [];
      NoteCall(m.index, m.invocations, at.call, at.work, at.streamed, texts);
      StreamEmit(cfg, m, s, at.work, at.call, AnswerText(text), texts, io);
    }
  }

  lemma StreamEmit(cfg: Config, m: Machine, s: nat, w: Work, call: nat, payload: Payload, texts: seq<string>, io: Io)
    requires var calls := NoteEmit(m.invocations, call, texts);
             && MachineInv(cfg, m) && MayWrite(m, s, w, calls) && CallOk(calls, call, w, true)
             && w.state == Admitted && IsCommand(w.message.kind) && w.seqNo >= 1
    ensures var r := Emit(cfg, m, w, "run.output.delta", payload, Admitted, io);
            && (r.1.Some? <==> CanEmit(m, w, io))
            && MachineInv(cfg, SetWorker(r.0, s, Handling(if r.1.Some? then r.1.value else w, true, call))
                                 .(invocations := NoteEmit(m.invocations, call, texts)))
  {
    var calls := NoteEmit(m.invocations, call, texts);
    var r := Emit(cfg, m, w, "run.output.delta", payload, Admitted, io);
    hide MachineInv;
    hide NoteEmit;
    hide Emit;
    var worker := Handling(if CanEmit(m, w, io) then NextWork(w, Admitted) else w, true, call);
    var n := Emit(cfg, Stand(m, s, worker, calls), w, "run.output.delta", payload, Admitted, io).0;
    EmitFrame(cfg, m, s, worker, calls, w, "run.output.delta", payload, Admitted, io);
    if CanEmit(m, w, io) {
      HandlingStands(calls, s, NextWork(w, Admitted), true, call);
      hide StandsOk;
      EmitAndGo(cfg, m, s, w, "run.output.delta", payload, Admitted, io, worker, calls, n);
    } else {
      EmitFails(cfg, m, s, w, "run.output.delta", payload, Admitted, io, worker, calls, n);
    }
  }

  lemma ReturnKeeps(cfg: Config, m: Machine, s: nat, result: Result, io: Io)
    requires MachineInv(cfg, m)
    ensures MachineInv(cfg, ReturnStep(cfg, m, s, result, io))
  {
    hide Emit;
    hide SetWork;
    hide IsHead;
    hide Inv;
    hide CallsApart;
    hide CallsOk;
    hide MachineInv;
    if WorkerAt(m, s).Handling? {
      WorkerHolds(cfg, m, s);
      var at := m.workers[s];
      var w := at.work;
      if !IsCommand(w.message.kind) {
        var again := result.Failed? && (w.message.kind == "transfer.available" || result.retryable);
        ReturnToIdle(cfg, m, s, w, at.call, at.streamed, if again then Retryable else Finished, result,
                     if again then Queued else Done, if again then Retry else Handled, io.ok);
      } else if result.Failed? {
        if !at.streamed && result.retryable {
          ReturnToIdle(cfg, m, s, w, at.call, at.streamed, Retryable, result, Queued, Retry, io.ok);
        } else {
          ReturnToFail(cfg, m, s, w, at.call, at.streamed, result, io);
        }
      } else {
        ReturnToReply(cfg, m, s, w, at.call, at.streamed, if at.streamed then [] else result.chunks,
                      if result.accepted then "run.accepted" else "run.completed", result);
      }
    }
  }

  lemma ReturnToIdle(cfg: Config, m: Machine, s: nat, w: Work, call: nat, streamed: bool, outcome: Outcome, result: Result,
                     to: WorkState, cause: Cause, ok: bool)
    requires MachineInv(cfg, m) && MayWrite(m, s, w, m.invocations) && CallOk(m.invocations, call, w, streamed)
    requires w.state == Admitted && MoveOk(w, to) && CauseOk(w, to, cause) && outcome != Running && (to == Queued ==> outcome == Retryable)
    requires outcome == Retryable && IsCommand(w.message.kind) ==> !streamed
    ensures MachineInv(cfg, SetWork(Close(SetWorker(m, s, Idle), call, outcome, result), w, to, cause, ok))
  {
    hide MachineInv;
    CloseCall(m.index, m.invocations, call, w, streamed, outcome, result);
    var calls := m.invocations[call := m.invocations[call].(outcome := outcome, result := Some(result))];
    assert Close(SetWorker(m, s, Idle), call, outcome, result) == Stand(m, s, Idle, calls);
    SetWorkAndIdle(cfg, m, s, w, to, cause, ok, calls);
  }

  lemma ReturnToFail(cfg: Config, m: Machine, s: nat, w: Work, call: nat, streamed: bool, result: Result, io: Io)
    requires MachineInv(cfg, m) && MayWrite(m, s, w, m.invocations) && CallOk(m.invocations, call, w, streamed)
    requires w.state == Admitted && IsCommand(w.message.kind) && result.Failed?
    ensures MachineInv(cfg, Emit(cfg, Close(SetWorker(m, s, Idle), call, Finished, result), w, "run.failed", result.payload, Done, io).0)
  {
    hide MachineInv;
    hide Emit;
    CloseCall(m.index, m.invocations, call, w, streamed, Finished, result);
    var calls := m.invocations[call := m.invocations[call].(outcome := Finished, result := Some(result))];
    assert Close(SetWorker(m, s, Idle), call, Finished, result) == Stand(m, s, Idle, calls);
    EmitAndIdle(cfg, m, s, w, "run.failed", result.payload, io, calls);
  }

  lemma ReturnToReply(cfg: Config, m: Machine, s: nat, w: Work, call: nat, streamed: bool, chunks: seq<string>, kind: string,
                      result: Result)
    requires MachineInv(cfg, m) && MayWrite(m, s, w, m.invocations) && CallOk(m.invocations, call, w, streamed)
    requires w.state == Admitted && IsCommand(w.message.kind) && w.seqNo >= 1 && result.Returned?
    requires kind == "run.completed" || kind == "run.accepted"
    ensures MachineInv(cfg, Close(SetWorker(m, s, Replying(w, chunks, kind, result.adapterRunId, call)), call, Finished, result))
  {
    hide After;
    hide LogInv;
    hide OutboxOk;
    hide WithinCapacity;
    hide CallsOk;
    hide WorkersOk;
    CloseCall(m.index, m.invocations, call, w, streamed, Finished, result);
    MovedOwnWorker(cfg, m, Close(SetWorker(m, s, Replying(w, chunks, kind, result.adapterRunId, call)), call, Finished, result), s, w.key);
  }

  lemma ReplyKeeps(cfg: Config, m: Machine, s: nat, io: Io)
    requires MachineInv(cfg, m)
    ensures MachineInv(cfg, ReplyStep(cfg, m, s, io))
  {
    hide IsHead;
    hide Inv;
    hide CallsApart;
    hide CallsOk;
    hide MachineInv;
    hide Emit;
    if WorkerAt(m, s).Replying? {
      WorkerHolds(cfg, m, s);
      var at := m.workers[s];
      assert SetWorker(m, s, Idle) == Stand(m, s, Idle, m.invocations);
      if at.chunks == [] {
        EmitAndIdle(cfg, m, s, at.work, at.kind, Completion(at.adapterRunId), io, m.invocations);
      } else {
        ReplyChunk(cfg, m, s, at, io);
      }
    }
  }

  lemma ReplyChunk(cfg: Config, m: Machine, s: nat, at: Worker, io: Io)
    requires at.Replying? && var w := at.work;
             && MachineInv(cfg, m) && MayWrite(m, s, w, m.invocations) && at.chunks != []
             && w.state == Admitted && IsCommand(w.message.kind) && w.seqNo >= 1
             && (at.kind == "run.completed" || at.kind == "run.accepted")
    ensures var r := Emit(cfg, m, at.work, "run.output.delta", AnswerText(at.chunks[0]), Admitted, io);
            MachineInv(cfg, if r.1.Some? then SetWorker(r.0, s, at.(work := r.1.value, chunks := at.chunks[1..]))
                            else SetWorker(m, s, Idle))
  {
    var w := at.work;
    var payload := AnswerText(at.chunks[0]);
    var r := Emit(cfg, m, w, "run.output.delta", payload, Admitted, io);
    hide MachineInv;
    hide Emit;
    if CanEmit(m, w, io) {
      var worker := at.(work := NextWork(w, Admitted), chunks := at.chunks[1..]);
      var n := Emit(cfg, Stand(m, s, worker, m.invocations), w, "run.output.delta", payload, Admitted, io).0;
      EmitFrame(cfg, m, s, worker, m.invocations, w, "run.output.delta", payload, Admitted, io);
      ReplyingStands(m.invocations, s, NextWork(w, Admitted), at.chunks[1..], at.kind, at.adapterRunId, at.call);
      hide StandsOk;
      EmitAndGo(cfg, m, s, w, "run.output.delta", payload, Admitted, io, worker, m.invocations, n);
    } else {
      EmitRefused(cfg, m, w, "run.output.delta", payload, Admitted, io);
      BecomeIdle(cfg, m, s, w);
      assert SetWorker(m, s, Idle) == Stand(m, s, Idle, m.invocations);
    }
  }
}
