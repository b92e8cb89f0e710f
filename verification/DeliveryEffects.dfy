/** What each step of the delivery machine does, in terms of its inputs: which event or state change
    is journalled, with which content, who is called, and where the worker then stands
    (internal/messaging/service.go). */
module DeliveryEffects {
  import opened Wrappers
  import opened Protocol
  import opened Journal
  import opened DurableLog
  import opened DurableTheorems
  import opened Delivery
  import opened DeliveryInvariant
  import opened DeliverySteps

  // ---- What is written ----

  /** The journal takes an event: the append succeeds, the generated ID is fresh, and there is a run. */
  predicate Ready(m: Machine, w: Work, io: Io) {
    io.ok && io.id != "" && io.id !in m.index.publications && w.runId != ""
  }

  /** The event that answers the request of work w, from this Bot. */
  predicate IsEvent(cfg: Config, w: Work, e: Envelope, kind: string, payload: Payload, io: Io) {
    && e.id == io.id && e.kind == kind && e.payload == payload && e.from == cfg.self && e.expiresAt == io.expiresAt
    && e.to == w.message.from && e.agentId == w.message.agentId && e.sessionKey == w.message.sessionKey
    && e.requestId == w.message.id && e.runId == w.runId && e.seqNo == w.seqNo + 1
  }

  /** One record: the event, new and pending in the outbox, and the work's new state. */
  predicate EventWritten(cfg: Config, m: Machine, n: Machine, w: Work, kind: string, payload: Payload, to: WorkState, io: Io) {
    && |n.history| == |m.history| + 1 && n.history[..|m.history|] == m.history
    && var c := n.history[|m.history|];
       && c.Event? && c.eventOf == w.key && c.result == to && IsEvent(cfg, w, c.event, kind, payload, io)
       && io.id in n.index.publications && n.index.publications[io.id].message == c.event
       && !n.index.publications[io.id].published && io.id in n.pending
       && n.index.publications.Keys == m.index.publications.Keys + {io.id}
       && w.key in n.index.work && n.index.work[w.key] == w.(seqNo := w.seqNo + 1, state := to)
  }

  predicate StateWritten(m: Machine, n: Machine, w: Work, to: WorkState, cause: Cause) {
    && n.history == m.history + [Move(w.key, to, cause)] && n.index.publications == m.index.publications
    && w.key in n.index.work && n.index.work[w.key] == w.(state := to)
  }

  predicate NothingWritten(m: Machine, n: Machine) {
    n.log == m.log && n.history == m.history && n.index == m.index && n.pending == m.pending
  }

  /** Worker s stands somewhere else, and no other worker moved. */
  predicate Stands(m: Machine, n: Machine, s: nat, worker: Worker) {
    s < |m.workers| && n.workers == m.workers[s := worker] && n.phase == m.phase && n.batch == m.batch && n.flight == m.flight
  }

  predicate Current(m: Machine, w: Work) {
    LogInv(m) && !m.phase.Down? && w.key in m.index.work && m.index.work[w.key] == w && IsHead(m.index, w.key)
  }

  lemma EmitIsWrite(cfg: Config, m: Machine, w: Work, kind: string, payload: Payload, to: WorkState, io: Io)
    requires Current(m, w) && IsCommand(w.message.kind) && EventOk(w, kind, to) && Ready(m, w, io)
    ensures var c := Event(w.key, EventEnvelope(cfg, w, kind, payload, io), io.hash, to);
            && Inv(m.index) && LegalChange(m.index, c)
            && Emit(cfg, m, w, kind, payload, to, io) == (Write(m, RecordOf(m.index, c), c), Some(NextWork(w, to)))
  {
    hide After;
    hide IsHead;
    hide EventOk;
    hide Emit;
    hide Write;
    hide LegalChange;
    hide Inv;
    hide RecordOf;
    hide EventEnvelope;
    hide Next;
    EmitWrites(cfg, m, w, kind, payload, to, io);
  }

  /** An event of a current command is written exactly if the journal takes it. */
  lemma EmitEffect(cfg: Config, m: Machine, w: Work, kind: string, payload: Payload, to: WorkState, io: Io)
    requires Current(m, w) && IsCommand(w.message.kind) && EventOk(w, kind, to)
    ensures var r := Emit(cfg, m, w, kind, payload, to, io);
            && r.0.workers == m.workers && r.0.invocations == m.invocations && r.0.phase == m.phase
            && r.0.batch == m.batch && r.0.flight == m.flight
            && (r.1.Some? <==> Ready(m, w, io))
            && (if Ready(m, w, io) then
                  r.1 == Some(w.(seqNo := w.seqNo + 1, state := to)) && EventWritten(cfg, m, r.0, w, kind, payload, to, io)
                else r.0 == m)
  {
    hide Emit;
    hide Write;
    hide RecordOf;
    hide EventEnvelope;
    hide LegalChange;
    hide Inv;
    hide EventOk;
    hide IsEvent;
    if Ready(m, w, io) {
      EmitIsWrite(cfg, m, w, kind, payload, to, io);
      hide Current;
      EnvelopeIs(cfg, w, kind, payload, io);
      var c := Event(w.key, EventEnvelope(cfg, w, kind, payload, io), io.hash, to);
      EventLands(m, c, w);
      assert EventWritten(cfg, m, Write(m, RecordOf(m.index, c), c), w, kind, payload, to, io);
    } else {
      hide Current;
      EmitRefused(cfg, m, w, kind, payload, to, io);
    }
  }

  lemma EnvelopeIs(cfg: Config, w: Work, kind: string, payload: Payload, io: Io)
    ensures IsEvent(cfg, w, EventEnvelope(cfg, w, kind, payload, io), kind, payload, io)
    ensures EventEnvelope(cfg, w, kind, payload, io).id == io.id
  {
  }

  lemma EventLands(m: Machine, c: Change, w: Work)
    requires Inv(m.index) && LegalChange(m.index, c) && c.Event? && c.eventOf == w.key && m.index.work[w.key] == w
    ensures var n := Write(m, RecordOf(m.index, c), c);
            && n.history == m.history + [c] && n.workers == m.workers && n.invocations == m.invocations
            && n.phase == m.phase && n.batch == m.batch && n.flight == m.flight
            && c.event.id in n.index.publications && n.index.publications[c.event.id].message == c.event
            && !n.index.publications[c.event.id].published && c.event.id in n.pending
            && n.index.publications.Keys == m.index.publications.Keys + {c.event.id}
            && w.key in n.index.work && n.index.work[w.key] == w.(seqNo := w.seqNo + 1, state := c.result)
  {
    hide Inv;
    hide ApplyRecord;
    hide LegalChange;
    assert Inv(m.index) ==> WorkInv(m.index) && KeyInv(m.index) && PubInv(m.index) by {
      if Inv(m.index) {
        InvParts(m.index);
      }
    }
    NextAdded(m.index, c);
    NextTouched(m.index, c);
    EventIsNew(m.index, c);
  }

  lemma InvParts(x: Index)
    requires Inv(x)
    ensures WorkInv(x) && KeyInv(x) && PubInv(x)
  {
  }

  lemma EventIsNew(x: Index, c: Change)
    requires LegalChange(x, c) && c.Event?
    ensures c.event.id !in x.publications && c.eventOf in x.work
  {
  }

  lemma SetWorkEffect(m: Machine, w: Work, to: WorkState, cause: Cause, ok: bool)
    requires Current(m, w) && MoveOk(w, to) && CauseOk(w, to, cause)
    ensures var r := SetWork(m, w, to, cause, ok);
            && r.workers == m.workers && r.invocations == m.invocations && r.phase == m.phase
            && r.batch == m.batch && r.flight == m.flight
            && (if ok then StateWritten(m, r, w, to, cause) && r.pending == m.pending else r == m)
  {
    hide SetWork;
    hide IsHead;
    hide LogInv;
    hide Inv;
    hide Write;
    hide RecordOf;
    hide LegalChange;
    hide MoveOk;
    hide CauseOk;
    if ok {
      var c := Move(w.key, to, cause);
      SetWorkWrites(m, w, to, cause);
      MoveLands(m, c, w);
    } else {
      SetWorkFails(m, w, to, cause);
    }
  }

  lemma SetWorkFails(m: Machine, w: Work, to: WorkState, cause: Cause)
    ensures SetWork(m, w, to, cause, false) == m
  {
  }

  lemma MoveLands(m: Machine, c: Change, w: Work)
    requires Inv(m.index) && LegalChange(m.index, c) && c.Move? && c.workKey == w.key && m.index.work[w.key] == w
    ensures var n := Write(m, RecordOf(m.index, c), c);
            && n.history == m.history + [c] && n.workers == m.workers && n.invocations == m.invocations
            && n.phase == m.phase && n.batch == m.batch && n.flight == m.flight && n.pending == m.pending
            && n.index.publications == m.index.publications
            && w.key in n.index.work && n.index.work[w.key] == w.(state := c.to)
  {
    hide Inv;
    hide ApplyRecord;
    hide LegalChange;
    assert Inv(m.index) ==> WorkInv(m.index) by {
      if Inv(m.index) {
        InvParts(m.index);
      }
    }
    NextTouched(m.index, c);
    NextSameOutbox(m.index, c);
    MoveKnown(m.index, c);
  }

  lemma MoveKnown(x: Index, c: Change)
    requires LegalChange(x, c) && c.Move?
    ensures c.workKey in x.work
  {
  }

  // ---- What deliver decides ----

  /** The work may be handed to its handler. */
  predicate Enters(cfg: Config, kind: string, o: Outlook) {
    && o.trusted
    && if kind == "transfer.available" then !o.expired && o.transferReady
       else if IsFeedback(kind) then !cfg.console && o.handlerReady
       else !cfg.console && !o.expired && o.handlerReady && !o.unsupportedAgent && o.slot == Granted(false) && o.stillTrusted
  }

  /** The work ends without an event. */
  predicate EndsSilently(cfg: Config, kind: string, o: Outlook, cause: Cause) {
    match cause
    case RevokedSender =>
      || (!o.trusted && o.revoked)
      || (&& o.trusted && IsCommand(kind) && !cfg.console && !o.expired && o.handlerReady && !o.unsupportedAgent
          && o.slot == Granted(false) && !o.stillTrusted && o.nowRevoked)
    case ConsoleChat => o.trusted && cfg.console && (IsFeedback(kind) || kind == "chat.message")
    case LateTransfer => o.trusted && kind == "transfer.available" && o.expired
    case _ => false
  }

  /** The command is refused with run.failed. */
  predicate Rejects(cfg: Config, kind: string, o: Outlook, code: string, stage: string) {
    && o.trusted && IsCommand(kind) && !(cfg.console && kind == "chat.message")
    && if o.expired then code == "execution.expired" && stage == "queue"
       else if cfg.console then code == "console.execution_unsupported" && stage == "role"
       else
         && o.handlerReady
         && if o.unsupportedAgent then code == "unsupported_agent" && stage == "validation"
            else code == "execution.expired" && stage == "queue" && (o.slot == ExpiredWaiting || (o.slot == Granted(true) && !o.closing))
  }

  /** The work stays queued and is looked at again. */
  ghost predicate Waits(cfg: Config, kind: string, o: Outlook) {
    !Enters(cfg, kind, o) && (forall cause :: !EndsSilently(cfg, kind, o, cause))
    && forall code, stage :: !Rejects(cfg, kind, o, code, stage)
  }

  lemma Decides(cfg: Config, w: Work, o: Outlook)
    ensures var d, kind := Decide(cfg, w, o), w.message.kind;
            && (d == Admit <==> Enters(cfg, kind, o))
            && (forall cause :: d == Retire(cause) <==> EndsSilently(cfg, kind, o, cause))
            && (forall code, stage :: d == Reject(Payload("", "", code, stage, false, "")) <==> Rejects(cfg, kind, o, code, stage))
            && (d == Wait <==> Waits(cfg, kind, o))
            && (d.Retire? ==> CauseOk(w, Done, d.cause)) && (d.Reject? ==> IsCommand(kind))
  {
    hide IsFeedback;
    FeedbackIsNoTransfer();
    var kind := w.message.kind;
    var d := Decide(cfg, w, o);
    if d.Retire? {
      assert EndsSilently(cfg, kind, o, d.cause);
    }
    if d.Reject? {
      assert Rejects(cfg, kind, o, d.payload.code, d.payload.stage);
    }
  }

  lemma FeedbackIsNoTransfer()
    ensures !IsFeedback("transfer.available") && !IsFeedback("chat.message")
  {
    var t, c := "transfer.available", "chat.message";
    assert t[0] == 't' && c[0] == 'c';
    assert t[|t| - |".response"|..] == "available" && c[|c| - |".response"|..] == "t.message";
    assert t[|t| - |".error"|..] == "ilable" && c[|c| - |".error"|..] == "essage";
  }

  // ---- The steps of a conversation worker ----

  /** The action finds its worker, or its work, where it expects it. */
  predicate Enabled(m: Machine, a: Action) {
    match a
    case Settle(key, _) => m.phase.Starting? && key in m.phase.todo && key in m.index.work
    case Consider(s, _, _) => WorkerAt(m, s).Chosen?
    case Begin(s, _) => WorkerAt(m, s).Entered?
    case Stream(s, _, _) => WorkerAt(m, s).Handling? && IsCommand(WorkerAt(m, s).work.message.kind)
    case Return(s, _, _) => WorkerAt(m, s).Handling?
    case Reply(s, _) => WorkerAt(m, s).Replying?
    case _ => true
  }

  lemma DisabledStays(cfg: Config, m: Machine, a: Action)
    requires !Enabled(m, a)
    ensures Step(cfg, m, a) == m
  {
    hide WorkerAt;
    hide IsCommand;
  }

  lemma WorkerCurrent(cfg: Config, m: Machine, s: nat)
    requires MachineInv(cfg, m) && !WorkerAt(m, s).Idle?
    ensures m.phase.Serving? && s < |m.workers| && WorkerAt(m, s) == m.workers[s] && s < WORKER_COUNT
    ensures Current(m, m.workers[s].work) && WorkOk(m.index, m.workers[s].work.key, m.workers[s].work)
    ensures WorkerOk(m.index, m.invocations, s, m.workers[s]) && WorkShard(m.workers[s].work.message) == s
  {
    WorkerHolds(cfg, m, s);
    hide After;
    hide CallsOk;
    hide IsHead;
    hide OutboxOk;
    hide WorkersOk;
  }

  predicate CallsStay(m: Machine, n: Machine) {
    n.invocations == m.invocations
  }

  /** A chosen work that a failed append left admitted fails as interrupted, or is queued again if it
      is no command. */
  lemma AdmittedOutcome(cfg: Config, m: Machine, s: nat, o: Outlook, io: Io)
    requires MachineInv(cfg, m) && WorkerAt(m, s).Chosen? && WorkerAt(m, s).work.state == Admitted
    ensures var n, w := Step(cfg, m, Consider(s, o, io)), WorkerAt(m, s).work;
            && CallsStay(m, n) && Stands(m, n, s, Idle)
            && if IsCommand(w.message.kind) then
                 if Ready(m, w, io)
                 then EventWritten(cfg, m, n, w, "run.failed", Payload("", "", "execution.interrupted", "journal", true, ""), Done, io)
                 else NothingWritten(m, n)
               else if io.ok then StateWritten(m, n, w, Queued, Interruption) else NothingWritten(m, n)
  {
    hide MachineInv;
    hide Emit;
    hide SetWork;
    hide WorkerOk;
    hide WorkShard;
    hide IsHead;
    hide LogInv;
    hide IsCommand;
    WorkerCurrent(cfg, m, s);
    var w := m.workers[s].work;
    var idle := SetWorker(m, s, Idle);
    IdleCurrent(m, s, w);
    if IsCommand(w.message.kind) {
      EmitEffect(cfg, idle, w, "run.failed", INTERRUPTED.(stage := "journal"), Done, io);
    } else {
      AdmittedMayQueue(m, w);
      SetWorkEffect(idle, w, Queued, Interruption, io.ok);
    }
  }

  lemma IdleCurrent(m: Machine, s: nat, w: Work)
    requires Current(m, w) && s < |m.workers|
    ensures Current(SetWorker(m, s, Idle), w)
  {
    hide After;
    hide IsHead;
  }

  lemma AdmittedMayQueue(m: Machine, w: Work)
    requires w.state == Admitted && !IsCommand(w.message.kind)
    ensures MoveOk(w, Queued) && CauseOk(w, Queued, Interruption) && CauseOk(w, Queued, Retry)
    ensures MoveOk(w, Done) && CauseOk(w, Done, Handled)
  {
  }

  /** What becomes of a queued work: it is entered, ends without an event, is refused with run.failed
      and the reason, or waits, exactly as the outlook says. */
  lemma QueuedOutcome(cfg: Config, m: Machine, s: nat, o: Outlook, io: Io)
    requires MachineInv(cfg, m) && WorkerAt(m, s).Chosen? && WorkerAt(m, s).work.state == Queued
    ensures var n, w := Step(cfg, m, Consider(s, o, io)), WorkerAt(m, s).work;
            var kind := w.message.kind;
            && CallsStay(m, n)
            && (Enters(cfg, kind, o) ==>
                  if io.ok then StateWritten(m, n, w, Admitted, Admission) && Stands(m, n, s, Entered(w.(state := Admitted)))
                  else NothingWritten(m, n) && Stands(m, n, s, Idle))
            && (forall cause :: EndsSilently(cfg, kind, o, cause) ==>
                  && Stands(m, n, s, Idle)
                  && if io.ok then StateWritten(m, n, w, Done, cause) else NothingWritten(m, n))
            && (forall code, stage :: Rejects(cfg, kind, o, code, stage) ==>
                  && Stands(m, n, s, Idle)
                  && if Ready(m, w, io) then EventWritten(cfg, m, n, w, "run.failed", Payload("", "", code, stage, false, ""), Done, io)
                     else NothingWritten(m, n))
            && (Waits(cfg, kind, o) ==> NothingWritten(m, n) && Stands(m, n, s, Idle))
  {
    hide MachineInv;
    hide Emit;
    hide SetWork;
    hide WorkerOk;
    hide WorkShard;
    hide IsHead;
    hide LogInv;
    hide IsCommand;
    hide Decide;
    hide Enters;
    hide EndsSilently;
    hide Rejects;
    hide Waits;
    WorkerCurrent(cfg, m, s);
    var w := m.workers[s].work;
    Decides(cfg, w, o);
    IdleCurrent(m, s, w);
    QueuedMayMove(w);
    match Decide(cfg, w, o)
    case Wait =>
    case Retire(cause) => SetWorkEffect(SetWorker(m, s, Idle), w, Done, cause, io.ok);
    case Reject(payload) =>
      EmitEffect(cfg, SetWorker(m, s, Idle), w, "run.failed", payload, Done, io);
      RejectionShape(cfg, w, o);
    case Admit =>
      SetWorkEffect(m, w, Admitted, Admission, io.ok);
  }

  lemma QueuedMayMove(w: Work)
    requires w.state == Queued
    ensures MoveOk(w, Admitted) && CauseOk(w, Admitted, Admission) && MoveOk(w, Done)
  {
  }

  lemma RejectionShape(cfg: Config, w: Work, o: Outlook)
    requires Decide(cfg, w, o).Reject?
    ensures var p := Decide(cfg, w, o).payload; p == Payload("", "", p.code, p.stage, false, "")
  {
    hide IsCommand;
    hide IsFeedback;
  }

  /** The handler is called, once, when the first event of the run is journalled or was before; a
      call starts with nothing streamed. */
  lemma BeginOutcome(cfg: Config, m: Machine, s: nat, io: Io)
    requires MachineInv(cfg, m) && WorkerAt(m, s).Entered?
    ensures var n, w := Step(cfg, m, Begin(s, io)), WorkerAt(m, s).work;
            var first := IsCommand(w.message.kind) && w.seqNo == 0;
            var current := if first then w.(seqNo := 1) else w;
            && (if !first then NothingWritten(m, n)
                else if Ready(m, w, io) then EventWritten(cfg, m, n, w, "run.started", Payload("", "", "", "", false, ""), Admitted, io)
                else NothingWritten(m, n))
            && (if first && !Ready(m, w, io) then CallsStay(m, n) && Stands(m, n, s, Idle)
                else && n.invocations == m.invocations + [Invocation(w.key, IsCommand(w.message.kind), 0, Running, [], None)]
                     && Stands(m, n, s, Handling(current, false, |m.invocations|)))
  {
    hide MachineInv;
    hide Emit;
    hide WorkShard;
    hide IsHead;
    hide LogInv;
    hide IsCommand;
    WorkerCurrent(cfg, m, s);
    var w := m.workers[s].work;
    assert w.state == Admitted;
    hide WorkerOk;
    if IsCommand(w.message.kind) && w.seqNo == 0 {
      EmitEffect(cfg, m, w, "run.started", NO_PAYLOAD, Admitted, io);
    }
  }

  /** The call of Emit by the handler of a command: the text is journalled as one answer delta, and
      noted, exactly if the journal takes it. */
  lemma StreamOutcome(cfg: Config, m: Machine, s: nat, text: string, io: Io)
    requires MachineInv(cfg, m) && WorkerAt(m, s).Handling? && IsCommand(WorkerAt(m, s).work.message.kind)
    ensures var n, w, call := Step(cfg, m, Stream(s, text, io)), WorkerAt(m, s).work, WorkerAt(m, s).call;
            && call < |m.invocations| && var c := m.invocations[call];
            if Ready(m, w, io) then
              && EventWritten(cfg, m, n, w, "run.output.delta", Payload(text, "answer", "", "", false, ""), Admitted, io)
              && Stands(m, n, s, Handling(w.(seqNo := w.seqNo + 1), true, call))
              && n.invocations == m.invocations[call := c.(emits := c.emits + 1, said := c.said + [text])]
            else
              && NothingWritten(m, n) && Stands(m, n, s, Handling(w, true, call))
              && n.invocations == m.invocations[call := c.(emits := c.emits + 1)]
  {
    hide MachineInv;
    hide Emit;
    hide WorkShard;
    hide IsHead;
    hide LogInv;
    hide IsCommand;
    WorkerCurrent(cfg, m, s);
    var at := m.workers[s];
    assert at.work.state == Admitted && at.work.seqNo >= 1 && at.call < |m.invocations|;
    hide WorkerOk;
    EmitEffect(cfg, m, at.work, "run.output.delta", AnswerText(text), Admitted, io);
    assert m.invocations[at.call].said + [] == m.invocations[at.call].said;
  }

  /** A failure that lets a work be tried again. */
  predicate TriesAgain(kind: string, streamed: bool, result: Result) {
    && result.Failed?
    && if IsCommand(kind) then result.retryable && !streamed else result.retryable || kind == "transfer.available"
  }

  /** What the service makes of the handler's return. Work to be tried again is queued, feedback and
      transfers are done, a command's failure is reported with the handler's payload, and a returned
      command goes on to its reply, of which nothing is repeated that was streamed. */
  lemma ReturnOutcome(cfg: Config, m: Machine, s: nat, result: Result, io: Io)
    requires MachineInv(cfg, m) && WorkerAt(m, s).Handling?
    ensures var n, w, call := Step(cfg, m, Return(s, result, io)), WorkerAt(m, s).work, WorkerAt(m, s).call;
            var kind, streamed := w.message.kind, WorkerAt(m, s).streamed;
            var again := TriesAgain(kind, streamed, result);
            && call < |m.invocations|
            && n.invocations == m.invocations[call := m.invocations[call].(outcome := if again then Retryable else Finished,
                                                                          result := Some(result))]
            && if again then Stands(m, n, s, Idle) && if io.ok then StateWritten(m, n, w, Queued, Retry) else NothingWritten(m, n)
               else if !IsCommand(kind) then
                 Stands(m, n, s, Idle) && if io.ok then StateWritten(m, n, w, Done, Handled) else NothingWritten(m, n)
               else if result.Failed? then
                 && Stands(m, n, s, Idle)
                 && if Ready(m, w, io) then EventWritten(cfg, m, n, w, "run.failed", result.payload, Done, io) else NothingWritten(m, n)
               else
                 && NothingWritten(m, n)
                 && Stands(m, n, s, Replying(w, if streamed then [] else result.chunks,
                                             if result.accepted then "run.accepted" else "run.completed", result.adapterRunId, call))
  {
    hide MachineInv;
    hide Emit;
    hide SetWork;
    hide Current;
    hide IsCommand;
    hide TriesAgain;
    hide MoveOk;
    hide CauseOk;
    hide EventOk;
    hide IsEvent;
    HandlingHolds(cfg, m, s);
    var at := m.workers[s];
    var w := at.work;
    IdleCurrent(m, s, w);
    var again := TriesAgain(w.message.kind, at.streamed, result);
    TriesAgainIs(w.message.kind, at.streamed, result);
    var outcome := if again then Retryable else Finished;
    var closed := Close(SetWorker(m, s, Idle), at.call, outcome, result);
    ClosedCurrent(SetWorker(m, s, Idle), at.call, outcome, result, w);
    if !IsCommand(w.message.kind) {
      AdmittedMayQueue(m, w);
      SetWorkEffect(closed, w, if again then Queued else Done, if again then Retry else Handled, io.ok);
    } else if again {
      MayRetry(w);
      SetWorkEffect(closed, w, Queued, Retry, io.ok);
    } else if result.Failed? {
      MayFail(w);
      EmitEffect(cfg, closed, w, "run.failed", result.payload, Done, io);
    }
  }

  lemma TriesAgainIs(kind: string, streamed: bool, result: Result)
    ensures TriesAgain(kind, streamed, result)
            == if !IsCommand(kind) then result.Failed? && (kind == "transfer.available" || result.retryable)
               else result.Failed? && !streamed && result.retryable
    ensures TriesAgain(kind, streamed, result) ==> result.Failed?
  {
    hide IsCommand;
  }

  lemma MayRetry(w: Work)
    requires w.state == Admitted && w.seqNo == 1
    ensures MoveOk(w, Queued) && CauseOk(w, Queued, Retry)
  {
  }

  lemma MayFail(w: Work)
    requires w.state != Done
    ensures EventOk(w, "run.failed", Done)
  {
  }

  /** What a worker in a handler call holds. */
  lemma HandlingHolds(cfg: Config, m: Machine, s: nat)
    requires MachineInv(cfg, m) && WorkerAt(m, s).Handling?
    ensures var at := WorkerAt(m, s);
            && m.phase.Serving? && s < |m.workers| && m.workers[s] == at && Current(m, at.work) && at.work.state == Admitted
            && at.call < |m.invocations| && (IsCommand(at.work.message.kind) ==> at.work.seqNo >= 1)
            && (IsCommand(at.work.message.kind) && !at.streamed ==> at.work.seqNo == 1)
  {
    hide MachineInv;
    hide WorkShard;
    hide IsHead;
    hide LogInv;
    hide IsCommand;
    WorkerCurrent(cfg, m, s);
  }

  lemma ClosedCurrent(m: Machine, call: nat, outcome: Outcome, result: Result, w: Work)
    requires Current(m, w)
    ensures Current(Close(m, call, outcome, result), w)
    ensures Close(m, call, outcome, result).phase == m.phase && Close(m, call, outcome, result).workers == m.workers
  {
    hide After;
    hide IsHead;
  }

  /** What a worker holds while it replies, and which events may follow. */
  lemma ReplyingHolds(cfg: Config, m: Machine, s: nat)
    requires MachineInv(cfg, m) && WorkerAt(m, s).Replying?
    ensures var at := WorkerAt(m, s);
            && m.phase.Serving? && s < |m.workers| && m.workers[s] == at && Current(m, at.work) && at.work.state == Admitted
            && IsCommand(at.work.message.kind) && EventOk(at.work, at.kind, Done) && EventOk(at.work, "run.output.delta", Admitted)
  {
    hide MachineInv;
    hide WorkShard;
    hide IsHead;
    hide LogInv;
    hide IsCommand;
    WorkerCurrent(cfg, m, s);
  }

  /** The pieces of a reply go out one by one as answer deltas, then the terminal event with the
      adapter's run; an event that the journal does not take ends the reply. */
  lemma ReplyOutcome(cfg: Config, m: Machine, s: nat, io: Io)
    requires MachineInv(cfg, m) && WorkerAt(m, s).Replying?
    ensures var n, at := Step(cfg, m, Reply(s, io)), WorkerAt(m, s);
            var w := at.work;
            && CallsStay(m, n)
            && if !Ready(m, w, io) then NothingWritten(m, n) && Stands(m, n, s, Idle)
               else if at.chunks == [] then
                 && EventWritten(cfg, m, n, w, at.kind, Payload("", "", "", "", false, at.adapterRunId), Done, io)
                 && Stands(m, n, s, Idle)
               else
                 && EventWritten(cfg, m, n, w, "run.output.delta", Payload(at.chunks[0], "answer", "", "", false, ""), Admitted, io)
                 && Stands(m, n, s, at.(work := w.(seqNo := w.seqNo + 1), chunks := at.chunks[1..]))
  {
    hide MachineInv;
    hide Emit;
    hide Current;
    hide IsCommand;
    hide EventOk;
    hide IsEvent;
    ReplyingHolds(cfg, m, s);
    var at := m.workers[s];
    var w := at.work;
    IdleCurrent(m, s, w);
    if at.chunks == [] {
      EmitEffect(cfg, SetWorker(m, s, Idle), w, at.kind, Completion(at.adapterRunId), Done, io);
    } else {
      EmitEffect(cfg, m, w, "run.output.delta", AnswerText(at.chunks[0]), Admitted, io);
    }
  }

  /** The first work of a queue that is not done is chosen, and none exactly if all are done. */
  lemma PickOutcome(cfg: Config, m: Machine, s: nat)
    requires MachineInv(cfg, m) && m.phase.Serving? && s < WORKER_COUNT && WorkerAt(m, s).Idle?
    ensures var n, queue := Step(cfg, m, Pick(s)), m.index.queues[s];
            && CallsStay(m, n) && NothingWritten(m, n)
            && if DoneBefore(m.index, queue, |queue|) then n == m
               else exists i :: && 0 <= i < |queue| && DoneBefore(m.index, queue, i)
                                && queue[i] in m.index.work && m.index.work[queue[i]].state != Done
                                && Stands(m, n, s, Chosen(m.index.work[queue[i]]))
  {
    hide MachineInv;
    hide Inv;
    hide CallsOk;
    hide FirstOpen;
    hide DoneBefore;
    QueueListed(cfg, m, s);
    FirstOpenIs(m.index, m.index.queues[s]);
  }

  lemma QueueListed(cfg: Config, m: Machine, s: nat)
    requires MachineInv(cfg, m) && m.phase.Serving? && s < WORKER_COUNT
    ensures |m.workers| == WORKER_COUNT
    ensures forall i :: 0 <= i < |m.index.queues[s]| ==> m.index.queues[s][i] in m.index.work
  {
    hide MachineInv;
    hide CallsOk;
    hide WorkShard;
    hide DoneBefore;
    hide WorkInv;
    hide PubInv;
    hide KeyInv;
    hide CountInv;
    RunningHolds(cfg, m);
    assert QueueOk(m.index.work, m.index.queues[s], s);
  }

  lemma {:induction false} FirstOpenIs(x: Index, queue: seq<string>)
    requires forall i :: 0 <= i < |queue| ==> queue[i] in x.work
    ensures FirstOpen(x, queue).None? <==> DoneBefore(x, queue, |queue|)
  {
    if queue != [] && x.work[queue[0]].state == Done {
      FirstOpenIs(x, queue[1..]);
      assert forall i :: 1 <= i < |queue| ==> queue[i] == queue[1..][i - 1];
      assert forall i :: 0 <= i < |queue| - 1 ==> queue[1..][i] == queue[i + 1];
    }
  }

  // ---- Start-up, inbox and clients ----

  /** Opening the journal rebuilds the index of its history, and the works found admitted are to be
      settled before the service serves. */
  lemma BootOutcome(cfg: Config, m: Machine)
    requires MachineInv(cfg, m) && m.phase.Down?
    ensures var n := Step(cfg, m, Boot);
            && n.history == m.history && n.log == m.log && CallsStay(m, n) && n.index == After(m.history)
            && n.pending == n.index.pending && n.batch == [] && n.flight == NoFlight
            && n.phase == Starting(set k | k in n.index.work && n.index.work[k].state == Admitted)
  {
    ReplayRebuilds(m.history);
    hide WorkersOk;
    hide CallsOk;
    hide After;
    hide Replay;
  }

  /** At start-up an interrupted command fails as interrupted and other interrupted work is queued
      again; an append that fails ends the start. */
  lemma SettleOutcome(cfg: Config, m: Machine, key: string, io: Io)
    requires MachineInv(cfg, m) && m.phase.Starting? && key in m.phase.todo
    ensures key in m.index.work
    ensures var n, w := Step(cfg, m, Settle(key, io)), m.index.work[key];
            if IsCommand(w.message.kind) && Ready(m, w, io) then
              && EventWritten(cfg, m, n, w, "run.failed", Payload("", "", "execution.interrupted", "restart", true, ""), Done, io)
              && n.phase == Starting(m.phase.todo - {key}) && CallsStay(m, n) && n.workers == m.workers
            else if !IsCommand(w.message.kind) && io.ok then
              && StateWritten(m, n, w, Queued, Interruption)
              && n.phase == Starting(m.phase.todo - {key}) && CallsStay(m, n) && n.workers == m.workers
            else n.phase.Down? && n.history == m.history && n.log == m.log
  {
    hide Emit;
    hide SetWork;
    hide WorkersOk;
    hide CallsOk;
    hide OutboxOk;
    hide WithinCapacity;
    hide IsHead;
    SettledIsHead(cfg, m, key);
    hide MachineInv;
    hide IsCommand;
    hide WorkOk;
    var w := m.index.work[key];
    var done := m.(phase := Starting(m.phase.todo - {key}));
    assert Current(done, w);
    hide Current;
    if IsCommand(w.message.kind) {
      EmitEffect(cfg, done, w, "run.failed", INTERRUPTED, Done, io);
    } else {
      AdmittedMayQueue(m, w);
      SetWorkEffect(done, w, Queued, Interruption, true);
    }
  }

  lemma SettledIsHead(cfg: Config, m: Machine, key: string)
    requires MachineInv(cfg, m) && m.phase.Starting? && key in m.phase.todo
    ensures key in m.index.work && m.index.work[key].key == key && m.index.work[key].state == Admitted && IsHead(m.index, key)
    ensures LogInv(m)
  {
    hide WorkersOk;
    hide CallsOk;
    hide OutboxOk;
    hide IsHead;
    AfterInv(m.history);
    hide After;
    AdmittedIsHead(m.index, key);
    assert WorkOk(m.index, key, m.index.work[key]);
  }

  /** The kinds of message that the Bot acts on. */
  predicate ActedOn(cfg: Config, kind: string) {
    kind == "transfer.available" || IsFeedback(kind) || exists i :: 0 <= i < |cfg.prefixes| && HasPrefix(kind, cfg.prefixes[i] + ".")
  }

  /** A new delivery is stored in the inbox under the next cursor, and becomes a queued work at the end
      of its conversation's queue exactly if it is of a kind that the Bot acts on; a command then gets
      its run. Known deliveries, commands over capacity and failed appends change nothing. */
  lemma ReceiveOutcome(cfg: Config, m: Machine, item: Envelope, runId: string, ok: bool)
    requires MachineInv(cfg, m) && m.phase.Serving? && IsToken(item.from) && IsToken(item.id) && runId != ""
    ensures var n, key, kind := Step(cfg, m, Action.Receive(item, runId, ok)), item.from + "/" + item.id, item.kind;
            var full := && !cfg.console && cfg.capacity.Some? && m.index.pendingCommands >= cfg.capacity.value
                        && IsCommand(kind) && ActedOn(cfg, kind);
            var run := if IsCommand(kind) && !(cfg.console && kind == "chat.message") then runId else "";
            var w, s := Work(key, item, Queued, run, 0), WorkShard(item);
            && CallsStay(m, n) && n.workers == m.workers && n.phase == m.phase
            && if !ok || key in m.index.received || full then NothingWritten(m, n)
               else
                 && n.history == m.history + [Change.Receive(item, ActedOn(cfg, kind), run)]
                 && n.index.inbox == m.index.inbox + [Stored(item, |m.index.inbox| + 1)]
                 && n.index.received == m.index.received + {key} && n.index.publications == m.index.publications
                 && n.index.work == (if ActedOn(cfg, kind) then m.index.work[key := w] else m.index.work)
                 && n.index.queues == if ActedOn(cfg, kind) then m.index.queues[s := m.index.queues[s] + [key]] else m.index.queues
  {
    hide CallsOk;
    hide OutboxOk;
    hide WorkersOk;
    hide WorkShard;
    hide IsFeedback;
    hide HasPrefix;
    hide MachineInv;
    hide Inv;
    RunningHolds(cfg, m);
    FeedbackIsNoTransfer();
    var key := item.from + "/" + item.id;
    if key in m.index.work {
      WorkIsReceived(m.index, key);
    }
  }

  lemma WorkIsReceived(x: Index, key: string)
    requires Inv(x) && key in x.work
    ensures key in x.received
  {
    assert WorkOk(x, key, x.work[key]);
  }

  /** A client's message under a key that is not taken becomes an unpublished publication that names
      the last event of its run, claims the key and waits for the publisher. */
  lemma PublishOutcome(cfg: Config, m: Machine, env: Envelope, key: IdempotencyKey, hash: string, ok: bool)
    requires !m.phase.Down? && !key.EventSlot? && env.id != "" && env.id !in m.index.publications
    ensures var n := Step(cfg, m, Publish(env, key, hash, ok));
            var chain := env.to + "/" + env.requestId + "/" + env.runId;
            var previous := if env.runId != "" && chain in m.index.tails then m.index.tails[chain] else "";
            && CallsStay(m, n) && n.workers == m.workers && n.phase == m.phase
            && if !ok || (key.ClientKey? && key in m.index.keys) then NothingWritten(m, n)
               else
                 && n.history == m.history + [ClientPublish(env, key, hash)]
                 && n.index.publications == m.index.publications[env.id := Publication(env, key, hash, false, previous)]
                 && n.index.keys == (if key.NoKey? then m.index.keys else m.index.keys[key := env.id])
                 && n.pending == m.pending + [env.id] && n.index.work == m.index.work && n.index.inbox == m.index.inbox
  {
    hide ApplyWork;
  }

  // ---- The publisher ----

  /** A publication goes to the network exactly if it is unpublished and the event before it is not
      waiting; the publisher drops a published entry of its batch and puts back one that must wait. */
  lemma FlushBeginOutcome(cfg: Config, m: Machine, id: string, byPublisher: bool)
    requires !m.phase.Down? && m.flight.NoFlight? && id in m.index.publications
    requires byPublisher ==> m.batch != [] && m.batch[0] == id
    ensures var n, p := Step(cfg, m, FlushBegin(id, byPublisher)), m.index.publications[id];
            var blocked := p.previous in m.index.publications && !m.index.publications[p.previous].published;
            && CallsStay(m, n) && n.workers == m.workers && n.phase == m.phase && n.index == m.index && n.history == m.history
            && (n.flight == if !p.published && !blocked then InFlight(id, byPublisher) else NoFlight)
            && (n.batch == if byPublisher && (p.published || blocked) then m.batch[1..] else m.batch)
            && (n.pending == if byPublisher && !p.published && blocked then m.pending + [id] else m.pending)
  {
  }

  /** A delivered publication is confirmed for good; any other of the publisher's goes back to the
      pending list. */
  lemma FlushEndOutcome(cfg: Config, m: Machine, delivered: bool)
    requires MachineInv(cfg, m) && !m.phase.Down? && m.flight.InFlight?
    ensures var n, f := Step(cfg, m, FlushEnd(delivered)), m.flight;
            && CallsStay(m, n) && n.workers == m.workers && n.phase == m.phase && n.flight == NoFlight
            && (n.batch == if f.byPublisher then m.batch[1..] else m.batch)
            && f.id in m.index.publications
            && if delivered then
                 && n.history == m.history + [Published(f.id)] && n.pending == m.pending
                 && n.index == m.index.(publications := m.index.publications[f.id := m.index.publications[f.id].(published := true)])
               else
                 && n.history == m.history && n.index == m.index
                 && n.pending == if f.byPublisher then m.pending + [f.id] else m.pending
  {
    hide LogInv;
    hide WorkersOk;
    hide CallsOk;
    hide WithinCapacity;
    hide After;
    PublishedIdIsReal(m);
    hide ApplyWork;
    hide ApplyPublication;
    hide ApplyReceived;
  }

  lemma PublishedIdIsReal(m: Machine)
    requires LogInv(m) && !m.phase.Down?
    ensures "" !in m.index.publications
  {
    AfterInv(m.history);
    hide After;
  }
}
