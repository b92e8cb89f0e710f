/** The messaging service as a concurrent machine over the journal (internal/messaging/service.go):
    start-up recovery, the eight conversation workers, the outbox publisher, clients and the inbox,
    interleaved at lock granularity, with a crash allowed between any two steps. */
module Delivery {
  import opened Wrappers
  import opened Protocol
  import opened Journal
  import opened DurableLog

  /** What stays fixed for a Bot: its ID, its role, its execution capacity and its prefixes. */
  datatype Config = Config(self: string, console: bool, capacity: Option<nat>, prefixes: seq<string>)

  /** Where a conversation worker stands between two steps. */
  datatype Worker =
    | Idle
    | Chosen(work: Work)
    | Entered(work: Work)
    | Handling(work: Work, streamed: bool, call: nat)
    | Replying(work: Work, chunks: seq<string>, kind: string, adapterRunId: string, call: nat)

  datatype Outcome = Running | Retryable | Finished | Lost

  /** One call of the message or transfer handler: how often it streamed, the texts that were
      journalled, and what it returned. */
  datatype Invocation = Invocation(
    key: string, command: bool, emits: nat, outcome: Outcome, said: seq<string>, result: Option<Result>)

  datatype Phase = Down | Starting(todo: set<string>) | Serving

  datatype Flight = NoFlight | InFlight(id: string, byPublisher: bool)

  /** `log` is the file; `history` names the cause of each record. `pending` is the live outbox
      list, which the publisher consumes; the list inside `index` is the replayed one. */
  datatype Machine = Machine(
    log: seq<Record>, history: seq<Change>,
    index: Index, pending: seq<string>, phase: Phase, workers: seq<Worker>,
    batch: seq<string>, flight: Flight, invocations: seq<Invocation>)

  const IDLE_WORKERS := [Idle, Idle, Idle, Idle, Idle, Idle, Idle, Idle]

  const FRESH_MACHINE := Machine([], [], EMPTY, [], Down, IDLE_WORKERS, [], NoFlight, [])

  /** The environment's part in one journal append: whether it succeeds, the generated message
      ID, the request fingerprint and the expiry time. */
  datatype Io = Io(ok: bool, id: string, hash: string, expiresAt: int)

  /** Everything outside the journal that deliver looks at, in the order it looks. */
  datatype Outlook = Outlook(
    trusted: bool, revoked: bool, expired: bool, transferReady: bool, handlerReady: bool,
    unsupportedAgent: bool, slot: Slot, closing: bool, stillTrusted: bool, nowRevoked: bool)

  datatype Slot = Refused | ExpiredWaiting | Granted(late: bool)

  datatype Result = Failed(retryable: bool, payload: Payload) | Returned(chunks: seq<string>, accepted: bool, adapterRunId: string)

  datatype Decision = Wait | Retire(cause: Cause) | Reject(payload: Payload) | Admit

  function Rejection(code: string, stage: string): Decision {
    Reject(Failure(code, stage, false))
  }

  /** The branches of deliver up to the durable admission. */
  function Decide(cfg: Config, w: Work, o: Outlook): Decision {
    var kind := w.message.kind;
    if !o.trusted then (if o.revoked then Retire(RevokedSender) else Wait)
    else if cfg.console && (IsFeedback(kind) || kind == "chat.message") then Retire(ConsoleChat)
    else if IsCommand(kind) && o.expired then Rejection("execution.expired", "queue")
    else if kind == "transfer.available" then
      (if o.expired then Retire(LateTransfer) else if !o.transferReady then Wait else Admit)
    else if cfg.console then Rejection("console.execution_unsupported", "role")
    else if !o.handlerReady then Wait
    else if IsFeedback(kind) then Admit
    else if o.unsupportedAgent then Rejection("unsupported_agent", "validation")
    else
      match o.slot
      case Refused => Wait
      case ExpiredWaiting => Rejection("execution.expired", "queue")
      case Granted(late) =>
        if late then (if o.closing then Wait else Rejection("execution.expired", "queue"))
        else if !o.stillTrusted then (if o.nowRevoked then Retire(RevokedSender) else Wait)
        else Admit
  }

  const INTERRUPTED := Failure("execution.interrupted", "restart", true)

  // ---- Journal writes ----

  /** The file grows by one record at most, and writing it makes no handler call and moves no worker. */
  predicate Follows(m: Machine, n: Machine) {
    m.history <= n.history && |n.history| <= |m.history| + 1 && n.invocations == m.invocations && n.workers == m.workers && n.phase == m.phase
  }

  /** One durable append, applied to the live index; new publications become pending. */
  function Write(m: Machine, r: Record, c: Change): (n: Machine)
    ensures Follows(m, n)
  {
    var index := ApplyRecord(m.index, r);
    m.(log := m.log + [r], history := m.history + [c], index := index,
       pending := if r.publication.Some? && r.publication.value.message.id !in m.index.publications
                  then m.pending + [r.publication.value.message.id] else m.pending)
  }

  function SetWork(m: Machine, w: Work, to: WorkState, cause: Cause, ok: bool): (n: Machine)
    ensures Follows(m, n)
  {
    if ok then Write(m, Record(None, "", None, Some(w.(state := to))), Move(w.key, to, cause)) else m
  }

  function EventEnvelope(cfg: Config, w: Work, kind: string, payload: Payload, io: Io): Envelope {
    Envelope(io.id, kind, w.message.agentId, cfg.self, w.message.from, payload, w.message.sessionKey,
             io.expiresAt, w.message.id, w.runId, w.seqNo + 1)
  }

  function NextWork(w: Work, to: WorkState): Work {
    w.(seqNo := w.seqNo + 1, state := to)
  }

  /** Generated message IDs are fresh; an execution event needs its run ID. */
  predicate CanEmit(m: Machine, w: Work, io: Io) {
    io.ok && io.id != "" && io.id !in m.index.publications && w.runId != ""
  }

  /** emit through enqueue: a taken slot with the same fingerprint returns the old publication
      without writing; otherwise one record holds the event and the work's new state. */
  function Emit(cfg: Config, m: Machine, w: Work, kind: string, payload: Payload, to: WorkState, io: Io)
    : (r: (Machine, Option<Work>))
    ensures Follows(m, r.0) && (if r.1.Some? then r.1.value == NextWork(w, to) else r.0 == m)
  {
    var slot := SlotOf(w);
    if !CanEmit(m, w, io) then (m, None)
    else if slot in m.index.keys then
      var id := m.index.keys[slot];
      if id in m.index.publications && m.index.publications[id].fingerprint == io.hash
      then (m, Some(NextWork(w, to))) else (m, None)
    else
      var env := EventEnvelope(cfg, w, kind, payload, io);
      var record := Record(Some(Publication(env, slot, io.hash, false, Previous(m.index, env))), "", None,
                           Some(NextWork(w, to)));
      (Write(m, record, Event(w.key, env, io.hash, to)), Some(NextWork(w, to)))
  }

  // ---- Steps ----

  datatype Action =
    | Boot
    | Settle(workKey: string, io: Io)
    | Serve
    | Crash
    | Publish(env: Envelope, key: IdempotencyKey, hash: string, ok: bool)
    | Receive(item: Envelope, runId: string, ok: bool)
    | Pick(shard: nat)
    | Consider(shard: nat, outlook: Outlook, io: Io)
    | Begin(shard: nat, io: Io)
    | Stream(shard: nat, text: string, io: Io)
    | Return(shard: nat, result: Result, io: Io)
    | Reply(shard: nat, io: Io)
    | TakePending
    | FlushBegin(id: string, byPublisher: bool)
    | FlushEnd(delivered: bool)

  function SetWorker(m: Machine, s: nat, w: Worker): Machine {
    if s < |m.workers| then m.(workers := m.workers[s := w]) else m
  }

  function WorkerAt(m: Machine, s: nat): Worker {
    if s < |m.workers| && m.phase.Serving? then m.workers[s] else Idle
  }

  function AdmittedKeys(x: Index): set<string> {
    set k | k in x.work && x.work[k].state == Admitted
  }

  /** Opening the journal and collecting the works a crash left admitted. */
  function BootStep(m: Machine): Machine {
    if !m.phase.Down? then m
    else
      var index := Replay(WireLog(m.log));
      m.(index := index, pending := index.pending, phase := Starting(AdmittedKeys(index)),
         workers := IDLE_WORKERS, batch := [], flight := NoFlight)
  }

  function Drop(m: Machine): Machine {
    m.(index := EMPTY, pending := [], phase := Down, workers := IDLE_WORKERS, batch := [], flight := NoFlight,
       invocations := LoseRunning(m.invocations))
  }

  function LoseRunning(calls: seq<Invocation>): (lost: seq<Invocation>)
    ensures |lost| == |calls|
    ensures forall i :: 0 <= i < |calls| ==>
      lost[i] == (if calls[i].outcome == Running then calls[i].(outcome := Lost) else calls[i])
  {
    seq(|calls|, i requires 0 <= i < |calls| =>
      if calls[i].outcome == Running then calls[i].(outcome := Lost) else calls[i])
  }

  /** One interrupted work at start-up: commands fail as interrupted, the rest is queued again;
      a failed append closes the service. */
  function SettleStep(cfg: Config, m: Machine, key: string, io: Io): Machine {
    if !(m.phase.Starting? && key in m.phase.todo && key in m.index.work) then m
    else
      var w := m.index.work[key];
      var done := m.(phase := Starting(m.phase.todo - {key}));
      if !IsCommand(w.message.kind) then
        (if io.ok then SetWork(done, w, Queued, Interruption, true) else Drop(m))
      else
        var r := Emit(cfg, done, w, "run.failed", INTERRUPTED, Done, io);
        if r.1.Some? then r.0 else Drop(m)
  }

  function PublishStep(m: Machine, env: Envelope, key: IdempotencyKey, hash: string, ok: bool): Machine {
    if m.phase.Down? || !ok || key.EventSlot? || (key.ClientKey? && key in m.index.keys)
       || env.id == "" || env.id in m.index.publications then m
    else Write(m, Record(Some(Publication(env, key, hash, false, Previous(m.index, env))), "", None, None),
               ClientPublish(env, key, hash))
  }

  predicate MakesWork(cfg: Config, kind: string) {
    kind == "transfer.available" || IsDeliverable(kind, cfg.prefixes) || IsFeedback(kind)
  }

  /** A command beyond the execution capacity stays with the broker. */
  predicate OverCapacity(cfg: Config, x: Index, kind: string) {
    && !cfg.console && cfg.capacity.Some? && IsCommand(kind) && IsDeliverable(kind, cfg.prefixes)
    && x.pendingCommands >= cfg.capacity.value
  }

  predicate NeedsRun(cfg: Config, kind: string) {
    IsCommand(kind) && !(cfg.console && kind == "chat.message")
  }

  function ReceiveStep(cfg: Config, m: Machine, item: Envelope, runId: string, ok: bool): Machine {
    if !m.phase.Serving? || !ok || !IsToken(item.from) || !IsToken(item.id) || runId == ""
       || MessageKey(item) in m.index.received || OverCapacity(cfg, m.index, item.kind) then m
    else
      var queued := MakesWork(cfg, item.kind);
      var run := if NeedsRun(cfg, item.kind) then runId else "";
      Write(m, Record(None, "", Some(Stored(item, |m.index.inbox| + 1)),
                      if queued then Some(Work(MessageKey(item), item, Queued, run, 0)) else None),
            Change.Receive(item, queued, run))
  }

  /** The first work of a queue that is not done. */
  function FirstOpen(x: Index, queue: seq<string>): (r: Option<string>)
    ensures r.Some? ==> r.value in x.work && x.work[r.value].state != Done
    ensures r.Some? ==> exists i :: 0 <= i < |queue| && queue[i] == r.value && DoneBefore(x, queue, i)
  {
    if queue == [] || queue[0] !in x.work then None
    else if x.work[queue[0]].state != Done then
      assert DoneBefore(x, queue, 0);
      Some(queue[0])
    else
      var rest := FirstOpen(x, queue[1..]);
      assert rest.Some? ==> exists i :: 0 <= i < |queue| && queue[i] == rest.value && DoneBefore(x, queue, i) by {
        if rest.Some? {
          var i :| 0 <= i < |queue[1..]| && queue[1..][i] == rest.value && DoneBefore(x, queue[1..], i);
          assert queue[i + 1] == rest.value;
          forall j | 0 <= j < i + 1 ensures queue[j] in x.work && x.work[queue[j]].state == Done {
            if j > 0 {
              assert queue[1..][j - 1] == queue[j];
            }
          }
          assert DoneBefore(x, queue, i + 1);
        }
      }
      rest
  }

  function PickStep(m: Machine, s: nat): Machine {
    if !(m.phase.Serving? && s < WORKER_COUNT && WorkerAt(m, s).Idle?) then m
    else
      var first := FirstOpen(m.index, m.index.queues[s]);
      if first.None? then m else SetWorker(m, s, Chosen(m.index.work[first.value]))
  }

  /** A chosen work: one found admitted is settled, a queued one runs through deliver's branches. */
  function ConsiderStep(cfg: Config, m: Machine, s: nat, o: Outlook, io: Io): Machine {
    if !WorkerAt(m, s).Chosen? then m
    else
      var w := WorkerAt(m, s).work;
      var idle := SetWorker(m, s, Idle);
      if w.state == Admitted then
        if !IsCommand(w.message.kind) then SetWork(idle, w, Queued, Interruption, io.ok)
        else Emit(cfg, idle, w, "run.failed", INTERRUPTED.(stage := "journal"), Done, io).0
      else
        match Decide(cfg, w, o)
        case Wait => idle
        case Retire(cause) => SetWork(idle, w, Done, cause, io.ok)
        case Reject(payload) => Emit(cfg, idle, w, "run.failed", payload, Done, io).0
        case Admit =>
          if !io.ok then idle
          else SetWorker(SetWork(m, w, Admitted, Admission, true), s, Entered(w.(state := Admitted)))
  }

  function Call(m: Machine, s: nat, w: Work): Machine {
    SetWorker(m, s, Handling(w, false, |m.invocations|))
      .(invocations := m.invocations + [Invocation(w.key, IsCommand(w.message.kind), 0, Running, [], None)])
  }

  /** The first event of a run, then the handler call. */
  function BeginStep(cfg: Config, m: Machine, s: nat, io: Io): Machine {
    if !WorkerAt(m, s).Entered? then m
    else
      var w := WorkerAt(m, s).work;
      if IsCommand(w.message.kind) && w.seqNo == 0 then
        var r := Emit(cfg, m, w, "run.started", NO_PAYLOAD, Admitted, io);
        if r.1.Some? then Call(r.0, s, r.1.value) else SetWorker(m, s, Idle)
      else Call(m, s, w)
  }

  /** A call of Emit, and its text when that was journalled. */
  function NoteEmit(calls: seq<Invocation>, i: nat, texts: seq<string>): seq<Invocation> {
    if i < |calls| then calls[i := calls[i].(emits := calls[i].emits + 1, said := calls[i].said + texts)] else calls
  }

  /** The handler's Emit callback; feedback output is dropped. */
  function StreamStep(cfg: Config, m: Machine, s: nat, text: string, io: Io): Machine {
    if !WorkerAt(m, s).Handling? || !IsCommand(WorkerAt(m, s).work.message.kind) then m
    else
      var at := WorkerAt(m, s);
      var r := Emit(cfg, m, at.work, "run.output.delta", AnswerText(text), Admitted, io);
      SetWorker(r.0, s, Handling(if r.1.Some? then r.1.value else at.work, true, at.call))
        .(invocations := NoteEmit(m.invocations, at.call, if r.1.Some? then [text] else []))
  }

  function Close(m: Machine, call: nat, outcome: Outcome, result: Result): Machine {
    if call < |m.invocations|
    then m.(invocations := m.invocations[call := m.invocations[call].(outcome := outcome, result := Some(result))]) else m
  }

  /** The handler returns. Only a retryable failure that streamed nothing queues a command again. */
  function ReturnStep(cfg: Config, m: Machine, s: nat, result: Result, io: Io): Machine {
    if !WorkerAt(m, s).Handling? then m
    else
      var at := WorkerAt(m, s);
      var w := at.work;
      var idle := SetWorker(m, s, Idle);
      if !IsCommand(w.message.kind) then
        var again := result.Failed? && (w.message.kind == "transfer.available" || result.retryable);
        SetWork(Close(idle, at.call, if again then Retryable else Finished, result), w, if again then Queued else Done,
                if again then Retry else Handled, io.ok)
      else if result.Failed? then
        if !at.streamed && result.retryable
        then SetWork(Close(idle, at.call, Retryable, result), w, Queued, Retry, io.ok)
        else Emit(cfg, Close(idle, at.call, Finished, result), w, "run.failed", result.payload, Done, io).0
      else
        Close(SetWorker(m, s, Replying(w, if at.streamed then [] else result.chunks,
                                       if result.accepted then "run.accepted" else "run.completed", result.adapterRunId, at.call)),
              at.call, Finished, result)
  }

  /** The unstreamed reply goes out in chunks, then the terminal event. */
  function ReplyStep(cfg: Config, m: Machine, s: nat, io: Io): Machine {
    if !WorkerAt(m, s).Replying? then m
    else
      var at := WorkerAt(m, s);
      var idle := SetWorker(m, s, Idle);
      if at.chunks == [] then Emit(cfg, idle, at.work, at.kind, Completion(at.adapterRunId), Done, io).0
      else
        var r := Emit(cfg, m, at.work, "run.output.delta", AnswerText(at.chunks[0]), Admitted, io);
        if r.1.Some? then SetWorker(r.0, s, Replying(r.1.value, at.chunks[1..], at.kind, at.adapterRunId, at.call)) else idle
  }

  /** The publisher takes the pending list when its last batch is finished. */
  function TakeStep(m: Machine): Machine {
    if m.phase.Serving? && m.batch == [] then m.(batch := m.pending, pending := []) else m
  }

  /** flushPublication up to the network call, under the publish lock; the publisher drops or
      requeues a batch entry that needs no call. */
  function FlushBeginStep(m: Machine, id: string, byPublisher: bool): Machine {
    if m.phase.Down? || m.flight.InFlight? || id !in m.index.publications
       || (byPublisher && (m.batch == [] || m.batch[0] != id)) then m
    else
      var p := m.index.publications[id];
      if p.published then (if byPublisher then m.(batch := m.batch[1..]) else m)
      else if p.previous in m.index.publications && !m.index.publications[p.previous].published
      then (if byPublisher then m.(batch := m.batch[1..], pending := m.pending + [id]) else m)
      else m.(flight := InFlight(id, byPublisher))
  }

  /** The network call returns; `delivered` also needs the append of the confirmation. */
  function FlushEndStep(m: Machine, delivered: bool): Machine {
    if m.phase.Down? || m.flight.NoFlight? then m
    else
      var f := m.flight;
      var landed := m.(flight := NoFlight, batch := if f.byPublisher && m.batch != [] then m.batch[1..] else m.batch);
      if delivered then Write(landed, Record(None, f.id, None, None), Published(f.id))
      else if f.byPublisher then landed.(pending := landed.pending + [f.id])
      else landed
  }

  function Step(cfg: Config, m: Machine, a: Action): Machine {
    match a
    case Boot => BootStep(m)
    case Settle(key, io) => SettleStep(cfg, m, key, io)
    case Serve => if m.phase.Starting? && m.phase.todo == {} then m.(phase := Serving) else m
    case Crash => if m.phase.Down? then m else Drop(m)
    case Publish(env, key, hash, ok) => PublishStep(m, env, key, hash, ok)
    case Receive(item, runId, ok) => ReceiveStep(cfg, m, item, runId, ok)
    case Pick(s) => PickStep(m, s)
    case Consider(s, o, io) => ConsiderStep(cfg, m, s, o, io)
    case Begin(s, io) => BeginStep(cfg, m, s, io)
    case Stream(s, text, io) => StreamStep(cfg, m, s, text, io)
    case Return(s, result, io) => ReturnStep(cfg, m, s, result, io)
    case Reply(s, io) => ReplyStep(cfg, m, s, io)
    case TakePending => TakeStep(m)
    case FlushBegin(id, byPublisher) => FlushBeginStep(m, id, byPublisher)
    case FlushEnd(delivered) => FlushEndStep(m, delivered)
  }

  /** A run: any interleaving of steps, crashes and restarts. */
  function Run(cfg: Config, m: Machine, actions: seq<Action>): Machine {
    if actions == [] then m else Step(cfg, Run(cfg, m, actions[..|actions| - 1]), actions[|actions| - 1])
  }
}
