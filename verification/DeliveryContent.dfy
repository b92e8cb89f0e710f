/** What the events of a run say, over every run with crashes and restarts: the output is what the
    handler streamed and replied, failures carry their reason, and every event answers its request
    (internal/messaging/service.go). */
module DeliveryContent {
  import opened Wrappers
  import opened Protocol
  import opened Journal
  import opened DurableLog
  import opened DurableTheorems
  import opened Delivery
  import opened DeliveryInvariant
  import opened DeliverySteps
  import opened DeliveryTheorems
  import opened DeliveryEffects

  // ---- Output ----

  /** The texts of a run's output deltas, in order. */
  function Deltas(events: seq<Envelope>): seq<string> {
    if events == [] then []
    else
      var e := events[|events| - 1];
      Deltas(events[..|events| - 1]) + if e.kind == "run.output.delta" then [e.payload.text] else []
  }

  lemma DeltasAppend(events: seq<Envelope>, e: Envelope)
    ensures Deltas(events + [e]) == Deltas(events) + if e.kind == "run.output.delta" then [e.payload.text] else []
  {
    assert (events + [e])[..|events|] == events;
  }

  /** What a call replied that it had not streamed. */
  function ReplyOf(c: Invocation): seq<string> {
    if c.result.Some? && c.result.value.Returned? && c.emits == 0 then c.result.value.chunks else []
  }

  predicate LastIs(events: seq<Envelope>, kind: string) {
    events != [] && events[|events| - 1].kind == kind
  }

  predicate Completed(events: seq<Envelope>) {
    LastIs(events, "run.completed") || LastIs(events, "run.accepted")
  }

  /** The run's output is what the call streamed and then a beginning of its reply; once the run is
      completed it is all of it, and the terminal event tells how the call returned. */
  predicate Spoken(events: seq<Envelope>, c: Invocation) {
    && c.said <= Deltas(events) <= c.said + ReplyOf(c)
    && (Completed(events) ==>
          && c.result.Some? && c.result.value.Returned? && Deltas(events) == c.said + ReplyOf(c)
          && LastIs(events, if c.result.value.accepted then "run.accepted" else "run.completed")
          && events[|events| - 1].payload == Payload("", "", "", "", false, c.result.value.adapterRunId))
  }

  /** The failures that the service itself reports. */
  predicate ServiceFailure(p: Payload) {
    || p == Payload("", "", "execution.interrupted", "restart", true, "")
    || p == Payload("", "", "execution.interrupted", "journal", true, "")
    || p == Payload("", "", "execution.expired", "queue", false, "")
    || p == Payload("", "", "console.execution_unsupported", "role", false, "")
    || p == Payload("", "", "unsupported_agent", "validation", false, "")
  }

  /** The call ended with this failure, and not as one to be tried again. */
  predicate FailedWith(c: Invocation, key: string, p: Payload) {
    && c.key == key && c.result.Some? && c.result.value.Failed? && c.result.value.payload == p
    && (c.emits > 0 || !c.result.value.retryable)
  }

  predicate FailureTold(events: seq<Envelope>, calls: seq<Invocation>, key: string) {
    LastIs(events, "run.failed") ==>
      var p := events[|events| - 1].payload;
      ServiceFailure(p) || exists i :: 0 <= i < |calls| && FailedWith(calls[i], key, p)
  }

  // ---- The invariant ----

  predicate CallForm(c: Invocation) {
    (c.emits == 0 ==> c.said == []) && (c.outcome == Running ==> c.result.None?)
  }

  predicate CallSpoken(m: Machine, i: nat)
    requires i < |m.invocations|
  {
    var c := m.invocations[i];
    CallForm(c) && (c.command && c.outcome != Retryable ==> Spoken(RunEvents(m.history, c.key), c))
  }

  /** Without a call other than silent retryable failures there is no output. */
  predicate KeyQuiet(m: Machine, k: string) {
    var events := RunEvents(m.history, k);
    Clean(m.invocations, k) ==> Deltas(events) == [] && !Completed(events)
  }

  /** The reply that a worker still has to send completes the call's output. */
  predicate StandOk(m: Machine, worker: Worker) {
    match worker
    case Replying(w, chunks, kind, adapterRunId, call) =>
      && call < |m.invocations| && var c := m.invocations[call];
      && c.key == w.key && c.outcome == Finished && c.result.Some? && c.result.value.Returned?
      && kind == (if c.result.value.accepted then "run.accepted" else "run.completed") && adapterRunId == c.result.value.adapterRunId
      && Deltas(RunEvents(m.history, w.key)) + chunks == c.said + ReplyOf(c)
    case _ => true
  }

  predicate FromSelf(cfg: Config, cs: seq<Change>) {
    forall i :: 0 <= i < |cs| && cs[i].Event? ==> cs[i].event.from == cfg.self
  }

  ghost predicate ContentOk(cfg: Config, m: Machine) {
    && (forall i :: 0 <= i < |m.invocations| ==> CallSpoken(m, i))
    && (forall k: string :: KeyQuiet(m, k) && FailureTold(RunEvents(m.history, k), m.invocations, k))
    && (forall s :: 0 <= s < |m.workers| ==> StandOk(m, m.workers[s]))
    && FromSelf(cfg, m.history)
  }

  // ---- Frames ----

  predicate SameEvents(m: Machine, n: Machine, k: string) {
    RunEvents(n.history, k) == RunEvents(m.history, k)
  }

  /** Only work k changes its events and its calls. */
  ghost predicate OnlyKey(m: Machine, n: Machine, k: string) {
    CallsApart(m.invocations, n.invocations, k) && forall j: string :: j != k ==> SameEvents(m, n, j)
  }

  lemma OtherKey(m: Machine, n: Machine, k: string, j: string)
    requires OnlyKey(m, n, k) && j != k && KeyQuiet(m, j) && FailureTold(RunEvents(m.history, j), m.invocations, j)
    ensures KeyQuiet(n, j) && FailureTold(RunEvents(n.history, j), n.invocations, j)
  {
    hide RunEvents;
    hide Deltas;
    hide ServiceFailure;
    hide Completed;
    var events := RunEvents(m.history, j);
    assert SameEvents(m, n, j);
    if Clean(n.invocations, j) {
      forall i | 0 <= i < |m.invocations| && m.invocations[i].key == j ensures m.invocations[i].outcome == Retryable {
        assert n.invocations[i] == m.invocations[i];
      }
    }
    if LastIs(events, "run.failed") && !ServiceFailure(events[|events| - 1].payload) {
      var i :| 0 <= i < |m.invocations| && FailedWith(m.invocations[i], j, events[|events| - 1].payload);
      assert n.invocations[i] == m.invocations[i];
    }
  }

  lemma OtherStand(m: Machine, n: Machine, k: string, worker: Worker)
    requires OnlyKey(m, n, k) && StandOk(m, worker) && worker.Replying? && worker.work.key != k
    ensures StandOk(n, worker)
  {
    hide RunEvents;
    hide Deltas;
    hide ReplyOf;
    assert SameEvents(m, n, worker.work.key);
  }

  lemma OtherCall(m: Machine, n: Machine, k: string, i: nat)
    requires OnlyKey(m, n, k) && i < |n.invocations| && n.invocations[i].key != k
    requires forall j :: 0 <= j < |m.invocations| ==> CallSpoken(m, j)
    ensures CallSpoken(n, i)
  {
    hide RunEvents;
    hide Spoken;
    hide CallForm;
    assert CallSpoken(m, i) && n.invocations[i] == m.invocations[i] && SameEvents(m, n, n.invocations[i].key);
  }

  /** A worker that is replying was replying before, for another work. */
  predicate OtherReply(m: Machine, s: nat, worker: Worker, k: string) {
    worker.Replying? ==> s < |m.workers| && worker == m.workers[s] && worker.work.key != k
  }

  predicate KeySpoken(m: Machine, k: string) {
    forall i :: 0 <= i < |m.invocations| && m.invocations[i].key == k ==> CallSpoken(m, i)
  }

  /** Assembling the invariant after a step that concerns one work. */
  lemma OneKeyContent(cfg: Config, m: Machine, n: Machine, k: string)
    requires ContentOk(cfg, m) && OnlyKey(m, n, k) && FromSelf(cfg, n.history) && KeySpoken(n, k)
    requires KeyQuiet(n, k) && FailureTold(RunEvents(n.history, k), n.invocations, k)
    requires forall s :: 0 <= s < |n.workers| ==> StandOk(n, n.workers[s]) || OtherReply(m, s, n.workers[s], k)
    ensures ContentOk(cfg, n)
  {
    hide RunEvents;
    hide CallSpoken;
    hide KeyQuiet;
    hide FailureTold;
    hide StandOk;
    hide FromSelf;
    hide OnlyKey;
    forall i | 0 <= i < |n.invocations| ensures CallSpoken(n, i) {
      if n.invocations[i].key != k {
        OtherCall(m, n, k, i);
      }
    }
    forall j: string ensures KeyQuiet(n, j) && FailureTold(RunEvents(n.history, j), n.invocations, j) {
      if j != k {
        assert KeyQuiet(m, j);
        OtherKey(m, n, k, j);
      }
    }
    forall s | 0 <= s < |n.workers| ensures StandOk(n, n.workers[s]) {
      if n.workers[s].Replying? {
        if !StandOk(n, n.workers[s]) {
          OtherStand(m, n, k, n.workers[s]);
        }
      } else {
        NoReply(n, n.workers[s]);
      }
    }
  }

  lemma NoReply(m: Machine, worker: Worker)
    requires !worker.Replying?
    ensures StandOk(m, worker)
  {
  }

  /** A step that makes no event and no call, and after which nobody newly replies. */
  lemma QuietContent(cfg: Config, m: Machine, n: Machine)
    requires ContentOk(cfg, m) && n.invocations == m.invocations && FromSelf(cfg, n.history)
    requires forall k: string :: SameEvents(m, n, k)
    requires forall s :: 0 <= s < |n.workers| ==> !n.workers[s].Replying? || (s < |m.workers| && n.workers[s] == m.workers[s])
    ensures ContentOk(cfg, n)
  {
    hide RunEvents;
    hide Deltas;
    hide ReplyOf;
    hide Spoken;
    hide CallForm;
    hide Completed;
    hide Clean;
    hide FailureTold;
    hide FromSelf;
    forall i | 0 <= i < |n.invocations| ensures CallSpoken(n, i) {
      assert CallSpoken(m, i) && SameEvents(m, n, n.invocations[i].key);
    }
    forall k: string ensures KeyQuiet(n, k) && FailureTold(RunEvents(n.history, k), n.invocations, k) {
      assert KeyQuiet(m, k) && SameEvents(m, n, k);
    }
    forall s | 0 <= s < |n.workers| ensures StandOk(n, n.workers[s]) {
      if n.workers[s].Replying? {
        assert StandOk(m, m.workers[s]) && SameEvents(m, n, n.workers[s].work.key);
      }
    }
  }

  /** One change that is no event. */
  lemma NoEvent(cfg: Config, m: Machine, n: Machine, c: Change)
    requires n.history == m.history + [c] && !c.Event? && FromSelf(cfg, m.history)
    ensures FromSelf(cfg, n.history) && forall k: string :: SameEvents(m, n, k)
  {
    forall k: string ensures SameEvents(m, n, k) {
      EventAppend(m.history, c, k);
    }
  }

  lemma SameHistory(cfg: Config, m: Machine, n: Machine)
    requires n.history == m.history && FromSelf(cfg, m.history)
    ensures FromSelf(cfg, n.history) && forall k: string :: SameEvents(m, n, k)
  {
  }

  /** The event that a step journals for work w. */
  function NewEvent(m: Machine, n: Machine): Envelope
    requires |n.history| == |m.history| + 1 && n.history[|m.history|].Event?
  {
    n.history[|m.history|].event
  }

  lemma OneEvent(cfg: Config, m: Machine, n: Machine, w: Work, kind: string, payload: Payload, to: WorkState, io: Io)
    requires EventWritten(cfg, m, n, w, kind, payload, to, io) && FromSelf(cfg, m.history)
    requires CallsApart(m.invocations, n.invocations, w.key)
    ensures FromSelf(cfg, n.history) && OnlyKey(m, n, w.key)
    ensures |n.history| == |m.history| + 1 && n.history[|m.history|].Event?
    ensures NewEvent(m, n).kind == kind && NewEvent(m, n).payload == payload
    ensures RunEvents(n.history, w.key) == RunEvents(m.history, w.key) + [NewEvent(m, n)]
  {
    hide RunEvents;
    hide CallsApart;
    var c := n.history[|m.history|];
    assert n.history == m.history + [c];
    forall j: string | j != w.key ensures SameEvents(m, n, j) {
      EventAppend(m.history, c, j);
    }
    EventAppend(m.history, c, w.key);
  }

  // ---- Calls of one command ----

  /** All calls of a command but its last are silent retryable failures. */
  lemma OnlyCall(x: Index, calls: seq<Invocation>, call: nat)
    requires CallsOk(x, calls) && call < |calls| && calls[call].command && calls[call].outcome != Retryable
    ensures forall i :: 0 <= i < |calls| && calls[i].key == calls[call].key && i != call ==> calls[i].outcome == Retryable
    ensures forall i :: 0 <= i < |calls| && calls[i].key == calls[call].key ==> calls[i].command
  {
  }

  /** Work that is no command has no events. */
  lemma NoEventsForFeedback(m: Machine, w: Work)
    requires Current(m, w) && !IsCommand(w.message.kind)
    ensures RunEvents(m.history, w.key) == []
  {
    hide After;
    hide RunEvents;
    hide IsCommand;
    AfterInv(m.history);
    assert WorkOk(m.index, w.key, w);
    RunEventSequence(m.history, w.key);
  }

  // ---- A failure, whatever was said before ----

  lemma FailedSpoken(events: seq<Envelope>, e: Envelope, c: Invocation)
    requires Spoken(events, c) && e.kind == "run.failed"
    ensures Spoken(events + [e], c)
  {
    hide Deltas;
    hide ReplyOf;
    DeltasAppend(events, e);
  }

  lemma FailedQuiet(events: seq<Envelope>, e: Envelope)
    requires e.kind == "run.failed"
    ensures Deltas(events + [e]) == Deltas(events) && !Completed(events + [e])
  {
    DeltasAppend(events, e);
    hide Deltas;
  }

  /** The service reports a failure of its own. */
  lemma FailedContent(cfg: Config, m: Machine, n: Machine, w: Work, payload: Payload, to: WorkState, io: Io)
    requires ContentOk(cfg, m) && EventWritten(cfg, m, n, w, "run.failed", payload, to, io) && ServiceFailure(payload)
    requires n.invocations == m.invocations
    requires forall s :: 0 <= s < |n.workers| ==> OtherReply(m, s, n.workers[s], w.key)
    ensures ContentOk(cfg, n)
  {
    hide RunEvents;
    hide EventWritten;
    hide ServiceFailure;
    hide Spoken;
    hide CallForm;
    hide Deltas;
    hide Completed;
    hide Clean;
    hide FromSelf;
    hide OtherReply;
    hide StandOk;
    var k := w.key;
    OneEvent(cfg, m, n, w, "run.failed", payload, to, io);
    hide OnlyKey;
    var before, e := RunEvents(m.history, k), NewEvent(m, n);
    forall i | 0 <= i < |n.invocations| && n.invocations[i].key == k ensures CallSpoken(n, i) {
      assert CallSpoken(m, i);
      if n.invocations[i].command && n.invocations[i].outcome != Retryable {
        FailedSpoken(before, e, n.invocations[i]);
      }
    }
    FailedQuiet(before, e);
    assert KeyQuiet(m, k);
    OneKeyContent(cfg, m, n, k);
  }

  // ---- The steps of a worker ----

  /** Two workers never hold the same work. */
  lemma OthersApart(cfg: Config, m: Machine, n: Machine, s: nat, worker: Worker)
    requires MachineInv(cfg, m) && !WorkerAt(m, s).Idle? && Stands(m, n, s, worker)
    ensures forall t :: 0 <= t < |n.workers| && t != s ==> OtherReply(m, t, n.workers[t], WorkerAt(m, s).work.key)
  {
    hide MachineInv;
    hide IsHead;
    hide WorkShard;
    hide Inv;
    hide MayWrite;
    WorkerHolds(cfg, m, s);
    forall t | 0 <= t < |n.workers| && t != s ensures OtherReply(m, t, n.workers[t], WorkerAt(m, s).work.key) {
      if n.workers[t].Replying? {
        WorkerHolds(cfg, m, t);
      }
    }
  }

  lemma ConsiderContent(cfg: Config, m: Machine, s: nat, o: Outlook, io: Io)
    requires MachineInv(cfg, m) && ContentOk(cfg, m) && WorkerAt(m, s).Chosen?
    ensures ContentOk(cfg, Step(cfg, m, Consider(s, o, io)))
  {
    hide MachineInv;
    hide ContentOk;
    hide Step;
    hide Enters;
    hide EndsSilently;
    hide Rejects;
    hide Waits;
    hide EventWritten;
    hide StateWritten;
    hide NothingWritten;
    hide Stands;
    var n, w := Step(cfg, m, Consider(s, o, io)), WorkerAt(m, s).work;
    var kind := w.message.kind;
    WorkerHolds(cfg, m, s);
    if w.state == Admitted {
      AdmittedOutcome(cfg, m, s, o, io);
      if IsCommand(kind) && Ready(m, w, io) {
        WorkerFails(cfg, m, n, s, w, Payload("", "", "execution.interrupted", "journal", true, ""), io);
      } else if IsCommand(kind) || !io.ok {
        WorkerWaits(cfg, m, n, s, Idle);
      } else {
        WorkerMoves(cfg, m, n, s, Idle, w, Queued, Interruption);
      }
    } else {
      QueuedOutcome(cfg, m, s, o, io);
      Decides(cfg, w, o);
      match Decide(cfg, w, o)
      case Wait => WorkerWaits(cfg, m, n, s, Idle);
      case Retire(cause) =>
        if io.ok {
          WorkerMoves(cfg, m, n, s, Idle, w, Done, cause);
        } else {
          WorkerWaits(cfg, m, n, s, Idle);
        }
      case Reject(p) =>
        RejectionShape(cfg, w, o);
        RejectionIsService(cfg, kind, o, p.code, p.stage);
        if Ready(m, w, io) {
          WorkerFails(cfg, m, n, s, w, p, io);
        } else {
          WorkerWaits(cfg, m, n, s, Idle);
        }
      case Admit =>
        if io.ok {
          WorkerMoves(cfg, m, n, s, Entered(w.(state := Admitted)), w, Admitted, Admission);
        } else {
          WorkerWaits(cfg, m, n, s, Idle);
        }
    }
  }

  lemma RejectionIsService(cfg: Config, kind: string, o: Outlook, code: string, stage: string)
    requires Rejects(cfg, kind, o, code, stage)
    ensures ServiceFailure(Payload("", "", code, stage, false, ""))
  {
    hide IsCommand;
  }

  lemma WorkerWaits(cfg: Config, m: Machine, n: Machine, s: nat, worker: Worker)
    requires ContentOk(cfg, m) && NothingWritten(m, n) && CallsStay(m, n) && Stands(m, n, s, worker) && !worker.Replying?
    ensures ContentOk(cfg, n)
  {
    hide ContentOk;
    assert FromSelf(cfg, m.history) by {
      ContentFromSelf(cfg, m);
    }
    SameHistory(cfg, m, n);
    QuietContent(cfg, m, n);
  }

  lemma ContentFromSelf(cfg: Config, m: Machine)
    requires ContentOk(cfg, m)
    ensures FromSelf(cfg, m.history)
  {
    hide RunEvents;
  }

  lemma WorkerMoves(cfg: Config, m: Machine, n: Machine, s: nat, worker: Worker, w: Work, to: WorkState, cause: Cause)
    requires ContentOk(cfg, m) && StateWritten(m, n, w, to, cause) && CallsStay(m, n) && Stands(m, n, s, worker) && !worker.Replying?
    ensures ContentOk(cfg, n)
  {
    hide ContentOk;
    ContentFromSelf(cfg, m);
    MovedHistory(cfg, m, n, w, to, cause);
    QuietContent(cfg, m, n);
  }

  lemma WorkerFails(cfg: Config, m: Machine, n: Machine, s: nat, w: Work, payload: Payload, io: Io)
    requires MachineInv(cfg, m) && ContentOk(cfg, m) && !WorkerAt(m, s).Idle? && WorkerAt(m, s).work == w
    requires EventWritten(cfg, m, n, w, "run.failed", payload, Done, io) && ServiceFailure(payload)
    requires CallsStay(m, n) && Stands(m, n, s, Idle)
    ensures ContentOk(cfg, n)
  {
    hide MachineInv;
    hide ContentOk;
    hide EventWritten;
    hide ServiceFailure;
    OthersApart(cfg, m, n, s, Idle);
    FailedContent(cfg, m, n, w, payload, Done, io);
  }

  /** The same events, or one more that is neither output nor terminal. */
  predicate NoOutput(before: seq<Envelope>, after: seq<Envelope>) {
    after == before || (after != [] && after[..|after| - 1] == before && LastIs(after, "run.started"))
  }

  lemma NoOutputSays(before: seq<Envelope>, after: seq<Envelope>)
    requires NoOutput(before, after)
    ensures Deltas(after) == Deltas(before)
    ensures !Completed(before) ==> !Completed(after)
    ensures LastIs(after, "run.failed") ==> after == before
  {
    if after != before {
      assert after == before + [after[|before|]];
      DeltasAppend(before, after[|before|]);
      hide Deltas;
    }
  }

  /** A call begins with nothing said. */
  lemma BegunContent(cfg: Config, m: Machine, n: Machine, s: nat, w: Work, worker: Worker)
    requires MachineInv(cfg, m) && ContentOk(cfg, m) && WorkerAt(m, s) == Entered(w)
    requires n.invocations == m.invocations + [Invocation(w.key, IsCommand(w.message.kind), 0, Running, [], None)]
    requires Stands(m, n, s, worker) && !worker.Replying?
    requires OnlyKey(m, n, w.key) && FromSelf(cfg, n.history) && NoOutput(RunEvents(m.history, w.key), RunEvents(n.history, w.key))
    requires !IsCommand(w.message.kind) ==> SameEvents(m, n, w.key)
    ensures ContentOk(cfg, n)
  {
    hide RunEvents;
    hide MachineInv;
    hide Deltas;
    hide NoOutput;
    hide OnlyKey;
    hide FromSelf;
    hide IsCommand;
    hide Completed;
    hide IsHead;
    hide ServiceFailure;
    hide WorkShard;
    hide Inv;
    hide MayWrite;
    var k := w.key;
    var before, after := RunEvents(m.history, k), RunEvents(n.history, k);
    WorkerHolds(cfg, m, s);
    OthersApart(cfg, m, n, s, worker);
    hide Stands;
    hide OtherReply;
    NoOutputSays(before, after);
    assert KeyQuiet(m, k);
    forall i | 0 <= i < |n.invocations| && n.invocations[i].key == k ensures CallSpoken(n, i) {
      if i < |m.invocations| {
        assert CallSpoken(m, i) && n.invocations[i] == m.invocations[i];
      } else {
        if IsCommand(w.message.kind) {
          NothingSaid(after, n.invocations[i]);
        }
      }
    }
    assert !Clean(n.invocations, k) by {
      assert n.invocations[|m.invocations|].outcome == Running;
    }
    FailureKept(after, m.invocations, n.invocations, k);
    hide Clean;
    hide FailureTold;
    hide CallSpoken;
    hide ContentOk;
    NoReply(n, worker);
    OneKeyContent(cfg, m, n, k);
  }

  lemma NothingSaid(events: seq<Envelope>, c: Invocation)
    requires c.said == [] && c.result.None? && Deltas(events) == [] && !Completed(events)
    ensures Spoken(events, c)
  {
    hide Deltas;
  }

  lemma FailureKept(events: seq<Envelope>, calls: seq<Invocation>, more: seq<Invocation>, k: string)
    requires calls <= more
    ensures FailureTold(events, calls, k) ==> FailureTold(events, more, k)
  {
    hide ServiceFailure;
    if FailureTold(events, calls, k) && LastIs(events, "run.failed") && !ServiceFailure(events[|events| - 1].payload) {
      var i :| 0 <= i < |calls| && FailedWith(calls[i], k, events[|events| - 1].payload);
      assert more[i] == calls[i];
    }
  }

  lemma BeginContent(cfg: Config, m: Machine, s: nat, io: Io)
    requires MachineInv(cfg, m) && ContentOk(cfg, m) && WorkerAt(m, s).Entered?
    ensures ContentOk(cfg, Step(cfg, m, Begin(s, io)))
  {
    hide MachineInv;
    hide ContentOk;
    hide Step;
    hide EventWritten;
    hide IsCommand;
    hide RunEvents;
    var n, w := Step(cfg, m, Begin(s, io)), WorkerAt(m, s).work;
    var first := IsCommand(w.message.kind) && w.seqNo == 0;
    BeginOutcome(cfg, m, s, io);
    ContentFromSelf(cfg, m);
    hide FromSelf;
    if first && Ready(m, w, io) {
      OneEvent(cfg, m, n, w, "run.started", Payload("", "", "", "", false, ""), Admitted, io);
      hide OnlyKey;
      BegunContent(cfg, m, n, s, w, Handling(w.(seqNo := 1), false, |m.invocations|));
    } else if first {
      WorkerWaits(cfg, m, n, s, Idle);
    } else {
      SameHistory(cfg, m, n);
      BegunContent(cfg, m, n, s, w, Handling(w, false, |m.invocations|));
    }
  }

  // ---- What a call says ----

  /** The call of a worker that is handling a command: running, and the only one of its command that
      is not a silent retryable failure. */
  lemma RunningCall(cfg: Config, m: Machine, s: nat)
    requires MachineInv(cfg, m) && WorkerAt(m, s).Handling?
    ensures var at := WorkerAt(m, s);
            && at.call < |m.invocations| && CallOk(m.invocations, at.call, at.work, at.streamed)
            && (IsCommand(at.work.message.kind) ==>
                  forall i :: 0 <= i < |m.invocations| && m.invocations[i].key == at.work.key && i != at.call ==>
                    m.invocations[i].outcome == Retryable)
  {
    hide MachineInv;
    hide IsHead;
    hide WorkShard;
    hide Inv;
    hide MayWrite;
    hide IsCommand;
    hide CallsOk;
    WorkerHolds(cfg, m, s);
    RunningHolds(cfg, m);
    if IsCommand(WorkerAt(m, s).work.message.kind) {
      OnlyCall(m.index, m.invocations, WorkerAt(m, s).call);
    }
  }

  lemma DeltaSpoken(events: seq<Envelope>, e: Envelope, c: Invocation, d: Invocation)
    requires Spoken(events, c) && CallForm(c) && c.result.None? && e.kind == "run.output.delta"
    requires d.said == c.said + [e.payload.text] && d.result.None?
    ensures Spoken(events + [e], d)
  {
    DeltasAppend(events, e);
    hide Deltas;
  }

  /** The running call of a command is replaced by one that agrees with the events. */
  lemma CallContent(cfg: Config, m: Machine, n: Machine, s: nat, worker: Worker, d: Invocation)
    requires MachineInv(cfg, m) && ContentOk(cfg, m) && WorkerAt(m, s).Handling? && Stands(m, n, s, worker)
    requires var at := WorkerAt(m, s);
             && at.call < |m.invocations| && n.invocations == m.invocations[at.call := d]
             && d.key == at.work.key && d.command == IsCommand(at.work.message.kind)
             && OnlyKey(m, n, at.work.key) && FromSelf(cfg, n.history)
             && CallForm(d) && KeyQuiet(n, at.work.key)
             && FailureTold(RunEvents(n.history, at.work.key), n.invocations, at.work.key)
             && (if IsCommand(at.work.message.kind)
                 then d.outcome != Retryable ==> Spoken(RunEvents(n.history, at.work.key), d)
                 else SameEvents(m, n, at.work.key))
    requires StandOk(n, worker)
    ensures ContentOk(cfg, n)
  {
    hide RunEvents;
    hide MachineInv;
    hide Spoken;
    hide OnlyKey;
    hide FromSelf;
    hide IsCommand;
    hide KeyQuiet;
    hide FailureTold;
    hide StandOk;
    var at := WorkerAt(m, s);
    var k := at.work.key;
    RunningCall(cfg, m, s);
    OthersApart(cfg, m, n, s, worker);
    hide OtherReply;
    forall i | 0 <= i < |n.invocations| && n.invocations[i].key == k ensures CallSpoken(n, i) {
      if i != at.call {
        assert CallSpoken(m, i) && n.invocations[i] == m.invocations[i];
      }
    }
    hide CallSpoken;
    hide ContentOk;
    OneKeyContent(cfg, m, n, k);
  }

  lemma ReplacedCall(m: Machine, n: Machine, call: nat, d: Invocation)
    requires call < |m.invocations| && n.invocations == m.invocations[call := d] && d.key == m.invocations[call].key
    ensures CallsApart(m.invocations, n.invocations, d.key)
  {
  }

  lemma StreamContent(cfg: Config, m: Machine, s: nat, text: string, io: Io)
    requires MachineInv(cfg, m) && ContentOk(cfg, m) && WorkerAt(m, s).Handling? && IsCommand(WorkerAt(m, s).work.message.kind)
    ensures ContentOk(cfg, Step(cfg, m, Stream(s, text, io)))
  {
    hide MachineInv;
    hide Step;
    hide EventWritten;
    hide IsCommand;
    hide RunEvents;
    hide FromSelf;
    hide Deltas;
    hide ServiceFailure;
    hide StandOk;
    var n, at := Step(cfg, m, Stream(s, text, io)), WorkerAt(m, s);
    var k, w := at.work.key, at.work;
    StreamOutcome(cfg, m, s, text, io);
    RunningCall(cfg, m, s);
    var c, d := m.invocations[at.call], n.invocations[at.call];
    assert CallSpoken(m, at.call);
    ReplacedCall(m, n, at.call, d);
    hide CallsApart;
    assert !Clean(n.invocations, k) by {
      assert d.outcome == Running;
    }
    hide Clean;
    if Ready(m, w, io) {
      OneEvent(cfg, m, n, w, "run.output.delta", Payload(text, "answer", "", "", false, ""), Admitted, io);
      DeltaSpoken(RunEvents(m.history, k), NewEvent(m, n), c, d);
    } else {
      SameHistory(cfg, m, n);
      SilentFailure(RunEvents(m.history, k), m.invocations, n.invocations, at.call, k);
    }
    NoReply(n, n.workers[s]);
    hide OnlyKey;
    hide ContentOk;
    hide Spoken;
    CallContent(cfg, m, n, s, n.workers[s], d);
  }

  /** A call without a result has told no failure. */
  lemma SilentFailure(events: seq<Envelope>, calls: seq<Invocation>, after: seq<Invocation>, call: nat, k: string)
    requires FailureTold(events, calls, k) && call < |calls| == |after| && after == calls[call := after[call]]
    requires calls[call].result.None?
    ensures FailureTold(events, after, k)
  {
    hide ServiceFailure;
    if LastIs(events, "run.failed") && !ServiceFailure(events[|events| - 1].payload) {
      var i :| 0 <= i < |calls| && FailedWith(calls[i], k, events[|events| - 1].payload);
      assert after[i] == calls[i];
    }
  }

  lemma EndedSpoken(events: seq<Envelope>, c: Invocation, d: Invocation)
    requires Spoken(events, c) && c.result.None? && d.said == c.said && d.result.Some?
    ensures Spoken(events, d) && Deltas(events) == c.said && !Completed(events)
  {
    hide Deltas;
  }

  /** The call ends without an event. */
  lemma EndedContent(cfg: Config, m: Machine, n: Machine, s: nat, worker: Worker, outcome: Outcome, result: Result)
    requires MachineInv(cfg, m) && ContentOk(cfg, m) && WorkerAt(m, s).Handling? && Stands(m, n, s, worker)
    requires FromSelf(cfg, n.history) && forall k: string :: SameEvents(m, n, k)
    requires var at := WorkerAt(m, s);
             && at.call < |m.invocations| && outcome != Running
             && n.invocations == m.invocations[at.call := m.invocations[at.call].(outcome := outcome, result := Some(result))]
             && (IsCommand(at.work.message.kind) && outcome == Retryable ==> !at.streamed)
             && (worker.Replying? ==>
                   && IsCommand(at.work.message.kind) && outcome == Finished && result.Returned? && worker.work.key == at.work.key
                   && worker.call == at.call && worker.chunks == (if at.streamed then [] else result.chunks)
                   && worker.kind == (if result.accepted then "run.accepted" else "run.completed")
                   && worker.adapterRunId == result.adapterRunId)
    ensures ContentOk(cfg, n)
  {
    hide RunEvents;
    hide MachineInv;
    hide FromSelf;
    hide IsCommand;
    hide Deltas;
    hide IsHead;
    hide WorkShard;
    hide ServiceFailure;
    hide LogInv;
    var at := WorkerAt(m, s);
    var k, call := at.work.key, at.call;
    RunningCall(cfg, m, s);
    var c, d := m.invocations[call], n.invocations[call];
    var events := RunEvents(m.history, k);
    assert SameEvents(m, n, k) && CallSpoken(m, call) && KeyQuiet(m, k);
    ReplacedCall(m, n, call, d);
    hide CallsApart;
    if IsCommand(at.work.message.kind) {
      EndedSpoken(events, c, d);
      SilentFailure(events, m.invocations, n.invocations, call, k);
      if outcome != Retryable {
        assert !Clean(n.invocations, k);
      }
    } else {
      WorkerCurrent(cfg, m, s);
      NoEventsForFeedback(m, at.work);
      assert Deltas([]) == [] by {
        EmptyDeltas();
      }
    }
    hide Clean;
    hide Spoken;
    hide ContentOk;
    assert KeyQuiet(n, k);
    assert FailureTold(RunEvents(n.history, k), n.invocations, k);
    assert StandOk(n, worker);
    CallContent(cfg, m, n, s, worker, d);
  }

  lemma EmptyDeltas()
    ensures Deltas([]) == []
  {
  }

  /** The call ends with a failure that is reported. */
  lemma ReportedContent(cfg: Config, m: Machine, n: Machine, s: nat, result: Result, io: Io)
    requires MachineInv(cfg, m) && ContentOk(cfg, m) && WorkerAt(m, s).Handling? && Stands(m, n, s, Idle)
    requires var at := WorkerAt(m, s);
             && at.call < |m.invocations| && IsCommand(at.work.message.kind) && result.Failed? && (at.streamed || !result.retryable)
             && EventWritten(cfg, m, n, at.work, "run.failed", result.payload, Done, io)
             && n.invocations == m.invocations[at.call := m.invocations[at.call].(outcome := Finished, result := Some(result))]
    ensures ContentOk(cfg, n)
  {
    hide RunEvents;
    hide MachineInv;
    hide FromSelf;
    hide IsCommand;
    hide Deltas;
    hide EventWritten;
    hide ServiceFailure;
    var at := WorkerAt(m, s);
    var k, call := at.work.key, at.call;
    RunningCall(cfg, m, s);
    var c, d := m.invocations[call], n.invocations[call];
    var events := RunEvents(m.history, k);
    assert CallSpoken(m, call);
    ReplacedCall(m, n, call, d);
    hide CallsApart;
    OneEvent(cfg, m, n, at.work, "run.failed", result.payload, Done, io);
    hide OnlyKey;
    var e := NewEvent(m, n);
    EndedSpoken(events, c, d);
    FailedSpoken(events, e, d);
    assert !Clean(n.invocations, k);
    hide Clean;
    hide Spoken;
    hide ContentOk;
    assert KeyQuiet(n, k);
    assert FailureTold(RunEvents(n.history, k), n.invocations, k) by {
      assert FailedWith(n.invocations[call], k, e.payload);
    }
    NoReply(n, Idle);
    CallContent(cfg, m, n, s, Idle, d);
  }

  lemma ReturnContent(cfg: Config, m: Machine, s: nat, result: Result, io: Io)
    requires MachineInv(cfg, m) && ContentOk(cfg, m) && WorkerAt(m, s).Handling?
    ensures ContentOk(cfg, Step(cfg, m, Return(s, result, io)))
  {
    hide MachineInv;
    hide ContentOk;
    hide Step;
    hide EventWritten;
    hide StateWritten;
    hide IsCommand;
    hide RunEvents;
    var n, at := Step(cfg, m, Return(s, result, io)), WorkerAt(m, s);
    var w, kind := at.work, at.work.message.kind;
    ReturnOutcome(cfg, m, s, result, io);
    ContentFromSelf(cfg, m);
    hide FromSelf;
    var again := TriesAgain(kind, at.streamed, result);
    if IsCommand(kind) && !again && result.Failed? && Ready(m, w, io) {
      ReportedContent(cfg, m, n, s, result, io);
    } else {
      if (again || !IsCommand(kind)) && io.ok {
        MovedHistory(cfg, m, n, w, if again then Queued else Done, if again then Retry else Handled);
      } else {
        SameHistory(cfg, m, n);
      }
      EndedContent(cfg, m, n, s, n.workers[s], if again then Retryable else Finished, result);
    }
  }

  lemma MovedHistory(cfg: Config, m: Machine, n: Machine, w: Work, to: WorkState, cause: Cause)
    requires StateWritten(m, n, w, to, cause) && FromSelf(cfg, m.history)
    ensures FromSelf(cfg, n.history) && forall k: string :: SameEvents(m, n, k)
  {
    NoEvent(cfg, m, n, Move(w.key, to, cause));
  }

  // ---- The reply ----

  lemma PieceSpoken(events: seq<Envelope>, e: Envelope, c: Invocation, chunks: seq<string>)
    requires Spoken(events, c) && Deltas(events) + chunks == c.said + ReplyOf(c) && chunks != []
    requires e.kind == "run.output.delta" && e.payload.text == chunks[0]
    ensures Spoken(events + [e], c) && Deltas(events + [e]) + chunks[1..] == c.said + ReplyOf(c)
  {
    DeltasAppend(events, e);
    hide Deltas;
    hide ReplyOf;
    var all := c.said + ReplyOf(c);
    assert Deltas(events + [e]) == Deltas(events) + chunks[..1];
    assert chunks[..1] + chunks[1..] == chunks;
    assert Deltas(events + [e]) == all[..|Deltas(events)| + 1];
  }

  lemma LastSpoken(events: seq<Envelope>, e: Envelope, c: Invocation)
    requires Spoken(events, c) && Deltas(events) == c.said + ReplyOf(c) && c.result.Some? && c.result.value.Returned?
    requires e.kind == (if c.result.value.accepted then "run.accepted" else "run.completed")
    requires e.payload == Payload("", "", "", "", false, c.result.value.adapterRunId)
    ensures Spoken(events + [e], c)
  {
    DeltasAppend(events, e);
    hide Deltas;
    hide ReplyOf;
  }

  /** The call that a worker replies for. */
  lemma RepliedCall(cfg: Config, m: Machine, s: nat)
    requires MachineInv(cfg, m) && ContentOk(cfg, m) && WorkerAt(m, s).Replying?
    ensures var at := WorkerAt(m, s);
            && StandOk(m, at) && m.invocations[at.call].command
            && (forall i :: 0 <= i < |m.invocations| && m.invocations[i].key == at.work.key && i != at.call ==>
                  m.invocations[i].outcome == Retryable)
            && CallSpoken(m, at.call)
  {
    hide MachineInv;
    hide IsHead;
    hide WorkShard;
    hide Inv;
    hide MayWrite;
    hide IsCommand;
    hide RunEvents;
    hide Deltas;
    hide Spoken;
    hide CallForm;
    hide KeyQuiet;
    hide FailureTold;
    WorkerHolds(cfg, m, s);
    RunningHolds(cfg, m);
    var at := WorkerAt(m, s);
    assert StandOk(m, m.workers[s]);
    OnlyCall(m.index, m.invocations, at.call);
  }

  /** An event of the reply that agrees with the call. */
  lemma ReplyEventContent(cfg: Config, m: Machine, n: Machine, s: nat, kind: string, payload: Payload, to: WorkState, io: Io, worker: Worker)
    requires MachineInv(cfg, m) && ContentOk(cfg, m) && WorkerAt(m, s).Replying? && Stands(m, n, s, worker) && CallsStay(m, n)
    requires var at := WorkerAt(m, s);
             && EventWritten(cfg, m, n, at.work, kind, payload, to, io) && kind != "run.failed"
             && at.call < |m.invocations| && RunEvents(n.history, at.work.key) != []
             && var e := RunEvents(n.history, at.work.key)[|RunEvents(n.history, at.work.key)| - 1];
             && Spoken(RunEvents(m.history, at.work.key) + [e], m.invocations[at.call])
    requires StandOk(n, worker)
    ensures ContentOk(cfg, n)
  {
    hide RunEvents;
    hide MachineInv;
    hide FromSelf;
    hide IsCommand;
    hide Deltas;
    hide EventWritten;
    hide ServiceFailure;
    var at := WorkerAt(m, s);
    var k := at.work.key;
    RepliedCall(cfg, m, s);
    ContentFromSelf(cfg, m);
    assert !Clean(n.invocations, k);
    hide Clean;
    OneEvent(cfg, m, n, at.work, kind, payload, to, io);
    hide OnlyKey;
    OthersApart(cfg, m, n, s, worker);
    hide OtherReply;
    hide Spoken;
    forall i | 0 <= i < |n.invocations| && n.invocations[i].key == k ensures CallSpoken(n, i) {
      assert CallSpoken(m, i);
    }
    assert KeyQuiet(n, k);
    assert FailureTold(RunEvents(n.history, k), n.invocations, k);
    hide ContentOk;
    hide StandOk;
    OneKeyContent(cfg, m, n, k);
  }

  lemma ReplyContent(cfg: Config, m: Machine, s: nat, io: Io)
    requires MachineInv(cfg, m) && ContentOk(cfg, m) && WorkerAt(m, s).Replying?
    ensures ContentOk(cfg, Step(cfg, m, Reply(s, io)))
  {
    hide MachineInv;
    hide ContentOk;
    hide Step;
    hide EventWritten;
    hide IsCommand;
    hide RunEvents;
    hide Spoken;
    hide ReplyOf;
    hide Deltas;
    hide CallForm;
    hide FromSelf;
    var n, at := Step(cfg, m, Reply(s, io)), WorkerAt(m, s);
    var w, k := at.work, at.work.key;
    ReplyOutcome(cfg, m, s, io);
    RepliedCall(cfg, m, s);
    ContentFromSelf(cfg, m);
    var c, events := m.invocations[at.call], RunEvents(m.history, k);
    if !Ready(m, w, io) {
      WorkerWaits(cfg, m, n, s, Idle);
    } else if at.chunks == [] {
      var payload := Payload("", "", "", "", false, at.adapterRunId);
      OneEvent(cfg, m, n, w, at.kind, payload, Done, io);
      hide OnlyKey;
      LastSpoken(events, NewEvent(m, n), c);
      NoReply(n, Idle);
      ReplyEventContent(cfg, m, n, s, at.kind, payload, Done, io, Idle);
    } else {
      var payload := Payload(at.chunks[0], "answer", "", "", false, "");
      OneEvent(cfg, m, n, w, "run.output.delta", payload, Admitted, io);
      hide OnlyKey;
      PieceSpoken(events, NewEvent(m, n), c, at.chunks);
      ReplyEventContent(cfg, m, n, s, "run.output.delta", payload, Admitted, io, n.workers[s]);
    }
  }

  // ---- All other steps ----

  lemma SettleContent(cfg: Config, m: Machine, key: string, io: Io)
    requires MachineInv(cfg, m) && ContentOk(cfg, m) && m.phase.Starting? && key in m.phase.todo
    ensures ContentOk(cfg, Step(cfg, m, Settle(key, io)))
  {
    hide ContentOk;
    hide MachineInv;
    hide Step;
    hide EventWritten;
    hide StateWritten;
    hide IsCommand;
    hide FromSelf;
    hide Drop;
    var n := Step(cfg, m, Settle(key, io));
    SettleOutcome(cfg, m, key, io);
    ContentFromSelf(cfg, m);
    StartingIdle(cfg, m);
    var w := m.index.work[key];
    if IsCommand(w.message.kind) && Ready(m, w, io) {
      FailedContent(cfg, m, n, w, Payload("", "", "execution.interrupted", "restart", true, ""), Done, io);
    } else if !IsCommand(w.message.kind) && io.ok {
      MovedHistory(cfg, m, n, w, Queued, Interruption);
      QuietContent(cfg, m, n);
    } else {
      SettleDrops(cfg, m, key, io);
      DropContent(cfg, m);
    }
  }

  lemma StartingIdle(cfg: Config, m: Machine)
    requires MachineInv(cfg, m) && m.phase.Starting?
    ensures forall s :: 0 <= s < |m.workers| ==> m.workers[s].Idle?
  {
    hide LogInv;
    hide WorkersOk;
    hide CallsOk;
    hide OutboxOk;
    hide WithinCapacity;
  }

  lemma SettleDrops(cfg: Config, m: Machine, key: string, io: Io)
    requires m.phase.Starting? && key in m.phase.todo && key in m.index.work && Step(cfg, m, Settle(key, io)).phase.Down?
    ensures Step(cfg, m, Settle(key, io)) == Drop(m)
  {
    hide Emit;
    hide SetWork;
    hide IsCommand;
  }

  /** Calls that a crash cuts off have said what they said. */
  lemma DropContent(cfg: Config, m: Machine)
    requires ContentOk(cfg, m)
    ensures ContentOk(cfg, Drop(m))
  {
    hide RunEvents;
    hide Deltas;
    hide Completed;
    hide ServiceFailure;
    hide FromSelf;
    var n := Drop(m);
    forall i | 0 <= i < |n.invocations| ensures CallSpoken(n, i) {
      assert CallSpoken(m, i);
    }
    forall k: string ensures KeyQuiet(n, k) && FailureTold(RunEvents(n.history, k), n.invocations, k) {
      assert KeyQuiet(m, k) && FailureTold(RunEvents(m.history, k), m.invocations, k);
      LostSame(m.invocations, k, RunEvents(m.history, k));
    }
    assert FromSelf(cfg, n.history);
  }

  lemma LostSame(calls: seq<Invocation>, k: string, events: seq<Envelope>)
    ensures Clean(LoseRunning(calls), k) ==> Clean(calls, k)
    ensures FailureTold(events, calls, k) ==> FailureTold(events, LoseRunning(calls), k)
  {
    hide ServiceFailure;
    var lost := LoseRunning(calls);
    if Clean(lost, k) {
      forall i | 0 <= i < |calls| && calls[i].key == k ensures calls[i].outcome == Retryable {
        assert lost[i].outcome == Retryable;
      }
    }
    if FailureTold(events, calls, k) && LastIs(events, "run.failed") && !ServiceFailure(events[|events| - 1].payload) {
      var i :| 0 <= i < |calls| && FailedWith(calls[i], k, events[|events| - 1].payload);
      assert FailedWith(lost[i], k, events[|events| - 1].payload);
    }
  }

  /** A step that writes at most one change that is no event, makes no call, and lets nobody reply. */
  ghost predicate Quiet(m: Machine, n: Machine) {
    && n.invocations == m.invocations
    && (n.history == m.history || exists c: Change :: n.history == m.history + [c] && !c.Event?)
    && (forall s :: 0 <= s < |n.workers| ==> !n.workers[s].Replying? || (s < |m.workers| && n.workers[s] == m.workers[s]))
  }

  lemma QuietKeeps(cfg: Config, m: Machine, n: Machine)
    requires ContentOk(cfg, m) && Quiet(m, n)
    ensures ContentOk(cfg, n)
  {
    hide ContentOk;
    ContentFromSelf(cfg, m);
    if n.history == m.history {
      SameHistory(cfg, m, n);
    } else {
      var c: Change :| n.history == m.history + [c] && !c.Event?;
      NoEvent(cfg, m, n, c);
    }
    QuietContent(cfg, m, n);
  }

  lemma OutsideIsQuiet(cfg: Config, m: Machine, a: Action)
    requires a.Boot? || a.Serve? || a.Publish? || a.Receive? || a.TakePending? || a.FlushBegin? || a.FlushEnd? || a.Pick?
    ensures Quiet(m, Step(cfg, m, a))
  {
    hide ApplyRecord;
    hide Replay;
    hide FirstOpen;
    hide MakesWork;
    hide OverCapacity;
    hide NeedsRun;
    hide Previous;
    hide IsToken;
  }

  /** Every step keeps the agreement of events, calls and workers. */
  lemma StepContent(cfg: Config, m: Machine, a: Action)
    requires MachineInv(cfg, m) && ContentOk(cfg, m)
    ensures ContentOk(cfg, Step(cfg, m, a))
  {
    hide MachineInv;
    hide ContentOk;
    if !Enabled(m, a) {
      DisabledStays(cfg, m, a);
    } else {
      hide Enabled;
      hide Step;
      match a
      case Settle(key, io) => SettleContent(cfg, m, key, io);
      case Consider(s, o, io) => ConsiderContent(cfg, m, s, o, io);
      case Begin(s, io) => BeginContent(cfg, m, s, io);
      case Stream(s, text, io) => StreamContent(cfg, m, s, text, io);
      case Return(s, result, io) => ReturnContent(cfg, m, s, result, io);
      case Reply(s, io) => ReplyContent(cfg, m, s, io);
      case Crash => CrashContent(cfg, m);
      case _ =>
        OutsideIsQuiet(cfg, m, a);
        QuietKeeps(cfg, m, Step(cfg, m, a));
    }
  }

  lemma CrashContent(cfg: Config, m: Machine)
    requires ContentOk(cfg, m)
    ensures ContentOk(cfg, Step(cfg, m, Crash))
  {
    hide ContentOk;
    DropContent(cfg, m);
  }

  lemma {:induction false} RunContent(cfg: Config, m: Machine, actions: seq<Action>)
    requires MachineInv(cfg, m) && ContentOk(cfg, m)
    ensures ContentOk(cfg, Run(cfg, m, actions)) && MachineInv(cfg, Run(cfg, m, actions))
  {
    hide MachineInv;
    hide ContentOk;
    hide Step;
    if actions != [] {
      RunContent(cfg, m, actions[..|actions| - 1]);
      StepContent(cfg, Run(cfg, m, actions[..|actions| - 1]), actions[|actions| - 1]);
      StepKeeps(cfg, Run(cfg, m, actions[..|actions| - 1]), actions[|actions| - 1]);
    }
  }

  lemma FreshContent(cfg: Config)
    ensures MachineInv(cfg, FRESH_MACHINE) && ContentOk(cfg, FRESH_MACHINE)
  {
    FreshInv(cfg);
    hide MachineInv;
    assert forall k: string :: RunEvents([], k) == [];
    EmptyDeltas();
  }

  // ---- Theorems over all runs ----

  /** What a run put out is what its handler streamed and then a beginning of its reply, in order,
      and nothing else; once the run is completed or accepted it is all of it, and the terminal event
      says how the handler returned. A reply is only sent when nothing was streamed. */
  lemma OutputIsWhatTheHandlerSaid(cfg: Config, actions: seq<Action>, call: nat)
    requires var calls := Run(cfg, FRESH_MACHINE, actions).invocations;
             call < |calls| && calls[call].command && calls[call].outcome != Retryable
    ensures var m := Run(cfg, FRESH_MACHINE, actions);
            var c, events := m.invocations[call], RunEvents(m.history, m.invocations[call].key);
            var reply := if c.emits == 0 && c.result.Some? && c.result.value.Returned? then c.result.value.chunks else [];
            && c.said <= Deltas(events) <= c.said + reply && (c.emits == 0 ==> c.said == [])
            && (Completed(events) ==>
                  && c.result.Some? && c.result.value.Returned? && Deltas(events) == c.said + reply
                  && LastIs(events, if c.result.value.accepted then "run.accepted" else "run.completed")
                  && events[|events| - 1].payload.adapterRunId == c.result.value.adapterRunId)
  {
    hide Step;
    hide RunEvents;
    FreshContent(cfg);
    RunContent(cfg, FRESH_MACHINE, actions);
    hide MachineInv;
    assert CallSpoken(Run(cfg, FRESH_MACHINE, actions), call);
    hide Run;
  }

  /** A command that no handler was called for, or only in silent retryable failures, has put nothing
      out and is not completed. */
  lemma NoCallNoOutput(cfg: Config, actions: seq<Action>, key: string)
    requires Clean(Run(cfg, FRESH_MACHINE, actions).invocations, key)
    ensures var events := RunEvents(Run(cfg, FRESH_MACHINE, actions).history, key);
            Deltas(events) == [] && !Completed(events)
  {
    hide Step;
    hide RunEvents;
    FreshContent(cfg);
    RunContent(cfg, FRESH_MACHINE, actions);
    hide MachineInv;
    assert KeyQuiet(Run(cfg, FRESH_MACHINE, actions), key);
    hide Run;
  }

  /** A failed run carries the interruption, the refusal, or the failure its handler returned. */
  lemma FailureIsReported(cfg: Config, actions: seq<Action>, key: string)
    requires LastIs(RunEvents(Run(cfg, FRESH_MACHINE, actions).history, key), "run.failed")
    ensures var m := Run(cfg, FRESH_MACHINE, actions);
            var p := RunEvents(m.history, key)[|RunEvents(m.history, key)| - 1].payload;
            || (p.code == "execution.interrupted" && p.indeterminate && (p.stage == "restart" || p.stage == "journal"))
            || (p.code == "execution.expired" && p.stage == "queue" && !p.indeterminate)
            || (p.code == "console.execution_unsupported" && p.stage == "role" && !p.indeterminate)
            || (p.code == "unsupported_agent" && p.stage == "validation" && !p.indeterminate)
            || exists i :: && 0 <= i < |m.invocations| && m.invocations[i].key == key && m.invocations[i].result.Some?
                           && m.invocations[i].result.value.Failed? && m.invocations[i].result.value.payload == p
                           && (m.invocations[i].emits > 0 || !m.invocations[i].result.value.retryable)
  {
    hide Step;
    hide RunEvents;
    hide Run;
    hide MachineInv;
    hide ContentOk;
    FreshContent(cfg);
    RunContent(cfg, FRESH_MACHINE, actions);
    ReportedFailure(cfg, Run(cfg, FRESH_MACHINE, actions), key);
  }

  lemma ReportedFailure(cfg: Config, m: Machine, key: string)
    requires ContentOk(cfg, m) && LastIs(RunEvents(m.history, key), "run.failed")
    ensures var p := RunEvents(m.history, key)[|RunEvents(m.history, key)| - 1].payload;
            ServiceFailure(p) || exists i :: 0 <= i < |m.invocations| && FailedWith(m.invocations[i], key, p)
  {
    hide RunEvents;
    hide ServiceFailure;
    hide FailedWith;
    assert FailureTold(RunEvents(m.history, key), m.invocations, key);
  }

  /** Every event of a run is this Bot's answer to the request: to its sender, for its agent, in its
      session, under its request and run. */
  lemma EventsAnswerTheRequest(cfg: Config, actions: seq<Action>, key: string, i: nat)
    requires var m := Run(cfg, FRESH_MACHINE, actions);
             key in After(m.history).work && i < |RunEvents(m.history, key)|
    ensures var m := Run(cfg, FRESH_MACHINE, actions);
            var e, w := RunEvents(m.history, key)[i], After(m.history).work[key];
            && e.from == cfg.self && e.to == w.message.from && e.agentId == w.message.agentId
            && e.sessionKey == w.message.sessionKey && e.requestId == w.message.id && e.runId == w.runId && e.seqNo == i + 1
  {
    hide Step;
    FreshContent(cfg);
    RunContent(cfg, FRESH_MACHINE, actions);
    var m := Run(cfg, FRESH_MACHINE, actions);
    ContentFromSelf(cfg, m);
    hide ContentOk;
    hide Run;
    RunEventSequence(m.history, key);
    RunEventsFromSelf(cfg, m.history, key);
  }

  lemma {:induction false} RunEventsFromSelf(cfg: Config, cs: seq<Change>, key: string)
    requires FromSelf(cfg, cs)
    ensures forall i :: 0 <= i < |RunEvents(cs, key)| ==> RunEvents(cs, key)[i].from == cfg.self
  {
    if cs != [] {
      RunEventsFromSelf(cfg, cs[..|cs| - 1], key);
    }
  }
}
