/** Commands come through: from the queue to the terminal event when nothing stands in the way
    (internal/messaging/service.go). */
module DeliveryProgress {
  import opened Wrappers
  import opened Protocol
  import opened Journal
  import opened DurableLog
  import opened DurableTheorems
  import opened Delivery
  import opened DeliveryInvariant
  import opened DeliverySteps
  import opened DeliveryTheorems
  import opened DeliveryEffects
  import opened DeliveryContent

  /** The journal takes all of these appends: none fails, and the generated IDs are new and distinct. */
  predicate Fresh(m: Machine, ios: seq<Io>) {
    && (forall i :: 0 <= i < |ios| ==> ios[i].ok && ios[i].id != "" && ios[i].id !in m.index.publications)
    && (forall i, j :: 0 <= i < j < |ios| ==> ios[i].id != ios[j].id)
  }

  lemma StaysFresh(m: Machine, n: Machine, ios: seq<Io>)
    requires ios != [] && Fresh(m, ios) && n.index.publications.Keys == m.index.publications.Keys + {ios[0].id}
    ensures Fresh(n, ios[1..])
  {
    forall i | 0 <= i < |ios[1..]| ensures ios[1..][i].id != ios[0].id {
      assert ios[1..][i] == ios[i + 1];
    }
  }

  /** The reply is sent piece by piece, one append for each. */
  function SendAll(cfg: Config, m: Machine, s: nat, ios: seq<Io>): Machine
    decreases |ios|
  {
    if ios == [] then m else SendAll(cfg, Step(cfg, m, Reply(s, ios[0])), s, ios[1..])
  }

  /** The work is done, with these texts more and this event at the end. */
  predicate Concluded(m: Machine, n: Machine, s: nat, w: Work, texts: seq<string>, kind: string, adapterRunId: string) {
    && w.key in n.index.work && n.index.work[w.key].state == Done && WorkerAt(n, s).Idle? && n.phase.Serving?
    && var before, after := RunEvents(m.history, w.key), RunEvents(n.history, w.key);
    && Deltas(after) == Deltas(before) + texts && LastIs(after, kind)
    && after[|after| - 1].payload == Payload("", "", "", "", false, adapterRunId)
    && n.invocations == m.invocations
  }

  lemma PieceGoesOut(cfg: Config, m: Machine, s: nat, ios: seq<Io>)
    requires MachineInv(cfg, m) && WorkerAt(m, s).Replying? && WorkerAt(m, s).work.runId != ""
    requires WorkerAt(m, s).chunks != [] && ios != [] && Fresh(m, ios)
    ensures var n, at := Step(cfg, m, Reply(s, ios[0])), WorkerAt(m, s);
            && MachineInv(cfg, n) && Fresh(n, ios[1..]) && CallsStay(m, n)
            && WorkerAt(n, s) == at.(work := at.work.(seqNo := at.work.seqNo + 1), chunks := at.chunks[1..])
            && Deltas(RunEvents(n.history, at.work.key)) == Deltas(RunEvents(m.history, at.work.key)) + [at.chunks[0]]
  {
    hide MachineInv;
    hide Step;
    hide IsEvent;
    hide RunEvents;
    hide Deltas;
    var n, at := Step(cfg, m, Reply(s, ios[0])), WorkerAt(m, s);
    ReplyOutcome(cfg, m, s, ios[0]);
    StepKeeps(cfg, m, Reply(s, ios[0]));
    StaysFresh(m, n, ios);
    hide Fresh;
    DeltaTold(cfg, m, n, at.work, at.chunks[0], ios[0]);
  }

  lemma DeltaTold(cfg: Config, m: Machine, n: Machine, w: Work, text: string, io: Io)
    requires EventWritten(cfg, m, n, w, "run.output.delta", Payload(text, "answer", "", "", false, ""), Admitted, io)
    ensures Deltas(RunEvents(n.history, w.key)) == Deltas(RunEvents(m.history, w.key)) + [text]
  {
    hide RunEvents;
    var c := n.history[|m.history|];
    assert n.history == m.history + [c];
    EventAppend(m.history, c, w.key);
    DeltasAppend(RunEvents(m.history, w.key), c.event);
    hide Deltas;
  }

  lemma LastTold(cfg: Config, m: Machine, n: Machine, w: Work, kind: string, payload: Payload, io: Io)
    requires EventWritten(cfg, m, n, w, kind, payload, Done, io) && kind != "run.output.delta"
    ensures var before, after := RunEvents(m.history, w.key), RunEvents(n.history, w.key);
            Deltas(after) == Deltas(before) && LastIs(after, kind) && after[|after| - 1].payload == payload
  {
    hide RunEvents;
    var c := n.history[|m.history|];
    assert n.history == m.history + [c];
    EventAppend(m.history, c, w.key);
    DeltasAppend(RunEvents(m.history, w.key), c.event);
    hide Deltas;
  }

  lemma TerminalGoesOut(cfg: Config, m: Machine, s: nat, io: Io)
    requires MachineInv(cfg, m) && WorkerAt(m, s).Replying? && WorkerAt(m, s).work.runId != ""
    requires WorkerAt(m, s).chunks == [] && Fresh(m, [io])
    ensures var n, at := Step(cfg, m, Reply(s, io)), WorkerAt(m, s);
            MachineInv(cfg, n) && Concluded(m, n, s, at.work, [], at.kind, at.adapterRunId)
  {
    hide MachineInv;
    hide Step;
    hide IsEvent;
    hide RunEvents;
    hide Deltas;
    hide IsHead;
    var n, at := Step(cfg, m, Reply(s, io)), WorkerAt(m, s);
    assert [io][0] == io;
    ReplyOutcome(cfg, m, s, io);
    StepKeeps(cfg, m, Reply(s, io));
    RepliesSoundly(cfg, m, s);
    LastTold(cfg, m, n, at.work, at.kind, Payload("", "", "", "", false, at.adapterRunId), io);
    assert Deltas(RunEvents(m.history, at.work.key)) + [] == Deltas(RunEvents(m.history, at.work.key));
  }

  lemma RepliesSoundly(cfg: Config, m: Machine, s: nat)
    requires MachineInv(cfg, m) && WorkerAt(m, s).Replying?
    ensures WorkerAt(m, s).kind == "run.completed" || WorkerAt(m, s).kind == "run.accepted"
    ensures m.phase.Serving? && s < |m.workers|
  {
    hide MachineInv;
    hide IsHead;
    hide Inv;
    WorkerHolds(cfg, m, s);
  }

  /** A reply comes through: with appends that succeed, all its pieces go out in order, then the
      terminal event, and the command is done. */
  lemma {:induction false} ReplyConcludes(cfg: Config, m: Machine, s: nat, ios: seq<Io>)
    requires MachineInv(cfg, m) && WorkerAt(m, s).Replying? && WorkerAt(m, s).work.runId != ""
    requires |ios| == |WorkerAt(m, s).chunks| + 1 && Fresh(m, ios)
    ensures var n, at := SendAll(cfg, m, s, ios), WorkerAt(m, s);
            MachineInv(cfg, n) && Concluded(m, n, s, at.work, at.chunks, at.kind, at.adapterRunId)
    decreases |ios|
  {
    hide MachineInv;
    hide Step;
    hide Fresh;
    hide RunEvents;
    hide Deltas;
    hide LastIs;
    var at := WorkerAt(m, s);
    if at.chunks == [] {
      assert ios == [ios[0]] && ios[1..] == [];
      TerminalGoesOut(cfg, m, s, ios[0]);
    } else {
      PieceGoesOut(cfg, m, s, ios);
      ReplyConcludes(cfg, Step(cfg, m, Reply(s, ios[0])), s, ios[1..]);
      assert at.chunks == [at.chunks[0]] + at.chunks[1..];
      assert Deltas(RunEvents(m.history, at.work.key)) + [at.chunks[0]] + at.chunks[1..] == Deltas(RunEvents(m.history, at.work.key)) + at.chunks;
    }
  }

  // ---- From the queue to the handler ----

  /** The worker is free and this command is the first of its queue that is not done. */
  predicate NextInLine(m: Machine, s: nat, w: Work) {
    && m.phase.Serving? && s < WORKER_COUNT && WorkerAt(m, s).Idle? && w.key in m.index.work && m.index.work[w.key] == w
    && w.state == Queued && exists i :: 0 <= i < |m.index.queues[s]| && m.index.queues[s][i] == w.key && DoneBefore(m.index, m.index.queues[s], i)
  }

  lemma PicksIt(cfg: Config, m: Machine, s: nat, w: Work)
    requires MachineInv(cfg, m) && NextInLine(m, s, w)
    ensures var n := Step(cfg, m, Pick(s));
            MachineInv(cfg, n) && WorkerAt(n, s) == Chosen(w) && NothingWritten(m, n) && CallsStay(m, n)
  {
    hide MachineInv;
    hide Step;
    PickOutcome(cfg, m, s);
    StepKeeps(cfg, m, Pick(s));
    var queue := m.index.queues[s];
    var i :| 0 <= i < |queue| && queue[i] == w.key && DoneBefore(m.index, queue, i);
    assert !DoneBefore(m.index, queue, |queue|);
    var j :| && 0 <= j < |queue| && DoneBefore(m.index, queue, j)
             && queue[j] in m.index.work && m.index.work[queue[j]].state != Done
             && Stands(m, Step(cfg, m, Pick(s)), s, Chosen(m.index.work[queue[j]]));
    assert i == j;
  }

  lemma EntersIt(cfg: Config, m: Machine, s: nat, w: Work, o: Outlook, io: Io)
    requires MachineInv(cfg, m) && WorkerAt(m, s) == Chosen(w) && w.state == Queued && Enters(cfg, w.message.kind, o) && io.ok
    ensures var n := Step(cfg, m, Consider(s, o, io));
            && MachineInv(cfg, n) && WorkerAt(n, s) == Entered(w.(state := Admitted)) && StateWritten(m, n, w, Admitted, Admission)
            && CallsStay(m, n)
  {
    hide MachineInv;
    hide Step;
    hide Enters;
    hide EndsSilently;
    hide Rejects;
    hide Waits;
    QueuedOutcome(cfg, m, s, o, io);
    StepKeeps(cfg, m, Consider(s, o, io));
    hide StateWritten;
    ChosenServes(cfg, m, s);
  }

  lemma ChosenServes(cfg: Config, m: Machine, s: nat)
    requires !WorkerAt(m, s).Idle?
    ensures m.phase.Serving? && s < |m.workers|
  {
  }

  /** The handler is called for the command, at most one event later, and nothing is said yet. */
  predicate Called(m: Machine, n: Machine, s: nat, w: Work) {
    && n.invocations == m.invocations + [Invocation(w.key, true, 0, Running, [], None)]
    && WorkerAt(n, s).Handling? && WorkerAt(n, s) == Handling(WorkerAt(n, s).work, false, |m.invocations|)
    && WorkerAt(n, s).work.key == w.key && WorkerAt(n, s).work.message == w.message && WorkerAt(n, s).work.runId == w.runId
    && Deltas(RunEvents(n.history, w.key)) == Deltas(RunEvents(m.history, w.key))
  }

  lemma StartTold(cfg: Config, m: Machine, n: Machine, w: Work, io: Io)
    requires EventWritten(cfg, m, n, w, "run.started", Payload("", "", "", "", false, ""), Admitted, io)
    ensures Deltas(RunEvents(n.history, w.key)) == Deltas(RunEvents(m.history, w.key))
  {
    hide RunEvents;
    var c := n.history[|m.history|];
    assert n.history == m.history + [c];
    EventAppend(m.history, c, w.key);
    DeltasAppend(RunEvents(m.history, w.key), c.event);
    hide Deltas;
  }

  lemma BeginsIt(cfg: Config, m: Machine, s: nat, w: Work, ios: seq<Io>)
    requires MachineInv(cfg, m) && WorkerAt(m, s) == Entered(w) && IsCommand(w.message.kind) && w.runId != ""
    requires ios != [] && Fresh(m, ios)
    ensures var n := Step(cfg, m, Begin(s, ios[0])); MachineInv(cfg, n) && Called(m, n, s, w) && Fresh(n, ios[1..])
  {
    hide MachineInv;
    hide Step;
    hide IsEvent;
    hide RunEvents;
    hide Deltas;
    hide IsCommand;
    var n := Step(cfg, m, Begin(s, ios[0]));
    BeginOutcome(cfg, m, s, ios[0]);
    StepKeeps(cfg, m, Begin(s, ios[0]));
    ChosenServes(cfg, m, s);
    if w.seqNo == 0 {
      StaysFresh(m, n, ios);
      StartTold(cfg, m, n, w, ios[0]);
    } else {
      assert forall i :: 0 <= i < |ios[1..]| ==> ios[1..][i] == ios[i + 1];
    }
  }

  lemma RepliesTo(cfg: Config, m: Machine, s: nat, result: Result, io: Io)
    requires MachineInv(cfg, m) && WorkerAt(m, s).Handling? && !WorkerAt(m, s).streamed && IsCommand(WorkerAt(m, s).work.message.kind)
    requires result.Returned?
    ensures var n, at := Step(cfg, m, Return(s, result, io)), WorkerAt(m, s);
            && MachineInv(cfg, n) && NothingWritten(m, n) && at.call < |m.invocations|
            && n.invocations == m.invocations[at.call := m.invocations[at.call].(outcome := Finished, result := Some(result))]
            && WorkerAt(n, s) == Replying(at.work, result.chunks, if result.accepted then "run.accepted" else "run.completed",
                                          result.adapterRunId, at.call)
  {
    hide MachineInv;
    hide Step;
    hide IsCommand;
    ReturnOutcome(cfg, m, s, result, io);
    StepKeeps(cfg, m, Return(s, result, io));
    ChosenServes(cfg, m, s);
  }

  /** What the service does for one command whose handler returns without streaming. */
  function Serviced(cfg: Config, m: Machine, s: nat, o: Outlook, result: Result, ios: seq<Io>): Machine
    requires |ios| >= 2
  {
    var chosen := Step(cfg, m, Pick(s));
    var entered := Step(cfg, chosen, Consider(s, o, ios[0]));
    var called := Step(cfg, entered, Begin(s, ios[1]));
    SendAll(cfg, Step(cfg, called, Return(s, result, ios[0])), s, ios[2..])
  }

  /** A command comes through: the next in line that may be entered is admitted, its handler is called
      exactly once, its whole reply goes out in order, then the terminal event, and it is done, when
      the appends succeed. */
  lemma CommandConcludes(cfg: Config, m: Machine, s: nat, w: Work, o: Outlook, result: Result, ios: seq<Io>)
    requires MachineInv(cfg, m) && NextInLine(m, s, w) && IsCommand(w.message.kind) && w.runId != ""
    requires Enters(cfg, w.message.kind, o) && result.Returned? && |ios| == |result.chunks| + 3 && Fresh(m, ios)
    ensures var n := Serviced(cfg, m, s, o, result, ios);
            && MachineInv(cfg, n) && w.key in n.index.work && n.index.work[w.key].state == Done && WorkerAt(n, s).Idle?
            && n.invocations == m.invocations + [Invocation(w.key, true, 0, Finished, [], Some(result))]
            && var before, after := RunEvents(m.history, w.key), RunEvents(n.history, w.key);
            && Deltas(after) == Deltas(before) + result.chunks && LastIs(after, if result.accepted then "run.accepted" else "run.completed")
            && after[|after| - 1].payload.adapterRunId == result.adapterRunId
  {
    hide MachineInv;
    hide Step;
    hide IsCommand;
    hide Enters;
    hide NextInLine;
    hide RunEvents;
    hide Deltas;
    hide LastIs;
    var chosen := Step(cfg, m, Pick(s));
    PicksIt(cfg, m, s, w);
    WaitsInLine(m, s, w);
    var entered := Step(cfg, chosen, Consider(s, o, ios[0]));
    assert ios[0].ok;
    EntersIt(cfg, chosen, s, w, o, ios[0]);
    MoveTold(chosen, entered, w);
    FreshTail(m, entered, ios);
    assert ios[1..][0] == ios[1] && ios[1..][1..] == ios[2..];
    hide Fresh;
    BeginsIt(cfg, entered, s, w.(state := Admitted), ios[1..]);
    var called := Step(cfg, entered, Begin(s, ios[1]));
    RepliesTo(cfg, called, s, result, ios[0]);
    var replying := Step(cfg, called, Return(s, result, ios[0]));
    SameFresh(called, replying, ios[2..]);
    ReplyConcludes(cfg, replying, s, ios[2..]);
  }

  lemma WaitsInLine(m: Machine, s: nat, w: Work)
    requires NextInLine(m, s, w)
    ensures w.state == Queued
  {
  }

  lemma MoveTold(m: Machine, n: Machine, w: Work)
    requires StateWritten(m, n, w, Admitted, Admission)
    ensures RunEvents(n.history, w.key) == RunEvents(m.history, w.key)
  {
    EventAppend(m.history, Move(w.key, Admitted, Admission), w.key);
  }

  lemma FreshTail(m: Machine, n: Machine, ios: seq<Io>)
    requires ios != [] && Fresh(m, ios) && n.index.publications == m.index.publications
    ensures Fresh(n, ios[1..])
  {
    assert forall i :: 0 <= i < |ios[1..]| ==> ios[1..][i] == ios[i + 1];
  }

  lemma SameFresh(m: Machine, n: Machine, ios: seq<Io>)
    requires Fresh(m, ios) && n.index == m.index
    ensures Fresh(n, ios)
  {
  }
}
