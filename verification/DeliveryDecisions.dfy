/** Why a work was entered or ended without an event, over every run (internal/messaging/service.go). */
module DeliveryDecisions {
  import opened Protocol
  import opened Journal
  import opened DurableLog
  import opened DurableTheorems
  import opened Delivery
  import opened DeliveryInvariant
  import opened DeliverySteps
  import opened DeliveryTheorems
  import opened DeliveryEffects

  predicate ByDecision(cause: Cause) {
    cause == Admission || cause == RevokedSender || cause == ConsoleChat || cause == LateTransfer
  }

  /** The step considered this queued work, and what it saw asked for the change. */
  predicate Considered(cfg: Config, m: Machine, a: Action, c: Change) {
    && c.Move? && a.Consider? && WorkerAt(m, a.shard).Chosen?
    && var w := WorkerAt(m, a.shard).work;
    && w.key == c.workKey && w.state == Queued
    && if c.cause == Admission then c.to == Admitted && Enters(cfg, w.message.kind, a.outlook)
       else c.to == Done && EndsSilently(cfg, w.message.kind, a.outlook, c.cause)
  }

  predicate MovesConsidered(cfg: Config, m: Machine, a: Action, n: Machine) {
    forall i :: |m.history| <= i < |n.history| && n.history[i].Move? && ByDecision(n.history[i].cause) ==>
      Considered(cfg, m, a, n.history[i])
  }

  lemma OneEventMoves(cfg: Config, m: Machine, a: Action, n: Machine, w: Work, kind: string, payload: Payload, to: WorkState, io: Io)
    requires EventWritten(cfg, m, n, w, kind, payload, to, io) || NothingWritten(m, n)
    ensures MovesConsidered(cfg, m, a, n)
  {
  }

  lemma StateMoves(cfg: Config, m: Machine, a: Action, n: Machine, w: Work, to: WorkState, cause: Cause)
    requires StateWritten(m, n, w, to, cause) && (ByDecision(cause) ==> Considered(cfg, m, a, Move(w.key, to, cause)))
    ensures MovesConsidered(cfg, m, a, n)
  {
    hide Considered;
  }

  lemma NothingMoves(cfg: Config, m: Machine, a: Action, n: Machine)
    requires n.history == m.history
    ensures MovesConsidered(cfg, m, a, n)
  {
  }

  lemma ConsiderMoves(cfg: Config, m: Machine, s: nat, o: Outlook, io: Io)
    requires MachineInv(cfg, m) && WorkerAt(m, s).Chosen?
    ensures MovesConsidered(cfg, m, Consider(s, o, io), Step(cfg, m, Consider(s, o, io)))
  {
    hide MachineInv;
    hide Step;
    hide Enters;
    hide EndsSilently;
    hide Rejects;
    hide Waits;
    hide EventWritten;
    hide StateWritten;
    hide Stands;
    hide IsCommand;
    hide MovesConsidered;
    hide Owns;
    hide Inv;
    hide MayWrite;
    var n, w := Step(cfg, m, Consider(s, o, io)), WorkerAt(m, s).work;
    var a := Consider(s, o, io);
    if w.state == Admitted {
      AdmittedOutcome(cfg, m, s, o, io);
      if n.history == m.history {
        NothingMoves(cfg, m, a, n);
      } else if IsCommand(w.message.kind) {
        OneEventMoves(cfg, m, a, n, w, "run.failed", Payload("", "", "execution.interrupted", "journal", true, ""), Done, io);
      } else {
        StateMoves(cfg, m, a, n, w, Queued, Interruption);
      }
    } else {
      WorkerHolds(cfg, m, s);
      QueuedOutcome(cfg, m, s, o, io);
      Decides(cfg, w, o);
      if n.history == m.history {
        NothingMoves(cfg, m, a, n);
      } else {
        match Decide(cfg, w, o)
        case Wait =>
        case Retire(cause) => StateMoves(cfg, m, a, n, w, Done, cause);
        case Reject(p) =>
          RejectionShape(cfg, w, o);
          OneEventMoves(cfg, m, a, n, w, "run.failed", p, Done, io);
        case Admit => StateMoves(cfg, m, a, n, w, Admitted, Admission);
      }
    }
  }

  lemma SettleMoves(cfg: Config, m: Machine, key: string, io: Io)
    requires MachineInv(cfg, m) && m.phase.Starting? && key in m.phase.todo
    ensures MovesConsidered(cfg, m, Settle(key, io), Step(cfg, m, Settle(key, io)))
  {
    hide MachineInv;
    hide Step;
    hide IsCommand;
    hide EventWritten;
    hide StateWritten;
    hide MovesConsidered;
    SettleOutcome(cfg, m, key, io);
    var n, w, a := Step(cfg, m, Settle(key, io)), m.index.work[key], Settle(key, io);
    if n.history == m.history {
      NothingMoves(cfg, m, a, n);
    } else if IsCommand(w.message.kind) {
      OneEventMoves(cfg, m, a, n, w, "run.failed", Payload("", "", "execution.interrupted", "restart", true, ""), Done, io);
    } else {
      StateMoves(cfg, m, a, n, w, Queued, Interruption);
    }
  }

  lemma ReturnMoves(cfg: Config, m: Machine, s: nat, result: Result, io: Io)
    requires MachineInv(cfg, m) && WorkerAt(m, s).Handling?
    ensures MovesConsidered(cfg, m, Return(s, result, io), Step(cfg, m, Return(s, result, io)))
  {
    hide MachineInv;
    hide Step;
    hide IsCommand;
    hide EventWritten;
    hide StateWritten;
    hide Stands;
    hide TriesAgain;
    hide MovesConsidered;
    ReturnOutcome(cfg, m, s, result, io);
    var n, w, a := Step(cfg, m, Return(s, result, io)), WorkerAt(m, s).work, Return(s, result, io);
    var again := TriesAgain(w.message.kind, WorkerAt(m, s).streamed, result);
    if n.history == m.history {
      NothingMoves(cfg, m, a, n);
    } else if again || !IsCommand(w.message.kind) {
      StateMoves(cfg, m, a, n, w, if again then Queued else Done, if again then Retry else Handled);
    } else {
      OneEventMoves(cfg, m, a, n, w, "run.failed", result.payload, Done, io);
    }
  }

  lemma BeginMoves(cfg: Config, m: Machine, s: nat, io: Io)
    requires MachineInv(cfg, m) && WorkerAt(m, s).Entered?
    ensures MovesConsidered(cfg, m, Begin(s, io), Step(cfg, m, Begin(s, io)))
  {
    hide MachineInv;
    hide Step;
    hide IsCommand;
    hide EventWritten;
    hide Stands;
    hide MovesConsidered;
    BeginOutcome(cfg, m, s, io);
    var n, w := Step(cfg, m, Begin(s, io)), WorkerAt(m, s).work;
    OneEventMoves(cfg, m, Begin(s, io), n, w, "run.started", Payload("", "", "", "", false, ""), Admitted, io);
  }

  lemma StreamMoves(cfg: Config, m: Machine, s: nat, text: string, io: Io)
    requires MachineInv(cfg, m) && WorkerAt(m, s).Handling? && IsCommand(WorkerAt(m, s).work.message.kind)
    ensures MovesConsidered(cfg, m, Stream(s, text, io), Step(cfg, m, Stream(s, text, io)))
  {
    hide MachineInv;
    hide Step;
    hide IsCommand;
    hide EventWritten;
    hide Stands;
    hide MovesConsidered;
    StreamOutcome(cfg, m, s, text, io);
    var n, w := Step(cfg, m, Stream(s, text, io)), WorkerAt(m, s).work;
    OneEventMoves(cfg, m, Stream(s, text, io), n, w, "run.output.delta", Payload(text, "answer", "", "", false, ""), Admitted, io);
  }

  lemma ReplyMoves(cfg: Config, m: Machine, s: nat, io: Io)
    requires MachineInv(cfg, m) && WorkerAt(m, s).Replying?
    ensures MovesConsidered(cfg, m, Reply(s, io), Step(cfg, m, Reply(s, io)))
  {
    hide MachineInv;
    hide Step;
    hide EventWritten;
    hide Stands;
    hide MovesConsidered;
    ReplyOutcome(cfg, m, s, io);
    var n, at, a := Step(cfg, m, Reply(s, io)), WorkerAt(m, s), Reply(s, io);
    if at.chunks == [] {
      OneEventMoves(cfg, m, a, n, at.work, at.kind, Payload("", "", "", "", false, at.adapterRunId), Done, io);
    } else {
      OneEventMoves(cfg, m, a, n, at.work, "run.output.delta", Payload(at.chunks[0], "answer", "", "", false, ""), Admitted, io);
    }
  }

  lemma OutsideMoves(cfg: Config, m: Machine, a: Action)
    requires a.Boot? || a.Serve? || a.Crash? || a.Publish? || a.Receive? || a.TakePending? || a.FlushBegin? || a.FlushEnd? || a.Pick?
    ensures MovesConsidered(cfg, m, a, Step(cfg, m, a))
  {
    hide ApplyRecord;
    hide Replay;
    hide FirstOpen;
    hide MakesWork;
    hide OverCapacity;
    hide NeedsRun;
    hide Previous;
    hide IsToken;
    hide WorkerAt;
  }

  lemma StepMoves(cfg: Config, m: Machine, a: Action)
    requires MachineInv(cfg, m)
    ensures MovesConsidered(cfg, m, a, Step(cfg, m, a))
  {
    hide MachineInv;
    hide Step;
    hide MovesConsidered;
    if !Enabled(m, a) {
      DisabledStays(cfg, m, a);
      NothingMoves(cfg, m, a, m);
    } else {
      match a
      case Settle(key, io) => SettleMoves(cfg, m, key, io);
      case Consider(s, o, io) => ConsiderMoves(cfg, m, s, o, io);
      case Return(s, result, io) => ReturnMoves(cfg, m, s, result, io);
      case Begin(s, io) => BeginMoves(cfg, m, s, io);
      case Stream(s, text, io) => StreamMoves(cfg, m, s, text, io);
      case Reply(s, io) => ReplyMoves(cfg, m, s, io);
      case _ => OutsideMoves(cfg, m, a);
    }
  }

  /** Every admission of a work, and every end without an event, over every run: a worker considered
      the queued work and what it saw then asked for exactly that. */
  lemma {:induction false} DecidedAsSeen(cfg: Config, actions: seq<Action>, i: nat)
    requires var h := Run(cfg, FRESH_MACHINE, actions).history; i < |h| && h[i].Move? && ByDecision(h[i].cause)
    ensures exists j :: && 0 <= j < |actions| && |Run(cfg, FRESH_MACHINE, actions[..j]).history| == i
                        && Considered(cfg, Run(cfg, FRESH_MACHINE, actions[..j]), actions[j],
                                      Run(cfg, FRESH_MACHINE, actions).history[i])
  {
    hide Step;
    hide MachineInv;
    hide Considered;
    hide MovesConsidered;
    var last := |actions| - 1;
    var before := Run(cfg, FRESH_MACHINE, actions[..last]);
    var c := Run(cfg, FRESH_MACHINE, actions).history[i];
    FreshInv(cfg);
    RunKeeps(cfg, FRESH_MACHINE, actions[..last]);
    StepGrows(cfg, before, actions[last]);
    if i < |before.history| {
      DecidedAsSeen(cfg, actions[..last], i);
      var j :| 0 <= j < last && |Run(cfg, FRESH_MACHINE, actions[..last][..j]).history| == i
               && Considered(cfg, Run(cfg, FRESH_MACHINE, actions[..last][..j]), actions[..last][j], c);
      assert actions[..last][..j] == actions[..j];
    } else {
      StepMoves(cfg, before, actions[last]);
      assert Considered(cfg, before, actions[last], c) by {
        MovedNow(cfg, before, actions[last], Step(cfg, before, actions[last]), i);
      }
    }
  }

  lemma MovedNow(cfg: Config, m: Machine, a: Action, n: Machine, i: nat)
    requires MovesConsidered(cfg, m, a, n) && |m.history| <= i < |n.history| && n.history[i].Move? && ByDecision(n.history[i].cause)
    ensures Considered(cfg, m, a, n.history[i])
  {
  }

  /** Over every run a command that is done has a terminal event as its last one, or it was retired
      because a worker saw that its sender is revoked, or that it is chat to a Console; never both. */
  lemma DoneCommandEnds(cfg: Config, actions: seq<Action>, key: string)
    requires var m := Run(cfg, FRESH_MACHINE, actions);
             key in After(m.history).work && After(m.history).work[key].state == Done && IsCommand(After(m.history).work[key].message.kind)
    ensures var h := Run(cfg, FRESH_MACHINE, actions).history;
            if EndedByEvent(h, key) then !Retired(h, key)
            else
              exists i, j :: && 0 <= i < |h| && Retirement(h[i], key) && (h[i].cause == RevokedSender || h[i].cause == ConsoleChat)
                             && 0 <= j < |actions| && Considered(cfg, Run(cfg, FRESH_MACHINE, actions[..j]), actions[j], h[i])
  {
    hide Step;
    hide Considered;
    hide EndedByEvent;
    hide IsCommand;
    hide MachineInv;
    hide After;
    hide Legal;
    FreshInv(cfg);
    RunKeeps(cfg, FRESH_MACHINE, actions);
    var m := Run(cfg, FRESH_MACHINE, actions);
    LegalRun(cfg, m);
    DoneByEventOrRetired(m.history, key);
    if !EndedByEvent(m.history, key) {
      var i :| 0 <= i < |m.history| && Retirement(m.history[i], key);
      LegalCause(m.history, i);
      DecidedAsSeen(cfg, actions, i);
    }
  }

  lemma LegalRun(cfg: Config, m: Machine)
    requires MachineInv(cfg, m)
    ensures Legal(m.history)
  {
  }

  lemma LegalCause(cs: seq<Change>, i: nat)
    requires Legal(cs) && i < |cs| && cs[i].Move? && cs[i].to == Done
    requires cs[i].workKey in After(cs).work && IsCommand(After(cs).work[cs[i].workKey].message.kind)
    ensures cs[i].cause == RevokedSender || cs[i].cause == ConsoleChat
  {
    hide After;
    hide Legal;
    hide IsCommand;
    RetiredCause(cs, i);
    MessageFixed(cs, i, cs[i].workKey);
  }
}
