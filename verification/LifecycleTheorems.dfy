/** Guarantees of the Bot lifecycle over every interleaving. */
module LifecycleTheorems {
  import opened Lifecycle

  // ---- Every step keeps the invariant ----

  lemma StartWorkerAppears(b: Bot, t: Bot)
    requires Inv(b) && AtRest(b.state) && !b.desired.archived
    requires t.state == Starting && t.workers == b.workers + [Load] && t.runtime == b.runtime && t.loans == b.loans && t.runtimes == b.runtimes
    ensures ByState(t)
  {
    assert OnlyWorker(t.workers, |b.workers|) && IsStart(t.workers[|b.workers|]) && StartOk(t, t.workers[|b.workers|]);
  }

  lemma ResumeKeeps(b: Bot)
    requires Inv(b)
    ensures Inv(Resume(b))
  {
    if !b.serving && b.desired.running && !b.desired.archived {
      StartWorkerAppears(b, Resume(b));
    }
  }

  lemma AcceptKeeps(b: Bot, op: Operation, ok: bool)
    requires Inv(b)
    ensures Inv(Accept(b, op, ok))
  {
    var t := Accept(b, op, ok);
    SameBody(b, t);
    hide ByState;
  }

  /** The lock, the intent and the flags play no part in what the state says about the rest. */
  lemma SameBody(b: Bot, t: Bot)
    requires ByState(b) && t.state == b.state && t.runtime == b.runtime && t.loans == b.loans && t.workers == b.workers && t.runtimes == b.runtimes
    requires t.phase == b.phase
    ensures ByState(t)
  {
    if b.state == Starting {
      var k :| 0 <= k < |b.workers| && OnlyWorker(b.workers, k) && IsStart(b.workers[k]) && StartOk(b, b.workers[k]);
      assert OnlyWorker(t.workers, k) && IsStart(t.workers[k]) && StartOk(t, t.workers[k]);
    } else if b.state == Stopping && !Winding(b) {
      var k :| 0 <= k < |b.workers| && OnlyWorker(b.workers, k) && IsStop(b.workers[k]) && StopOk(b, b.workers[k]);
      assert OnlyWorker(t.workers, k) && IsStop(t.workers[k]) && StopOk(t, t.workers[k]);
    }
  }

  lemma ActKeeps(b: Bot)
    requires Inv(b)
    ensures Inv(Act(b))
  {
    var t := Act(b);
    if b.lock.Accepted? {
      if b.lock.op.StartOp? {
        StartWorkerAppears(b, t);
      } else if b.lock.op.StopOp? && b.state == Stopping {
        SameBody(b, t);
      } else if b.lock.op.StopOp? && b.runtime.Some? {
        var k := |b.workers|;
        assert OnlyWorker(t.workers, k) && IsStop(t.workers[k]) && StopOk(t, t.workers[k]);
      }
    }
  }

  /** A worker that is not gone is the only one, and its kind is the Bot's state. */
  lemma TheWorker(b: Bot, i: nat)
    requires Inv(b) && i < |b.workers| && !b.workers[i].Gone?
    ensures OnlyWorker(b.workers, i)
    ensures b.state == Starting || b.state == Stopping
    ensures b.state == Starting ==> IsStart(b.workers[i]) && StartOk(b, b.workers[i])
    ensures b.state == Stopping ==> !Winding(b) && IsStop(b.workers[i]) && b.runtime.Some? && StopOk(b, b.workers[i])
  {
  }

  lemma StartWorkKeeps(b: Bot, i: nat, ok: bool)
    requires Inv(b) && i < |b.workers| && b.state == Starting && OnlyWorker(b.workers, i) && IsStart(b.workers[i]) && StartOk(b, b.workers[i])
    ensures ByState(Work(b, i, ok)) && ClosedOnce(Work(b, i, ok).runtimes)
  {
    var t := Work(b, i, ok);
    assert OnlyWorker(t.workers, i);
    if t.state == Starting {
      assert IsStart(t.workers[i]) && StartOk(t, t.workers[i]);
    }
  }

  lemma StopWorkKeeps(b: Bot, i: nat, ok: bool)
    requires Inv(b) && i < |b.workers| && b.state == Stopping && OnlyWorker(b.workers, i) && !Winding(b)
    requires IsStop(b.workers[i]) && b.runtime.Some? && StopOk(b, b.workers[i])
    ensures ByState(Work(b, i, ok)) && ClosedOnce(Work(b, i, ok).runtimes)
  {
    var t := Work(b, i, ok);
    assert OnlyWorker(t.workers, i);
    if t.state == Stopping {
      assert IsStop(t.workers[i]) && StopOk(t, t.workers[i]);
    }
  }

  lemma WorkKeeps(b: Bot, i: nat, ok: bool)
    requires Inv(b) && i < |b.workers|
    ensures Inv(Work(b, i, ok))
  {
    hide ByState;
    hide StartOk;
    hide StopOk;
    if !b.workers[i].Gone? {
      TheWorker(b, i);
      if b.state == Starting {
        StartWorkKeeps(b, i, ok);
      } else {
        StopWorkKeeps(b, i, ok);
      }
      assert !PastWait(b);
    }
  }

  lemma AcquireKeeps(b: Bot, write: bool, ok: bool)
    requires Inv(b)
    ensures Inv(Acquire(b, write, ok)) && Inv(Info(b))
  {
    if !Lends(b) {
      SameBody(b, Acquire(b, write, ok));
    }
  }

  lemma GiveBackKeeps(b: Bot, loan: nat)
    requires Inv(b)
    ensures Inv(GiveBack(b, loan))
  {
    if loan < |b.loans| {
      FewerLoans(b, GiveBack(b, loan), loan);
    }
    hide ByState;
  }

  /** A reference that is given back takes nothing from what the state says. */
  lemma FewerLoans(b: Bot, t: Bot, loan: nat)
    requires ByState(b) && loan < |b.loans| && t == b.(loans := b.loans[loan := b.loans[loan].(active := false)])
    ensures ByState(t)
  {
    assert Unborrowed(b.loans) ==> Unborrowed(t.loans);
    if b.runtime.Some? {
      assert LoansOn(b.loans, b.runtime.value) ==> LoansOn(t.loans, b.runtime.value);
    }
    hide Unborrowed;
    hide LoansOn;
    if b.state == Starting {
      var k :| 0 <= k < |b.workers| && OnlyWorker(b.workers, k) && IsStart(b.workers[k]) && StartOk(b, b.workers[k]);
      assert OnlyWorker(t.workers, k) && IsStart(t.workers[k]) && StartOk(t, t.workers[k]);
    } else if b.state == Stopping && !Winding(b) {
      var k :| 0 <= k < |b.workers| && OnlyWorker(b.workers, k) && IsStop(b.workers[k]) && StopOk(b, b.workers[k]);
      assert OnlyWorker(t.workers, k) && IsStop(t.workers[k]) && StopOk(t, t.workers[k]);
    }
  }

  lemma CloseReaderKeeps(b: Bot)
    requires Inv(b)
    ensures Inv(CloseReader(b))
  {
    SameBody(b, CloseReader(b));
    hide ByState;
  }

  lemma ShutdownKeeps(b: Bot)
    requires Inv(b)
    ensures Inv(Shutdown(b))
  {
    if b.phase.NotAsked? || b.phase.Asked? || b.phase.Joined? {
      EarlyShutdown(b);
    } else {
      LateShutdown(b);
    }
    hide Inv;
    hide Shutdown;
  }

  /** From the wait for the references on, Shutdown holds the runtime. */
  lemma LateShutdown(b: Bot)
    requires Inv(b) && !b.phase.NotAsked? && !b.phase.Asked? && !b.phase.Joined?
    ensures Inv(Shutdown(b))
  {
    hide LoansOn;
    hide StartOk;
    hide StopOk;
  }

  /** Setting closing, joining the lock and waiting for the workers change nothing else. */
  lemma EarlyShutdown(b: Bot)
    requires Inv(b) && (b.phase.NotAsked? || b.phase.Asked? || b.phase.Joined?)
    ensures Inv(Shutdown(b))
  {
    var t := Shutdown(b);
    if b.state == Stopping {
      var k :| 0 <= k < |b.workers| && OnlyWorker(b.workers, k) && IsStop(b.workers[k]) && StopOk(b, b.workers[k]);
      assert OnlyWorker(t.workers, k) && IsStop(t.workers[k]) && StopOk(t, t.workers[k]);
    }
  }

  lemma StepKeeps(b: Bot, a: Action)
    requires Inv(b)
    ensures Inv(Step(b, a))
  {
    hide Inv;
    match a
    case DoResume => ResumeKeeps(b);
    case DoAccept(op, ok) => AcceptKeeps(b, op, ok);
    case DoAct => ActKeeps(b);
    case DoWork(worker, ok) =>
      if worker < |b.workers| {
        WorkKeeps(b, worker, ok);
      }
    case DoAcquire(write, ok) => AcquireKeeps(b, write, ok);
    case DoInfo => AcquireKeeps(b, false, false);
    case DoGiveBack(loan) => GiveBackKeeps(b, loan);
    case DoCloseReader => CloseReaderKeeps(b);
    case DoShutdown => ShutdownKeeps(b);
  }

  lemma {:induction false} RunKeeps(b: Bot, actions: seq<Action>)
    requires Inv(b)
    ensures Inv(Run(b, actions))
  {
    if actions != [] {
      RunKeeps(b, actions[..|actions| - 1]);
      hide Inv;
      StepKeeps(Run(b, actions[..|actions| - 1]), actions[|actions| - 1]);
    }
  }

  /** A catalog record as it may be saved: an archived Bot is not to run. */
  predicate Savable(saved: Desired) {
    saved.archived ==> !saved.running
  }

  // ---- Theorems ----

  /** In every interleaving every borrowed reference is to an open runtime: none is closed under a
      borrower and none is lent after it was closed. */
  lemma LoansAreOpen(saved: Desired, valid: bool, actions: seq<Action>, i: nat)
    requires Savable(saved) && i < |Run(Loaded(saved, valid), actions).loans|
    ensures var b := Run(Loaded(saved, valid), actions);
            b.loans[i].active ==> b.loans[i].rt < |b.runtimes| && b.runtimes[b.loans[i].rt].isOpen
  {
    RunKeeps(Loaded(saved, valid), actions);
    var b := Run(Loaded(saved, valid), actions);
    if b.state == Stopping && !Winding(b) {
      var k :| 0 <= k < |b.workers| && OnlyWorker(b.workers, k) && IsStop(b.workers[k]) && StopOk(b, b.workers[k]);
    }
  }

  /** At most one runtime, or else one stopped-state reader, has the Bot's journal open. */
  lemma OneJournalOwner(saved: Desired, valid: bool, actions: seq<Action>, i: nat, j: nat)
    requires Savable(saved)
    requires var b := Run(Loaded(saved, valid), actions);
             i < |b.runtimes| && j < |b.runtimes| && b.runtimes[i].isOpen
    ensures var b := Run(Loaded(saved, valid), actions);
            !b.lock.Reader? && (b.runtimes[j].isOpen ==> i == j)
  {
    RunKeeps(Loaded(saved, valid), actions);
    var b := Run(Loaded(saved, valid), actions);
    if b.state == Starting {
      var k :| 0 <= k < |b.workers| && OnlyWorker(b.workers, k) && IsStart(b.workers[k]) && StartOk(b, b.workers[k]);
    } else if b.state == Stopping && !Winding(b) {
      var k :| 0 <= k < |b.workers| && OnlyWorker(b.workers, k) && IsStop(b.workers[k]) && StopOk(b, b.workers[k]);
    }
  }

  lemma StepStaysClosed(b: Bot, a: Action, rt: nat)
    requires rt < |b.runtimes| && !b.runtimes[rt].isOpen
    ensures rt < |Step(b, a).runtimes| && !Step(b, a).runtimes[rt].isOpen
  {
    match a
    case DoWork(worker, ok) =>
      if worker < |b.workers| {
        WorkStaysClosed(b, worker, ok, rt);
      }
    case _ =>
  }

  lemma WorkStaysClosed(b: Bot, i: nat, ok: bool, rt: nat)
    requires i < |b.workers| && rt < |b.runtimes| && !b.runtimes[rt].isOpen
    ensures rt < |Work(b, i, ok).runtimes| && !Work(b, i, ok).runtimes[rt].isOpen
  {
    hide Unborrowed;
    match b.workers[i]
    case Build =>
    case Abort(r) => ClosingKeepsClosed(b, r, rt);
      hide CloseRuntime;
    case Shut(taken) =>
      if taken.Some? {
        ClosingKeepsClosed(b, taken.value, rt);
      }
      hide CloseRuntime;
    case _ =>
  }

  lemma ClosingKeepsClosed(b: Bot, r: nat, rt: nat)
    requires rt < |b.runtimes| && !b.runtimes[rt].isOpen
    ensures rt < |CloseRuntime(b, r).runtimes| && !CloseRuntime(b, r).runtimes[rt].isOpen
  {
  }

  /** Closing is final: nothing reopens a runtime. */
  lemma {:induction false} StaysClosed(b: Bot, actions: seq<Action>, rt: nat)
    requires rt < |b.runtimes| && !b.runtimes[rt].isOpen
    ensures rt < |Run(b, actions).runtimes| && !Run(b, actions).runtimes[rt].isOpen
  {
    if actions != [] {
      StaysClosed(b, actions[..|actions| - 1], rt);
      hide Step;
      StepStaysClosed(Run(b, actions[..|actions| - 1]), actions[|actions| - 1], rt);
    }
  }

  /** Once a runtime is closed, it was closed exactly once, no reference to it remains, and none is
      taken in any continuation. */
  lemma ClosedForGood(saved: Desired, valid: bool, actions: seq<Action>, more: seq<Action>, rt: nat, i: nat)
    requires Savable(saved)
    requires var b := Run(Loaded(saved, valid), actions);
             rt < |b.runtimes| && !b.runtimes[rt].isOpen && i < |Run(b, more).loans|
    ensures var t := Run(Run(Loaded(saved, valid), actions), more);
            && rt < |t.runtimes| && t.runtimes[rt].closes == 1
            && (t.loans[i].rt == rt ==> !t.loans[i].active)
  {
    hide ByState;
    hide Step;
    hide Loaded;
    var b := Run(Loaded(saved, valid), actions);
    StaysClosed(b, more, rt);
    RunAppend(Loaded(saved, valid), actions, more);
    ClosedAndUnlent(saved, valid, actions + more, rt, i);
    hide Run;
  }

  lemma ClosedAndUnlent(saved: Desired, valid: bool, actions: seq<Action>, rt: nat, i: nat)
    requires Savable(saved)
    requires var t := Run(Loaded(saved, valid), actions);
             rt < |t.runtimes| && !t.runtimes[rt].isOpen && i < |t.loans|
    ensures var t := Run(Loaded(saved, valid), actions);
            t.runtimes[rt].closes == 1 && (t.loans[i].rt == rt ==> !t.loans[i].active)
  {
    RunKeeps(Loaded(saved, valid), actions);
    hide ByState;
    LoansAreOpen(saved, valid, actions, i);
    hide Run;
  }

  lemma {:induction false} RunAppend(b: Bot, x: seq<Action>, y: seq<Action>)
    ensures Run(b, x + y) == Run(Run(b, x), y)
  {
    if y == [] {
      assert x + y == x;
    } else {
      assert (x + y)[..|x + y| - 1] == x + y[..|y| - 1];
      RunAppend(b, x, y[..|y| - 1]);
    }
  }

  /** When Shutdown is through with the Bot, its runtimes are closed, its workers and borrowers are
      gone, and that stays so whatever is called afterwards. */
  lemma ShutdownReleases(saved: Desired, valid: bool, actions: seq<Action>, more: seq<Action>)
    requires Savable(saved) && Run(Loaded(saved, valid), actions).phase.Finished?
    ensures var t := Run(Run(Loaded(saved, valid), actions), more);
            AllClosed(t.runtimes) && Quiesced(t.workers) && Unborrowed(t.loans) && t.runtime.None?
  {
    RunAppend(Loaded(saved, valid), actions, more);
    StaysFinished(Run(Loaded(saved, valid), actions), more);
    RunKeeps(Loaded(saved, valid), actions + more);
    hide Run;
    FinishedIsClean(Run(Run(Loaded(saved, valid), actions), more));
    hide Inv;
  }

  lemma FinishedIsClean(b: Bot)
    requires Inv(b) && b.phase.Finished?
    ensures AllClosed(b.runtimes) && Quiesced(b.workers) && Unborrowed(b.loans) && b.runtime.None?
  {
  }

  lemma {:induction false} StaysFinished(b: Bot, actions: seq<Action>)
    requires b.phase.Finished?
    ensures Run(b, actions).phase.Finished?
  {
    if actions != [] {
      StaysFinished(b, actions[..|actions| - 1]);
      hide Step;
      FinishedStep(Run(b, actions[..|actions| - 1]), actions[|actions| - 1]);
    }
  }

  lemma FinishedStep(b: Bot, a: Action)
    requires b.phase.Finished?
    ensures Step(b, a).phase.Finished?
  {
    hide Unborrowed;
  }

  /** Shutdown finds a runtime to close whenever it decided that there was one. */
  lemma ShutdownHasRuntime(saved: Desired, valid: bool, actions: seq<Action>)
    requires Savable(saved) && Run(Loaded(saved, valid), actions).phase.Taken?
    ensures var b := Run(Loaded(saved, valid), actions);
            b.phase.rt.Some? && OnlyOpen(b.runtimes, b.phase.rt.value) && Unborrowed(b.loans)
  {
    RunKeeps(Loaded(saved, valid), actions);
  }

  lemma OnlyCallsChangeIntent(b: Bot, a: Action)
    requires Step(b, a).saved != b.saved
    ensures a.DoAccept? && a.ok && b.serving && !b.closing
  {
  }

  /** The saved intent is what the Bot shows, an archived Bot neither runs nor is to run, and only
      an accepted lifecycle call changes the intent: shutting down preserves it. */
  lemma IntentIsSaved(saved: Desired, valid: bool, actions: seq<Action>, a: Action)
    requires Savable(saved)
    ensures var b := Run(Loaded(saved, valid), actions);
            && b.desired == b.saved && Savable(b.saved) && (b.saved.archived ==> AtRest(b.state) && AllClosed(b.runtimes))
            && (Step(b, a).saved != b.saved ==> a.DoAccept? && a.ok && b.serving && !b.closing)
  {
    RunKeeps(Loaded(saved, valid), actions);
    var b := Run(Loaded(saved, valid), actions);
    if Step(b, a).saved != b.saved {
      OnlyCallsChangeIntent(b, a);
    }
    hide Step;
    hide Run;
  }

  // ---- Progress ----

  function WorkerRank(w: Worker): nat {
    match w
    case Load => 6 case Bind => 5 case Build => 4 case Boot(_) => 3 case Abort(_) => 2 case Fail => 1 case Publish(_) => 1
    case Drain => 4 case Take => 3 case Shut(_) => 2 case Clear => 1
    case Gone => 0
  }

  function PhaseRank(p: Phase): nat {
    match p
    case NotAsked => 8 case Asked => 7 case Joined => 6 case Quiet => 5 case Draining => 4 case Drained => 3
    case Taken(_) => 2 case Released => 1 case Finished => 0
  }

  lemma WorkerAdvances(b: Bot, i: nat, ok: bool)
    requires b.lock.Free? && Unborrowed(b.loans) && i < |b.workers| && !b.workers[i].Gone?
    ensures WorkerRank(Work(b, i, ok).workers[i]) < WorkerRank(b.workers[i])
  {
    hide Unborrowed;
    match b.workers[i]
    case Load =>
    case Bind =>
    case Build =>
    case Boot(_) =>
    case Abort(_) =>
    case Fail =>
    case Publish(_) =>
    case Drain =>
    case Take =>
    case Shut(_) =>
    case Clear =>
  }

  lemma ShutdownAdvances(b: Bot)
    requires Inv(b) && b.lock.Free? && Unborrowed(b.loans) && Quiesced(b.workers) && b.serving && !b.phase.Finished?
    ensures PhaseRank(Shutdown(b).phase) < PhaseRank(b.phase)
  {
  }

  /** Nothing waits for a thing that cannot happen: with the entry lock free and nothing borrowed,
      every worker advances, and with the workers gone Shutdown advances until it is finished. */
  lemma NothingIsStuck(saved: Desired, valid: bool, actions: seq<Action>, i: nat, ok: bool)
    requires Savable(saved)
    requires var b := Run(Loaded(saved, valid), actions);
             b.lock.Free? && Unborrowed(b.loans)
    ensures var b := Run(Loaded(saved, valid), actions);
            && (i < |b.workers| && !b.workers[i].Gone? ==> WorkerRank(Work(b, i, ok).workers[i]) < WorkerRank(b.workers[i]))
            && (Quiesced(b.workers) && b.serving && !b.phase.Finished? ==> PhaseRank(Shutdown(b).phase) < PhaseRank(b.phase))
  {
    RunKeeps(Loaded(saved, valid), actions);
    var b := Run(Loaded(saved, valid), actions);
    hide Run;
    hide Inv;
    if i < |b.workers| && !b.workers[i].Gone? {
      WorkerAdvances(b, i, ok);
    }
    if Quiesced(b.workers) && b.serving && !b.phase.Finished? {
      ShutdownAdvances(b);
    }
    hide Work;
    hide Shutdown;
  }
}
