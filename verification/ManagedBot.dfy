/** The managed Bot entry as the manager updates it. References and workers are counted by two wait
    groups; every method is one region or action of module Lifecycle. */
module ManagedBots {
  import opened Wrappers
  import opened Lifecycle
  import opened LifecycleTheorems
  import opened LifecycleCalls

  function ActiveLoans(loans: seq<Loan>): nat {
    if loans == [] then 0 else ActiveLoans(loans[..|loans| - 1]) + (if loans[|loans| - 1].active then 1 else 0)
  }

  function LiveWorkers(workers: seq<Worker>): nat {
    if workers == [] then 0 else LiveWorkers(workers[..|workers| - 1]) + (if workers[|workers| - 1].Gone? then 0 else 1)
  }

  lemma {:induction false} NoLoansLeft(loans: seq<Loan>)
    ensures ActiveLoans(loans) == 0 <==> Unborrowed(loans)
  {
    if loans != [] {
      NoLoansLeft(loans[..|loans| - 1]);
    }
  }

  lemma {:induction false} NoWorkersLeft(workers: seq<Worker>)
    ensures LiveWorkers(workers) == 0 <==> Quiesced(workers)
  {
    if workers != [] {
      NoWorkersLeft(workers[..|workers| - 1]);
    }
  }

  lemma {:induction false} LoanReturned(loans: seq<Loan>, i: nat)
    requires i < |loans| && loans[i].active
    ensures ActiveLoans(loans[i := loans[i].(active := false)]) == ActiveLoans(loans) - 1
  {
    var after := loans[i := loans[i].(active := false)];
    if i == |loans| - 1 {
      assert after[..|loans| - 1] == loans[..|loans| - 1];
    } else {
      assert after[..|loans| - 1] == loans[..|loans| - 1][i := loans[i].(active := false)];
      LoanReturned(loans[..|loans| - 1], i);
    }
  }

  lemma {:induction false} WorkerMoved(workers: seq<Worker>, i: nat, w: Worker)
    requires i < |workers| && !workers[i].Gone?
    ensures LiveWorkers(workers[i := w]) == LiveWorkers(workers) - (if w.Gone? then 1 else 0)
  {
    var after := workers[i := w];
    if i == |workers| - 1 {
      assert after[..|workers| - 1] == workers[..|workers| - 1];
    } else {
      assert after[..|workers| - 1] == workers[..|workers| - 1][i := w];
      WorkerMoved(workers[..|workers| - 1], i, w);
    }
  }

  lemma WorkerAdded(workers: seq<Worker>, w: Worker)
    requires !w.Gone?
    ensures LiveWorkers(workers + [w]) == LiveWorkers(workers) + 1
  {
    assert (workers + [w])[..|workers|] == workers;
  }

  datatype Answer = DaemonStopping | BotArchived | TransitionConflict | MustStop | IntentRefused | Unchanged | Proceeding

  datatype Access = Borrowed | Reading | MustStart | ReadFailed

  class ManagedBot {
    var state: LifeState
    var runtime: Option<nat>
    var lock: Lock
    var refs: nat
    var transition: nat
    var workers: seq<Worker>
    var runtimes: seq<Runtime>
    var desired: Desired
    var saved: Desired
    var serving: bool
    var closing: bool
    var phase: Phase
    ghost var loans: seq<Loan>

    ghost function View(): Bot
      reads this
    {
      Bot(state, runtime, lock, loans, workers, runtimes, desired, saved, serving, closing, phase)
    }

    ghost predicate Valid()
      reads this
    {
      Inv(View()) && refs == ActiveLoans(loans) && transition == LiveWorkers(workers)
    }

    constructor (saved: Desired, valid: bool)
      requires Savable(saved)
      ensures Valid() && View() == Loaded(saved, valid)
    {
      state := if !valid then Failed else if saved.archived then Archived else Stopped;
      runtime, lock, refs, transition, workers, runtimes := None, Free, 0, 0, [], [];
      desired, this.saved, serving, closing, phase, loans := saved, saved, false, false, NotAsked, [];
    }

    method Resume()
      requires Valid() && !serving
      modifies this
      ensures Valid() && View() == Lifecycle.Resume(old(View()))
      ensures serving
      ensures if desired.running && !desired.archived then state == Starting && workers == old(workers) + [Load]
              else state == old(state) && workers == old(workers)
    {
      ResumeKeeps(View());
      hide Inv;
      hide BeginStart;
      hide LiveWorkers;
      hide ActiveLoans;
      if phase != NotAsked || !lock.Free? {
        return;
      }
      if desired.running && !desired.archived {
        StartRuntime();
      }
      serving := true;
    }

    /** Transition up to the durable intent; the entry lock stays held when it proceeds. */
    method Transition(op: Operation, ok: bool) returns (answer: Answer)
      requires Valid() && lock.Free? && serving
      modifies this
      ensures Valid() && View() == Accept(old(View()), op, ok)
      ensures answer == Proceeding <==> lock == Accepted(op)
      ensures answer == Proceeding <==> !closing && ok && old(Allowed(View(), op))
      ensures saved == desired == if answer == Proceeding then Asks(op, old(desired.archived)) else old(desired)
      ensures state == old(state) && runtime == old(runtime) && workers == old(workers)
      ensures answer == DaemonStopping <==> closing
      ensures op == StartOp && !closing ==> (answer == BotArchived <==> old(desired.archived))
      ensures op == StartOp && !closing && !old(desired.archived) ==> (answer == Unchanged <==> state == Running || state == Starting)
    {
      AcceptKeeps(View(), op, ok);
      AcceptDecides(View(), op, ok);
      hide Inv;
      if closing {
        return DaemonStopping;
      }
      var next := desired;
      match op {
        case StartOp =>
          if desired.archived {
            return BotArchived;
          }
          if state == Stopping {
            return TransitionConflict;
          }
          if state == Running || state == Starting {
            return Unchanged;
          }
          next := Desired(true, false);
        case StopOp =>
          if state == Starting {
            return TransitionConflict;
          }
          next := next.(running := false);
        case ArchiveOp =>
          if runtime.Some? || state == Starting || state == Stopping {
            return MustStop;
          }
          next := Desired(false, true);
        case RestoreOp =>
          if runtime.Some? || state == Starting || state == Stopping {
            return TransitionConflict;
          }
          next := Desired(false, false);
      }
      if !ok {
        return IntentRefused;
      }
      desired, saved, lock := next, next, Accepted(op);
      answer := Proceeding;
    }

    /** The rest of an accepted lifecycle call; releases the entry lock. */
    method Proceed()
      requires Valid() && lock.Accepted?
      modifies this
      ensures Valid() && View() == Act(old(View())) && lock == Free
      ensures Acted(old(View()), View())
    {
      ActKeeps(View());
      ActDoes(View());
      hide Acted;
      hide Inv;
      hide ActiveLoans;
      hide LiveWorkers;
      hide BeginStart;
      hide BeginStop;
      var op := lock.op;
      lock := Free;
      match op {
        case StartOp => StartRuntime();
        case StopOp => StopRuntime();
        case ArchiveOp => state := Archived;
        case RestoreOp => state := Stopped;
      }
    }

    method StartRuntime()
      requires transition == LiveWorkers(workers)
      modifies `state, `workers, `transition
      ensures transition == LiveWorkers(workers)
      ensures View() == BeginStart(old(View()))
    {
      hide LiveWorkers;
      WorkerAdded(workers, Load);
      state, workers, transition := Starting, workers + [Load], transition + 1;
    }

    method StopRuntime()
      requires transition == LiveWorkers(workers)
      modifies `state, `workers, `transition
      ensures transition == LiveWorkers(workers)
      ensures View() == Lifecycle.BeginStop(old(View()))
    {
      hide LiveWorkers;
      if state == Stopping {
        return;
      }
      if runtime.None? {
        state := if desired.archived then Archived else Stopped;
        return;
      }
      WorkerAdded(workers, Drain);
      state, workers, transition := Stopping, workers + [Drain], transition + 1;
    }

    method Close(rt: nat)
      requires rt < |runtimes|
      modifies `runtimes
      ensures View() == CloseRuntime(old(View()), rt)
    {
      runtimes := runtimes[rt := Runtime(false, runtimes[rt].closes + 1)];
    }

    /** Moves worker i on; a worker that ends leaves the wait group. */
    method Move(i: nat, w: Worker)
      requires i < |workers| && !workers[i].Gone? && transition == LiveWorkers(workers)
      modifies `workers, `transition
      ensures workers == old(workers)[i := w] && transition == LiveWorkers(workers)
    {
      WorkerMoved(workers, i, w);
      workers := workers[i := w];
      if w.Gone? {
        transition := transition - 1;
      }
    }

    /** The next action of a start worker. */
    method AdvanceStart(i: nat, ok: bool)
      requires Valid() && i < |workers| && IsStart(workers[i])
      modifies this
      ensures Valid() && View() == Work(old(View()), i, ok)
    {
      hide LiveWorkers;
      hide ActiveLoans;
      hide Inv;
      WorkKeeps(View(), i, ok);
      RuntimesExist(View(), i);
      var next := workers[i];
      assert workers[i := next] == workers;
      match next {
        case Load =>
          if lock.Free? {
            next := if ok then Bind else Fail;
          }
        case Bind => next := if ok then Build else Fail;
        case Build =>
          next := Fail;
          if ok {
            next := Boot(|runtimes|);
            runtimes := runtimes + [Runtime(true, 0)];
          }
        case Boot(rt) => next := if ok then Publish(rt) else Abort(rt);
        case Abort(rt) =>
          Close(rt);
          next := Fail;
        case Fail =>
          if lock.Free? {
            state, next := Failed, Gone;
          }
        case Publish(rt) =>
          if lock.Free? {
            runtime, state, next := Some(rt), Running, Gone;
          }
      }
      Move(i, next);
    }

    lemma RuntimesExist(b: Bot, i: nat)
      requires Inv(b) && i < |b.workers|
      ensures var w := b.workers[i];
              && (w.Boot? || w.Abort? || w.Publish? ==> w.rt < |b.runtimes|)
              && (w.Shut? && w.taken.Some? ==> w.taken.value < |b.runtimes|)
    {
      if !b.workers[i].Gone? {
        TheWorker(b, i);
      }
    }

    /** The next action of a stop worker; it waits for the references before it takes the runtime. */
    method AdvanceStop(i: nat)
      requires Valid() && i < |workers| && IsStop(workers[i])
      modifies this
      ensures Valid() && View() == Work(old(View()), i, true)
    {
      hide Inv;
      hide LiveWorkers;
      hide ActiveLoans;
      WorkKeeps(View(), i, true);
      RuntimesExist(View(), i);
      NoLoansLeft(loans);
      match workers[i] {
        case Drain =>
          if refs == 0 {
            Move(i, Take);
          }
        case Take =>
          if lock.Free? {
            Move(i, Shut(runtime));
          }
        case Shut(taken) =>
          if taken.Some? {
            Close(taken.value);
          }
          Move(i, Clear);
        case Clear =>
          if lock.Free? {
            runtime, state := None, Stopped;
            Move(i, Gone);
          }
      }
    }

    method Borrow()
      requires runtime.Some?
      modifies `refs, `loans
      ensures loans == old(loans) + [Loan(runtime.value, true)] && refs == old(refs) + 1
      ensures old(refs == ActiveLoans(loans)) ==> refs == ActiveLoans(loans)
    {
      assert (loans + [Loan(runtime.value, true)])[..|loans|] == loans;
      refs := refs + 1;
      loans := loans + [Loan(runtime.value, true)];
    }

    /** A reference to the running Bot, or for a read of a stopped one a reader that keeps the
        entry lock; `ok` says whether that reader's state opens. */
    method Acquire(write: bool, ok: bool) returns (access: Access)
      requires Valid() && lock.Free? && serving
      modifies this
      ensures Valid() && View() == Lifecycle.Acquire(old(View()), write, ok)
      ensures access.Borrowed? <==> state == Running
      ensures access.Borrowed? ==> runtime.Some? && loans == old(loans) + [Loan(runtime.value, true)]
      ensures !access.Borrowed? ==> loans == old(loans)
      ensures access == Reading <==> AtRest(state) && !write && ok
      ensures access == Reading <==> lock == Reader
    {
      AcquireKeeps(View(), write, ok);
      hide LiveWorkers;
      assert state == Running ==> runtime.Some?;
      hide Inv;
      if state == Running && runtime.Some? {
        Borrow();
        return Borrowed;
      }
      if write || state == Starting || state == Stopping {
        return MustStart;
      }
      if !ok {
        return ReadFailed;
      }
      lock := Reader;
      access := Reading;
    }

    /** Info borrows the runtime of a running Bot until it has its health. */
    method BorrowForInfo() returns (borrowed: bool)
      requires Valid() && lock.Free? && serving
      modifies this
      ensures Valid() && View() == Info(old(View())) && (borrowed <==> state == Running)
      ensures if borrowed then runtime.Some? && loans == old(loans) + [Loan(runtime.value, true)] else loans == old(loans)
    {
      AcquireKeeps(View(), false, false);
      assert state == Running ==> runtime.Some?;
      hide Inv;
      borrowed := state == Running && runtime.Some?;
      if borrowed {
        Borrow();
      }
    }

    method CloseReading()
      requires Valid() && lock.Reader?
      modifies this
      ensures Valid() && View() == CloseReader(old(View())) && lock == Free
    {
      CloseReaderKeeps(View());
      hide Inv;
      lock := Free;
    }

    /** refs.Done for one loan. */
    method Return(ghost loan: nat)
      requires Valid() && loan < |loans| && loans[loan].active
      modifies this
      ensures Valid() && View() == GiveBack(old(View()), loan)
      ensures refs == old(refs) - 1 && loans == old(loans)[loan := Loan(old(loans)[loan].rt, false)]
    {
      GiveBackKeeps(View(), loan);
      LoanReturned(loans, loan);
      hide Inv;
      refs := refs - 1;
      loans := loans[loan := loans[loan].(active := false)];
    }

    lemma TakenExists(b: Bot)
      requires Inv(b)
      ensures b.phase.Taken? ==> b.phase.rt.Some? && b.phase.rt.value < |b.runtimes|
    {
    }

    /** The next step of Shutdown for this Bot. */
    method AdvanceShutdown()
      requires Valid() && serving
      modifies this
      ensures Valid() && View() == Shutdown(old(View()))
    {
      hide LiveWorkers;
      hide ActiveLoans;
      hide Inv;
      ShutdownKeeps(View());
      NoLoansLeft(loans);
      NoWorkersLeft(workers);
      TakenExists(View());
      match phase {
        case NotAsked => closing, phase := true, Asked;
        case Asked =>
          if lock.Free? {
            phase := Joined;
          }
        case Joined =>
          if transition == 0 {
            phase := Quiet;
          }
        case Quiet =>
          if lock.Free? {
            if runtime.None? {
              phase := Finished;
            } else {
              state, phase := Stopping, Draining;
            }
          }
        case Draining =>
          if refs == 0 {
            phase := Drained;
          }
        case Drained =>
          if lock.Free? {
            phase := Taken(runtime);
          }
        case Taken(rt) =>
          Close(rt.value);
          phase := Released;
        case Released =>
          if lock.Free? {
            runtime, state, phase := None, Stopped, Finished;
          }
        case Finished =>
      }
    }
  }
}
