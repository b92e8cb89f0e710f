/** What each call on a Bot does in terms of its state, and that starts, stops and shutdowns come to
    their end (internal/app/manager.go). */
module LifecycleCalls {
  import opened Wrappers
  import opened Lifecycle
  import opened LifecycleTheorems

  // ---- Accepting a lifecycle call ----

  /** The state allows the operation. */
  predicate Allowed(b: Bot, op: Operation) {
    match op
    case StartOp => AtRest(b.state) && !b.desired.archived
    case StopOp => b.state != Starting
    case ArchiveOp => AtRest(b.state)
    case RestoreOp => AtRest(b.state)
  }

  /** What the operation asks for. */
  function Asks(op: Operation, archived: bool): Desired {
    match op
    case StartOp => Desired(true, false)
    case StopOp => Desired(false, archived)
    case ArchiveOp => Desired(false, true)
    case RestoreOp => Desired(false, false)
  }

  /** A call is accepted exactly if the daemon is not closing, the state allows it and the intent could
      be saved; then that intent is saved and shown, and the entry lock kept. Nothing else happens. */
  lemma AcceptDecides(b: Bot, op: Operation, ok: bool)
    requires Inv(b) && b.lock.Free? && b.serving
    ensures var t, d := Accept(b, op, ok), Asks(op, b.desired.archived);
            if !b.closing && ok && Allowed(b, op) then t == b.(desired := d, saved := d, lock := Accepted(op)) else t == b
  {
  }

  // ---- Acting on it ----

  /** Everything but the state, the workers and the entry lock is as before. */
  predicate KeepsRest(b: Bot, t: Bot) {
    t == b.(state := t.state, workers := t.workers, lock := Free)
  }

  /** An accepted start leaves the Bot starting with one new start worker; a stop leaves it stopping,
      with one stop worker at work, exactly if there is a runtime, and else at rest; archiving and
      restoring only set the state. */
  predicate Acted(b: Bot, t: Bot)
    requires b.lock.Accepted?
  {
    && KeepsRest(b, t) && t.lock == Free
    && match b.lock.op
       case StartOp =>
         t.state == Starting && t.workers == b.workers + [Load] && OnlyWorker(t.workers, |b.workers|) && b.runtime.None?
       case StopOp =>
         if b.runtime.None? then t.state == (if b.desired.archived then Archived else Stopped) && t.workers == b.workers
         else
           && t.state == Stopping && !Winding(t)
           && t.workers == (if b.state == Stopping then b.workers else b.workers + [Drain])
           && exists k :: 0 <= k < |t.workers| && OnlyWorker(t.workers, k) && IsStop(t.workers[k])
       case ArchiveOp => t.state == Archived && t.workers == b.workers
       case RestoreOp => t.state == Stopped && t.workers == b.workers
  }

  /** An accepted call does exactly what its operation says. */
  lemma ActDoes(b: Bot)
    requires Inv(b) && b.lock.Accepted?
    ensures Acted(b, Act(b))
  {
    var t := Act(b);
    if b.lock.op.StopOp? && b.runtime.Some? {
      if b.state == Stopping {
        var k :| 0 <= k < |b.workers| && OnlyWorker(b.workers, k) && IsStop(b.workers[k]) && StopOk(b, b.workers[k]);
        assert OnlyWorker(t.workers, k) && IsStop(t.workers[k]);
      } else {
        assert OnlyWorker(t.workers, |b.workers|) && IsStop(t.workers[|b.workers|]);
      }
    }
  }

  // ---- The end of a start, a stop and a shutdown ----

  /** Worker k acts once for each outcome. */
  function WorkAll(b: Bot, k: nat, oks: seq<bool>): (t: Bot)
    requires k < |b.workers|
    ensures |t.workers| == |b.workers|
    decreases |oks|
  {
    if oks == [] then b else WorkAll(Work(b, k, oks[0]), k, oks[1..])
  }

  /** One action of a stop worker that nothing holds up. */
  lemma StopMoves(b: Bot, k: nat, ok: bool)
    requires Inv(b) && b.state == Stopping && b.lock.Free? && Unborrowed(b.loans)
    requires k < |b.workers| && OnlyWorker(b.workers, k) && IsStop(b.workers[k])
    ensures var t := Work(b, k, ok);
            && Inv(t) && t.lock.Free? && Unborrowed(t.loans) && OnlyWorker(t.workers, k) && t.saved == b.saved && |t.runtimes| == |b.runtimes|
            && |t.workers| == |b.workers| && WorkerRank(t.workers[k]) == WorkerRank(b.workers[k]) - 1
            && (if t.workers[k].Gone? then t.state == Stopped else t.state == Stopping && IsStop(t.workers[k]))
  {
    WorkKeeps(b, k, ok);
    hide Inv;
    hide Unborrowed;
  }

  /** A stopped Bot: no runtime, all of them closed, nobody at work. */
  predicate IsStopped(b: Bot) {
    b.state == Stopped && b.runtime.None? && AllClosed(b.runtimes) && Quiesced(b.workers)
  }

  lemma StoppedIs(b: Bot)
    requires Inv(b) && b.state == Stopped
    ensures IsStopped(b)
  {
  }

  /** A stop ends: with the references returned and the entry lock free, four actions of its worker
      close the runtime and leave the Bot stopped, whatever fails. */
  lemma {:induction false} StopEnds(b: Bot, k: nat, oks: seq<bool>)
    requires Inv(b) && b.state == Stopping && b.lock.Free? && Unborrowed(b.loans)
    requires k < |b.workers| && OnlyWorker(b.workers, k) && IsStop(b.workers[k]) && |oks| >= WorkerRank(b.workers[k])
    ensures var t := WorkAll(b, k, oks); IsStopped(t) && t.saved == b.saved && |t.runtimes| == |b.runtimes|
    decreases |oks|
  {
    hide Inv;
    hide OnlyWorker;
    hide Work;
    hide Unborrowed;
    hide IsStopped;
    var t := Work(b, k, oks[0]);
    StopMoves(b, k, oks[0]);
    if t.workers[k].Gone? {
      StoppedIs(t);
      GoneStays(t, k, oks[1..]);
    } else {
      StopEnds(t, k, oks[1..]);
    }
  }

  lemma {:induction false} GoneStays(b: Bot, k: nat, oks: seq<bool>)
    requires k < |b.workers| && b.workers[k].Gone?
    ensures WorkAll(b, k, oks) == b
    decreases |oks|
  {
    if oks != [] {
      GoneStays(b, k, oks[1..]);
    }
  }

  /** A start that ended well: one open runtime, which is the one created last. */
  predicate IsRunning(b: Bot) {
    && b.state == Running && b.runtimes != [] && b.runtime == Some(|b.runtimes| - 1) && OnlyOpen(b.runtimes, |b.runtimes| - 1)
    && Quiesced(b.workers)
  }

  predicate IsFailed(b: Bot) {
    b.state == Failed && b.runtime.None? && AllClosed(b.runtimes) && Quiesced(b.workers)
  }

  /** How many of the remaining actions of a start can fail. */
  function Fallible(w: Worker): nat {
    match w
    case Load => 4 case Bind => 3 case Build => 2 case Boot(_) => 1
    case _ => 0
  }

  predicate AllWell(oks: seq<bool>, n: nat) {
    n <= |oks| && forall i :: 0 <= i < n ==> oks[i]
  }

  /** The start is on its way to success: nothing has failed so far. */
  predicate OnCourse(w: Worker) {
    !w.Abort? && !w.Fail?
  }

  lemma StartMoves(b: Bot, k: nat, ok: bool)
    requires Inv(b) && b.state == Starting && b.lock.Free? && k < |b.workers| && OnlyWorker(b.workers, k) && IsStart(b.workers[k])
    requires NewestIsHeld(b, b.workers[k])
    ensures var t, w := Work(b, k, ok), b.workers[k];
            var v := t.workers[k];
            && Inv(t) && t.lock.Free? && OnlyWorker(t.workers, k) && t.saved == b.saved
            && |t.workers| == |b.workers| && WorkerRank(v) < WorkerRank(w)
            && (if v.Gone? then Fallible(w) == 0 && (if OnCourse(w) then IsRunning(t) else IsFailed(t))
                else && t.state == Starting && IsStart(v) && NewestIsHeld(t, v)
                     && (OnCourse(v) <==> OnCourse(w) && (Fallible(w) > 0 ==> ok))
                     && (OnCourse(v) ==> Fallible(v) == Fallible(w) - 1))
  {
    WorkKeeps(b, k, ok);
    TheWorker(b, k);
    var t := Work(b, k, ok);
    assert OnlyWorker(t.workers, k);
    hide ByState;
    hide ClosedOnce;
    if t.workers[k].Gone? {
      EndOfStart(t);
    }
  }

  lemma EndOfStart(t: Bot)
    requires Inv(t)
    ensures t.state == Failed ==> IsFailed(t)
    ensures t.state == Running && t.runtimes != [] && t.runtime == Some(|t.runtimes| - 1) ==> IsRunning(t)
  {
  }

  /** A start worker that holds a runtime holds the one created last. */
  predicate NewestIsHeld(b: Bot, w: Worker) {
    w.Boot? || w.Abort? || w.Publish? ==> b.runtimes != [] && w.rt == |b.runtimes| - 1
  }

  /** A start ends: with the entry lock free, six actions of its worker leave the Bot running on its new
      runtime, exactly if all its fallible actions succeed, and else failed with every runtime closed. */
  lemma {:induction false} StartEnds(b: Bot, k: nat, oks: seq<bool>)
    requires Inv(b) && b.state == Starting && b.lock.Free? && k < |b.workers| && OnlyWorker(b.workers, k) && IsStart(b.workers[k])
    requires NewestIsHeld(b, b.workers[k]) && |oks| >= WorkerRank(b.workers[k])
    ensures var t := WorkAll(b, k, oks);
            && t.saved == b.saved
            && if OnCourse(b.workers[k]) && AllWell(oks, Fallible(b.workers[k])) then IsRunning(t) else IsFailed(t)
    decreases |oks|
  {
    hide Inv;
    hide OnlyWorker;
    hide Work;
    hide IsRunning;
    hide IsFailed;
    hide NewestIsHeld;
    var t := Work(b, k, oks[0]);
    StartMoves(b, k, oks[0]);
    if t.workers[k].Gone? {
      GoneStays(t, k, oks[1..]);
    } else {
      StartEnds(t, k, oks[1..]);
      if OnCourse(t.workers[k]) {
        OneMoreWell(oks, Fallible(b.workers[k]));
      }
    }
  }

  lemma OneMoreWell(oks: seq<bool>, n: nat)
    requires oks != [] && n > 0
    ensures AllWell(oks, n) <==> oks[0] && AllWell(oks[1..], n - 1)
  {
    if oks[0] && AllWell(oks[1..], n - 1) {
      forall i | 0 <= i < n ensures oks[i] {
        if i > 0 {
          assert oks[i] == oks[1..][i - 1];
        }
      }
    }
    if AllWell(oks, n) {
      assert forall i :: 0 <= i < n - 1 ==> oks[1..][i] == oks[i + 1];
    }
  }

  function ShutdownTimes(b: Bot, n: nat): Bot
    decreases n
  {
    if n == 0 then b else ShutdownTimes(Shutdown(b), n - 1)
  }

  lemma ShutdownMoves(b: Bot)
    requires Inv(b) && b.serving && b.lock.Free? && Unborrowed(b.loans) && Quiesced(b.workers)
    ensures var t := Shutdown(b);
            && Inv(t) && t.serving && t.lock.Free? && Unborrowed(t.loans) && Quiesced(t.workers) && t.saved == b.saved
            && (!b.phase.Finished? ==> PhaseRank(t.phase) < PhaseRank(b.phase))
  {
    ShutdownKeeps(b);
    if !b.phase.Finished? {
      ShutdownAdvances(b);
    }
    hide Inv;
  }

  /** Shutdown ends: with the workers gone, the references returned and the entry lock free, eight of
      its steps close the runtime, and the saved intent stays. */
  lemma {:induction false} ShutdownEnds(b: Bot, n: nat)
    requires Inv(b) && b.serving && b.lock.Free? && Unborrowed(b.loans) && Quiesced(b.workers) && n >= PhaseRank(b.phase)
    ensures var t := ShutdownTimes(b, n);
            t.phase.Finished? && t.runtime.None? && AllClosed(t.runtimes) && AtRest(t.state) && t.saved == b.saved
    decreases n
  {
    if n == 0 {
      FinishedIsClean(b);
    } else {
      hide Inv;
      hide Shutdown;
      hide Unborrowed;
      hide Quiesced;
      ShutdownMoves(b);
      ShutdownEnds(Shutdown(b), n - 1);
    }
  }

  /** From the call to the end: a stop that is accepted and acted on leaves the Bot stopped, its intent
      saved, after four actions of the worker, once the references are back. */
  lemma StopCallStops(b: Bot, oks: seq<bool>)
    requires Inv(b) && b.lock.Free? && b.serving && !b.closing && b.state == Running && Unborrowed(b.loans) && |oks| >= 4
    ensures var t := Act(Accept(b, StopOp, true));
            && |t.workers| == |b.workers| + 1
            && var u := WorkAll(t, |b.workers|, oks); IsStopped(u) && u.saved == Desired(false, false)
  {
    hide WorkAll;
    hide Unborrowed;
    hide IsStopped;
    AcceptDecides(b, StopOp, true);
    AcceptKeeps(b, StopOp, true);
    var a := Accept(b, StopOp, true);
    ActDoes(a);
    ActKeeps(a);
    assert !b.desired.archived;
    var t := Act(a);
    hide Accept;
    hide Act;
    hide Inv;
    assert t.workers[|b.workers|] == Drain;
    assert OnlyWorker(t.workers, |b.workers|) by {
      TheWorker(t, |b.workers|);
    }
    StopEnds(t, |b.workers|, oks);
  }

  /** From the call to the end: a start that is accepted and acted on leaves the Bot running after six
      actions of the worker if the four that can fail succeed, and else failed. */
  lemma StartCallStarts(b: Bot, oks: seq<bool>)
    requires Inv(b) && b.lock.Free? && b.serving && !b.closing && AtRest(b.state) && !b.desired.archived && |oks| >= 6
    ensures var t := Act(Accept(b, StartOp, true));
            && |t.workers| == |b.workers| + 1
            && var u := WorkAll(t, |b.workers|, oks);
               u.saved == Desired(true, false) && if oks[0] && oks[1] && oks[2] && oks[3] then IsRunning(u) else IsFailed(u)
  {
    hide WorkAll;
    hide IsRunning;
    hide IsFailed;
    AcceptDecides(b, StartOp, true);
    AcceptKeeps(b, StartOp, true);
    var a := Accept(b, StartOp, true);
    ActDoes(a);
    ActKeeps(a);
    var t := Act(a);
    hide Accept;
    hide Act;
    hide Inv;
    StartEnds(t, |b.workers|, oks);
  }

  // ---- References and readers ----

  /** A request gets a reference to the runtime exactly if the Bot runs, a reader that keeps the entry
      lock exactly if it is at rest, the request only reads and the state opens, and else nothing. */
  lemma AcquireDecides(b: Bot, write: bool, ok: bool)
    requires Inv(b) && b.lock.Free? && b.serving
    ensures var t := Acquire(b, write, ok);
            if b.state == Running then
              b.runtime.Some? && b.runtime.value < |b.runtimes| && b.runtimes[b.runtime.value].isOpen
              && t == b.(loans := b.loans + [Loan(b.runtime.value, true)])
            else if AtRest(b.state) && !write && ok then t == b.(lock := Reader)
            else t == b
  {
  }
}
