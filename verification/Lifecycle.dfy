/** One managed Bot under concurrent lifecycle calls, borrowed references, stopped-state readers and
    shutdown (internal/app/manager.go). A step is one region under the entry lock, or one action of
    a start or stop worker or of Shutdown outside it. */
module Lifecycle {
  import opened Wrappers

  datatype LifeState = Stopped | Starting | Running | Stopping | Failed | Archived

  datatype Operation = StartOp | StopOp | ArchiveOp | RestoreOp

  /** Who holds the entry lock across steps: a stopped-state reader until it is closed, or an
      accepted lifecycle call that has saved its intent and not yet acted on it. */
  datatype Lock = Free | Reader | Accepted(op: Operation)

  /** Where a start or stop goroutine stands. */
  datatype Worker =
    | Load | Bind | Build | Boot(rt: nat) | Abort(rt: nat) | Fail | Publish(rt: nat)
    | Drain | Take | Shut(taken: Option<nat>) | Clear
    | Gone

  /** Runtimes are numbered in creation order; an open one owns the Bot's journal. */
  datatype Runtime = Runtime(isOpen: bool, closes: nat)

  datatype Loan = Loan(rt: nat, active: bool)

  /** Shutdown of this Bot: closing is set, the entry lock was joined, the workers are gone, the
      references drain, the runtime is taken, closed and cleared. */
  datatype Phase = NotAsked | Asked | Joined | Quiet | Draining | Drained | Taken(rt: Option<nat>) | Released | Finished

  datatype Desired = Desired(running: bool, archived: bool)

  datatype Bot = Bot(
    state: LifeState, runtime: Option<nat>, lock: Lock, loans: seq<Loan>, workers: seq<Worker>,
    runtimes: seq<Runtime>, desired: Desired, saved: Desired, serving: bool, closing: bool, phase: Phase)

  function Loaded(saved: Desired, valid: bool): Bot {
    Bot(if !valid then Failed else if saved.archived then Archived else Stopped,
        None, Free, [], [], [], saved, saved, false, false, NotAsked)
  }

  predicate Quiesced(workers: seq<Worker>) {
    forall i :: 0 <= i < |workers| ==> workers[i].Gone?
  }

  predicate Unborrowed(loans: seq<Loan>) {
    forall i :: 0 <= i < |loans| ==> !loans[i].active
  }

  function CloseRuntime(b: Bot, rt: nat): Bot {
    if rt < |b.runtimes| then b.(runtimes := b.runtimes[rt := Runtime(false, b.runtimes[rt].closes + 1)]) else b
  }

  // ---- Lifecycle calls ----

  /** desiredLocked: persisted and then shown, unless the daemon is closing or a check or the write
      fails. */
  function Intend(b: Bot, desired: Desired, op: Operation, ok: bool): Bot {
    if b.closing || !ok then b else b.(desired := desired, saved := desired, lock := Accepted(op))
  }

  /** The part of Transition up to and including desiredLocked. */
  function Accept(b: Bot, op: Operation, ok: bool): Bot {
    if !b.lock.Free? || b.closing || !b.serving then b
    else
      match op
      case StartOp =>
        if b.desired.archived || b.state == Stopping || b.state == Running || b.state == Starting then b
        else Intend(b, Desired(true, false), op, ok)
      case StopOp =>
        if b.state == Starting then b else Intend(b, Desired(false, b.desired.archived), op, ok)
      case ArchiveOp =>
        if b.runtime.Some? || b.state == Starting || b.state == Stopping then b else Intend(b, Desired(false, true), op, ok)
      case RestoreOp =>
        if b.runtime.Some? || b.state == Starting || b.state == Stopping then b else Intend(b, Desired(false, false), op, ok)
  }

  function BeginStart(b: Bot): Bot {
    b.(state := Starting, workers := b.workers + [Load])
  }

  function BeginStop(b: Bot): Bot {
    if b.state == Stopping then b
    else if b.runtime.None? then b.(state := if b.desired.archived then Archived else Stopped)
    else b.(state := Stopping, workers := b.workers + [Drain])
  }

  /** The rest of Transition, still under the entry lock. */
  function Act(b: Bot): Bot {
    if !b.lock.Accepted? then b
    else
      var f := b.(lock := Free);
      match b.lock.op
      case StartOp => BeginStart(f)
      case StopOp => BeginStop(f)
      case ArchiveOp => f.(state := Archived)
      case RestoreOp => f.(state := Stopped)
  }

  /** Resume at daemon start, before the API serves. */
  function Resume(b: Bot): Bot {
    if b.serving || b.phase != NotAsked || !b.lock.Free? then b
    else if b.desired.running && !b.desired.archived then BeginStart(b).(serving := true)
    else b.(serving := true)
  }

  // ---- Workers ----

  function SetWorker(b: Bot, i: nat, w: Worker): Bot
    requires i < |b.workers|
  {
    b.(workers := b.workers[i := w])
  }

  /** One action of worker i; `ok` is the outcome of the fallible ones. */
  function Work(b: Bot, i: nat, ok: bool): Bot
    requires i < |b.workers|
  {
    match b.workers[i]
    case Load => if b.lock.Free? then SetWorker(b, i, if ok then Bind else Fail) else b
    case Bind => SetWorker(b, i, if ok then Build else Fail)
    case Build =>
      if ok then SetWorker(b, i, Boot(|b.runtimes|)).(runtimes := b.runtimes + [Runtime(true, 0)]) else SetWorker(b, i, Fail)
    case Boot(rt) => SetWorker(b, i, if ok then Publish(rt) else Abort(rt))
    case Abort(rt) => SetWorker(CloseRuntime(b, rt), i, Fail)
    case Fail => if b.lock.Free? then SetWorker(b, i, Gone).(state := Failed) else b
    case Publish(rt) => if b.lock.Free? then SetWorker(b, i, Gone).(runtime := Some(rt), state := Running) else b
    case Drain => if Unborrowed(b.loans) then SetWorker(b, i, Take) else b
    case Take => if b.lock.Free? then SetWorker(b, i, Shut(b.runtime)) else b
    case Shut(taken) => SetWorker(if taken.Some? then CloseRuntime(b, taken.value) else b, i, Clear)
    case Clear => if b.lock.Free? then SetWorker(b, i, Gone).(runtime := None, state := Stopped) else b
    case Gone => b
  }

  // ---- References and stopped-state readers ----

  predicate Lends(b: Bot) {
    b.state == Running && b.runtime.Some?
  }

  /** Acquire: a reference to the running runtime, or a reader that keeps the entry lock. */
  function Acquire(b: Bot, write: bool, ok: bool): Bot {
    if !b.lock.Free? || !b.serving then b
    else if Lends(b) then b.(loans := b.loans + [Loan(b.runtime.value, true)])
    else if write || b.state == Starting || b.state == Stopping || !ok then b
    else b.(lock := Reader)
  }

  /** Info borrows the runtime while it asks for its health. */
  function Info(b: Bot): Bot {
    if !b.lock.Free? || !b.serving || !Lends(b) then b else b.(loans := b.loans + [Loan(b.runtime.value, true)])
  }

  function GiveBack(b: Bot, loan: nat): Bot {
    if loan < |b.loans| then b.(loans := b.loans[loan := b.loans[loan].(active := false)]) else b
  }

  function CloseReader(b: Bot): Bot {
    if b.lock.Reader? then b.(lock := Free) else b
  }

  // ---- Shutdown ----

  function Shutdown(b: Bot): Bot {
    match b.phase
    case NotAsked => if b.serving then b.(phase := Asked, closing := true) else b
    case Asked => if b.lock.Free? then b.(phase := Joined) else b
    case Joined => if Quiesced(b.workers) then b.(phase := Quiet) else b
    case Quiet =>
      if !b.lock.Free? then b
      else if b.runtime.None? then b.(phase := Finished)
      else b.(state := Stopping, phase := Draining)
    case Draining => if Unborrowed(b.loans) then b.(phase := Drained) else b
    case Drained => if b.lock.Free? then b.(phase := Taken(b.runtime)) else b
    case Taken(rt) => if rt.Some? then CloseRuntime(b, rt.value).(phase := Released) else b
    case Released => if b.lock.Free? then b.(runtime := None, state := Stopped, phase := Finished) else b
    case Finished => b
  }

  datatype Action =
    | DoResume | DoAccept(op: Operation, ok: bool) | DoAct | DoWork(worker: nat, ok: bool)
    | DoAcquire(write: bool, ok: bool) | DoInfo | DoGiveBack(loan: nat) | DoCloseReader | DoShutdown

  function Step(b: Bot, a: Action): Bot {
    match a
    case DoResume => Resume(b)
    case DoAccept(op, ok) => Accept(b, op, ok)
    case DoAct => Act(b)
    case DoWork(worker, ok) => if worker < |b.workers| then Work(b, worker, ok) else b
    case DoAcquire(write, ok) => Acquire(b, write, ok)
    case DoInfo => Info(b)
    case DoGiveBack(loan) => GiveBack(b, loan)
    case DoCloseReader => CloseReader(b)
    case DoShutdown => Shutdown(b)
  }

  function Run(b: Bot, actions: seq<Action>): Bot {
    if actions == [] then b else Step(Run(b, actions[..|actions| - 1]), actions[|actions| - 1])
  }

  // ---- The invariant ----

  predicate IsStart(w: Worker) {
    w.Load? || w.Bind? || w.Build? || w.Boot? || w.Abort? || w.Fail? || w.Publish?
  }

  predicate IsStop(w: Worker) {
    w.Drain? || w.Take? || w.Shut? || w.Clear?
  }

  predicate AllClosed(runtimes: seq<Runtime>) {
    forall r :: 0 <= r < |runtimes| ==> !runtimes[r].isOpen
  }

  predicate OnlyOpen(runtimes: seq<Runtime>, rt: nat) {
    rt < |runtimes| && runtimes[rt].isOpen && forall r :: 0 <= r < |runtimes| && r != rt ==> !runtimes[r].isOpen
  }

  predicate LoansOn(loans: seq<Loan>, rt: nat) {
    forall i :: 0 <= i < |loans| && loans[i].active ==> loans[i].rt == rt
  }

  /** What a start worker holds. */
  predicate StartOk(b: Bot, w: Worker) {
    if w.Boot? || w.Abort? || w.Publish? then OnlyOpen(b.runtimes, w.rt) else AllClosed(b.runtimes)
  }

  /** What a stop worker has done so far. */
  predicate StopOk(b: Bot, w: Worker)
    requires b.runtime.Some?
  {
    && (w.Shut? ==> w.taken == b.runtime)
    && (if w.Clear? then AllClosed(b.runtimes) else OnlyOpen(b.runtimes, b.runtime.value))
    && (w.Drain? || Unborrowed(b.loans))
  }

  predicate ShutdownOk(b: Bot)
    requires b.runtime.Some?
  {
    && (b.phase.Taken? ==> b.phase.rt == b.runtime)
    && (if b.phase.Released? then AllClosed(b.runtimes) else OnlyOpen(b.runtimes, b.runtime.value))
    && (b.phase.Draining? || Unborrowed(b.loans))
  }

  /** Shutdown has taken the runtime over. */
  predicate Winding(b: Bot) {
    b.phase.Draining? || b.phase.Drained? || b.phase.Taken? || b.phase.Released?
  }

  predicate PastJoin(b: Bot) {
    !b.phase.NotAsked? && !b.phase.Asked?
  }

  predicate PastWait(b: Bot) {
    PastJoin(b) && !b.phase.Joined?
  }

  predicate AtRest(state: LifeState) {
    state == Stopped || state == Failed || state == Archived
  }

  /** At most worker k is at work. */
  predicate OnlyWorker(workers: seq<Worker>, k: nat) {
    k < |workers| && forall i :: 0 <= i < |workers| && i != k ==> workers[i].Gone?
  }

  predicate ByState(b: Bot) {
    match b.state
    case Running => b.runtime.Some? && OnlyOpen(b.runtimes, b.runtime.value) && LoansOn(b.loans, b.runtime.value) && Quiesced(b.workers)
    case Starting =>
      b.runtime.None? && Unborrowed(b.loans)
      && exists k :: 0 <= k < |b.workers| && OnlyWorker(b.workers, k) && IsStart(b.workers[k]) && StartOk(b, b.workers[k])
    case Stopping =>
      b.runtime.Some? && LoansOn(b.loans, b.runtime.value)
      && (if Winding(b) then Quiesced(b.workers) && ShutdownOk(b)
          else exists k :: 0 <= k < |b.workers| && OnlyWorker(b.workers, k) && IsStop(b.workers[k]) && StopOk(b, b.workers[k]))
    case _ => b.runtime.None? && AllClosed(b.runtimes) && Unborrowed(b.loans) && Quiesced(b.workers)
  }

  predicate ClosedOnce(runtimes: seq<Runtime>) {
    forall r :: 0 <= r < |runtimes| ==> runtimes[r].closes == if runtimes[r].isOpen then 0 else 1
  }

  predicate Inv(b: Bot) {
    && ByState(b) && ClosedOnce(b.runtimes)
    && (b.lock.Reader? ==> AtRest(b.state))
    && (b.lock.Accepted? ==> (if b.lock.op.StopOp? then b.state != Starting else AtRest(b.state)) && (b.lock.op.StartOp? ==> !b.desired.archived))
    && (b.lock.Accepted? && b.lock.op.ArchiveOp? ==> b.desired.archived)
    && b.desired == b.saved && (b.desired.archived ==> AtRest(b.state) && !b.desired.running)
    && (PastJoin(b) ==> !b.lock.Accepted?) && (!b.phase.NotAsked? ==> b.closing)
    && (PastWait(b) ==> Quiesced(b.workers)) && (Winding(b) ==> b.state == Stopping)
    && (b.phase.Finished? ==> AtRest(b.state))
    && (!b.serving ==> AtRest(b.state) && b.phase.NotAsked? && b.lock.Free?)
  }
}
