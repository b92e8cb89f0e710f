/** The handler calls of a conversation over every run with crashes and restarts: one at a time and
    in arrival order (internal/messaging/service.go). */
module ConversationCalls {
  import opened Protocol
  import opened Journal
  import opened DurableLog
  import opened Delivery
  import opened DeliveryInvariant
  import opened DeliverySteps
  import opened DeliveryTheorems

  // ---- What a longer history keeps ----

  /** Works keep their message and their place, and done works stay done. */
  predicate Later(x: Index, y: Index) {
    && (forall k :: k in x.work ==>
          && k in y.work && y.work[k].message == x.work[k].message
          && (x.work[k].state == Done ==> y.work[k].state == Done))
    && (forall s :: 0 <= s < WORKER_COUNT ==> x.queues[s] <= y.queues[s])
  }

  lemma NextLater(x: Index, c: Change)
    requires WorkInv(x) && LegalChange(x, c)
    ensures Later(x, Next(x, c))
  {
    hide Next;
    hide LegalChange;
    hide WorkInv;
    hide WorkShard;
    if c.Move? || c.Event? {
      NextTouched(x, c);
    } else if c.Receive? && c.queued {
      NextEnqueued(x, c);
    } else {
      NextApart(x, c);
    }
  }

  lemma LaterYet(x: Index, y: Index, z: Index)
    requires Later(x, y) && Later(y, z)
    ensures Later(x, z)
  {
  }

  lemma {:induction false} HistoryLater(before: seq<Change>, after: seq<Change>)
    requires before <= after && Legal(after)
    ensures Later(After(before), After(after))
    decreases |after|
  {
    if before != after {
      var front := after[..|after| - 1];
      HistoryLater(before, front);
      AfterInv(front);
      NextLater(After(front), after[|after| - 1]);
      hide Next;
      hide LegalChange;
      hide Later;
      hide Inv;
      LaterYet(After(before), After(front), After(after));
    }
  }

  lemma HeadLater(x: Index, y: Index, k: string)
    requires Later(x, y) && IsHead(x, k)
    ensures IsHead(y, k)
  {
    hide WorkShard;
    var queue := x.queues[WorkShard(x.work[k].message)];
    var i :| 0 <= i < |queue| && queue[i] == k && DoneBefore(x, queue, i);
    var longer := y.queues[WorkShard(y.work[k].message)];
    assert queue <= longer;
    assert longer[i] == k && DoneBefore(y, longer, i);
  }

  // ---- Order ----

  function ShardOf(x: Index, k: string): nat
    requires k in x.work
  {
    WorkShard(x.work[k].message)
  }

  /** Work a is done and arrived before b in the queue they share. */
  predicate DoneAhead(x: Index, a: string, b: string) {
    && a in x.work && x.work[a].state == Done
    && var queue := x.queues[ShardOf(x, a)]; exists p, q :: 0 <= p < q < |queue| && queue[p] == a && queue[q] == b
  }

  lemma DoneAheadLater(x: Index, y: Index, a: string, b: string)
    requires Later(x, y) && DoneAhead(x, a, b)
    ensures DoneAhead(y, a, b)
  {
    hide WorkShard;
    var queue := x.queues[ShardOf(x, a)];
    var p, q :| 0 <= p < q < |queue| && queue[p] == a && queue[q] == b;
    var longer := y.queues[ShardOf(y, a)];
    assert queue <= longer;
    assert longer[p] == a && longer[q] == b;
  }

  /** Of two works that have been first in their queue, the one not done is the later one. */
  lemma HeadsCompare(x: Index, a: string, b: string)
    requires IsHead(x, a) && IsHead(x, b) && ShardOf(x, a) == ShardOf(x, b) && x.work[b].state != Done
    ensures a == b || DoneAhead(x, a, b)
  {
    hide WorkShard;
    var queue := x.queues[ShardOf(x, a)];
    var p :| 0 <= p < |queue| && queue[p] == a && DoneBefore(x, queue, p);
    var q :| 0 <= q < |queue| && queue[q] == b && DoneBefore(x, queue, q);
    if p > q {
      assert false;
    }
  }

  // ---- The calls ----

  predicate HandlesCall(m: Machine, s: nat, i: nat) {
    WorkerAt(m, s).Handling? && WorkerAt(m, s).call == i
  }

  /** A call that still runs was running before, and its worker has not moved on. */
  ghost predicate CallGoesOn(m: Machine, n: Machine, i: nat) {
    i < |m.invocations| && i < |n.invocations| && n.invocations[i].outcome == Running ==>
      && m.invocations[i].outcome == Running
      && forall s :: HandlesCall(m, s, i) ==> HandlesCall(n, s, i)
  }

  lemma ReturnGoesOn(cfg: Config, m: Machine, s: nat, result: Result, io: Io, i: nat)
    ensures CallGoesOn(m, ReturnStep(cfg, m, s, result, io), i)
  {
    hide Emit;
    hide SetWork;
    hide IsCommand;
  }

  lemma ConsiderGoesOn(cfg: Config, m: Machine, s: nat, o: Outlook, io: Io, i: nat)
    ensures CallGoesOn(m, ConsiderStep(cfg, m, s, o, io), i)
  {
    hide Emit;
    hide SetWork;
    hide Decide;
    hide IsCommand;
  }

  lemma StreamGoesOn(cfg: Config, m: Machine, s: nat, text: string, io: Io, i: nat)
    ensures CallGoesOn(m, StreamStep(cfg, m, s, text, io), i)
  {
    hide Emit;
    hide IsCommand;
  }

  lemma ReplyGoesOn(cfg: Config, m: Machine, s: nat, io: Io, i: nat)
    ensures CallGoesOn(m, ReplyStep(cfg, m, s, io), i)
  {
    hide Emit;
  }

  /** The call that Begin makes is its worker's. */
  lemma BeginGoesOn(cfg: Config, m: Machine, s: nat, io: Io, i: nat)
    ensures CallGoesOn(m, BeginStep(cfg, m, s, io), i)
    ensures var n := BeginStep(cfg, m, s, io);
            |n.invocations| > |m.invocations| ==> |n.invocations| == |m.invocations| + 1 && HandlesCall(n, s, |m.invocations|)
  {
    hide Emit;
    hide IsCommand;
  }

  lemma StepGoesOn(cfg: Config, m: Machine, a: Action, i: nat)
    ensures CallGoesOn(m, Step(cfg, m, a), i)
  {
    match a
    case Consider(s, o, io) => ConsiderGoesOn(cfg, m, s, o, io, i);
    case Begin(s, io) => BeginGoesOn(cfg, m, s, io, i);
    case Stream(s, text, io) => StreamGoesOn(cfg, m, s, text, io, i);
    case Return(s, result, io) => ReturnGoesOn(cfg, m, s, result, io, i);
    case Reply(s, io) => ReplyGoesOn(cfg, m, s, io, i);
    case Settle(key, io) => SettleGoesOn(cfg, m, key, io, i);
    case _ => QuietGoesOn(cfg, m, a, i);
  }

  lemma SettleGoesOn(cfg: Config, m: Machine, key: string, io: Io, i: nat)
    ensures CallGoesOn(m, SettleStep(cfg, m, key, io), i)
  {
    hide Emit;
    hide SetWork;
    hide IsCommand;
  }

  /** Steps that are no conversation worker's: only a crash ends calls. */
  lemma QuietGoesOn(cfg: Config, m: Machine, a: Action, i: nat)
    requires a.Boot? || a.Serve? || a.Crash? || a.Publish? || a.Receive? || a.Pick? || a.TakePending? || a.FlushBegin? || a.FlushEnd?
    ensures CallGoesOn(m, Step(cfg, m, a), i)
  {
    hide Write;
    hide Replay;
    hide FirstOpen;
    hide Previous;
    hide MakesWork;
    hide OverCapacity;
    hide IsCommand;
  }

  // ---- The invariant ----

  predicate CallReached(m: Machine, x: Index, i: nat)
    requires i < |m.invocations|
  {
    && IsHead(x, m.invocations[i].key)
    && (m.invocations[i].outcome == Running ==> HandlesCall(m, ShardOf(x, m.invocations[i].key), i))
  }

  /** Call i of a conversation worker ended before call j began; it was for the same work or for
      one that arrived earlier and is done. */
  predicate CallPrecedes(m: Machine, x: Index, i: nat, j: nat)
    requires i < j < |m.invocations|
  {
    var a, b := m.invocations[i].key, m.invocations[j].key;
    a in x.work && b in x.work && ShardOf(x, a) == ShardOf(x, b) ==>
      m.invocations[i].outcome != Running && (a == b || DoneAhead(x, a, b))
  }

  predicate CallsOrdered(m: Machine) {
    && (forall i :: 0 <= i < |m.invocations| ==> CallReached(m, After(m.history), i))
    && (forall i, j :: 0 <= i < j < |m.invocations| ==> CallPrecedes(m, After(m.history), i, j))
  }

  lemma OldCallReached(m: Machine, n: Machine, x: Index, y: Index, i: nat)
    requires i < |m.invocations| <= |n.invocations| && n.invocations[i].key == m.invocations[i].key
    requires Later(x, y) && CallReached(m, x, i) && CallGoesOn(m, n, i)
    ensures CallReached(n, y, i)
  {
    hide WorkShard;
    HeadLater(x, y, m.invocations[i].key);
    hide IsHead;
    hide HandlesCall;
  }

  lemma OldCallPrecedes(m: Machine, n: Machine, x: Index, y: Index, i: nat, j: nat)
    requires i < j < |m.invocations| <= |n.invocations| && CallPrecedes(m, x, i, j) && Later(x, y)
    requires n.invocations[i].key == m.invocations[i].key && n.invocations[j].key == m.invocations[j].key
    requires CallReached(m, x, i) && CallReached(m, x, j) && CallGoesOn(m, n, i)
    ensures CallPrecedes(n, y, i, j)
  {
    hide WorkShard;
    var a, b := m.invocations[i].key, m.invocations[j].key;
    if DoneAhead(x, a, b) {
      DoneAheadLater(x, y, a, b);
    }
    hide DoneAhead;
    hide HandlesCall;
  }

  /** The call that a worker begins comes after every call of its queue. */
  lemma NewCallPrecedes(m: Machine, n: Machine, x: Index, y: Index, i: nat, s: nat)
    requires i < |m.invocations| && |n.invocations| == |m.invocations| + 1 && Later(x, y)
    requires n.invocations[i].key == m.invocations[i].key && CallReached(m, x, i) && CallGoesOn(m, n, i)
    requires WorkerAt(m, s).Entered? && n.invocations[|m.invocations|].key == WorkerAt(m, s).work.key
    requires Owns(x, s, WorkerAt(m, s).work) && WorkerAt(m, s).work.state == Admitted
    ensures CallPrecedes(n, y, i, |m.invocations|)
  {
    hide WorkShard;
    var a, b := m.invocations[i].key, WorkerAt(m, s).work.key;
    if ShardOf(x, a) == s {
      HeadsCompare(x, a, b);
      if DoneAhead(x, a, b) {
        DoneAheadLater(x, y, a, b);
      }
    }
    hide DoneAhead;
    hide IsHead;
  }

  /** The calls of n are those of m, and perhaps the one that worker s began. */
  ghost predicate CallsGoOn(m: Machine, n: Machine, s: nat) {
    && |m.invocations| <= |n.invocations| <= |m.invocations| + 1
    && (forall i :: 0 <= i < |m.invocations| ==> n.invocations[i].key == m.invocations[i].key && CallGoesOn(m, n, i))
    && (|n.invocations| > |m.invocations| ==>
          && WorkerAt(m, s).Entered? && n.invocations[|m.invocations|].key == WorkerAt(m, s).work.key
          && HandlesCall(n, s, |m.invocations|))
  }

  lemma StepCallsGoOn(cfg: Config, m: Machine, a: Action)
    ensures CallsGoOn(m, Step(cfg, m, a), if a.Begin? then a.shard else 0)
  {
    hide Step;
    hide CallGoesOn;
    hide HandlesCall;
    hide WorkerAt;
    StepGrows(cfg, m, a);
    BeginCallsGoOn(cfg, m, a);
    var n := Step(cfg, m, a);
    if |n.invocations| > |m.invocations| {
      var begun := n.invocations[|m.invocations|];
      assert a.Begin? && begun.key == WorkerAt(m, a.shard).work.key;
    }
    forall i | 0 <= i < |m.invocations| ensures CallGoesOn(m, n, i) {
      StepGoesOn(cfg, m, a, i);
    }
  }

  lemma BeginCallsGoOn(cfg: Config, m: Machine, a: Action)
    ensures var n := Step(cfg, m, a);
            a.Begin? && |n.invocations| > |m.invocations| ==>
              |n.invocations| == |m.invocations| + 1 && HandlesCall(n, a.shard, |m.invocations|)
  {
    if a.Begin? {
      BeginGoesOn(cfg, m, a.shard, a.io, 0);
      assert Step(cfg, m, a) == BeginStep(cfg, m, a.shard, a.io);
    }
    hide Step;
    hide BeginStep;
  }

  lemma AllReached(m: Machine, n: Machine, x: Index, y: Index, s: nat)
    requires CallsGoOn(m, n, s) && Later(x, y)
    requires forall i :: 0 <= i < |m.invocations| ==> CallReached(m, x, i)
    requires WorkerAt(m, s).Entered? ==> Owns(x, s, WorkerAt(m, s).work)
    ensures forall i :: 0 <= i < |n.invocations| ==> CallReached(n, y, i)
  {
    if |n.invocations| > |m.invocations| {
      NewCallReached(x, y, s, WorkerAt(m, s).work);
    }
    hide Later;
    hide IsHead;
    hide WorkShard;
    hide HandlesCall;
    hide WorkerAt;
    hide CallGoesOn;
    forall i | 0 <= i < |n.invocations| ensures CallReached(n, y, i) {
      if i < |m.invocations| {
        OldCallReached(m, n, x, y, i);
      }
    }
  }

  lemma AllPrecede(m: Machine, n: Machine, x: Index, y: Index, s: nat)
    requires CallsGoOn(m, n, s) && Later(x, y)
    requires forall i :: 0 <= i < |m.invocations| ==> CallReached(m, x, i)
    requires forall i, j :: 0 <= i < j < |m.invocations| ==> CallPrecedes(m, x, i, j)
    requires WorkerAt(m, s).Entered? ==> Owns(x, s, WorkerAt(m, s).work) && WorkerAt(m, s).work.state == Admitted
    ensures forall i, j :: 0 <= i < j < |n.invocations| ==> CallPrecedes(n, y, i, j)
  {
    hide Later;
    hide Owns;
    hide HandlesCall;
    hide WorkerAt;
    hide CallGoesOn;
    hide CallReached;
    hide CallPrecedes;
    forall i, j | 0 <= i < j < |n.invocations| ensures CallPrecedes(n, y, i, j) {
      if j < |m.invocations| {
        OldCallPrecedes(m, n, x, y, i, j);
      } else {
        NewCallPrecedes(m, n, x, y, i, s);
      }
    }
  }

  lemma OrderedAfter(m: Machine, n: Machine, s: nat)
    requires CallsOrdered(m) && CallsGoOn(m, n, s) && Later(After(m.history), After(n.history))
    requires WorkerAt(m, s).Entered? ==>
               Owns(After(m.history), s, WorkerAt(m, s).work) && WorkerAt(m, s).work.state == Admitted
    ensures CallsOrdered(n)
  {
    hide After;
    hide Later;
    hide Owns;
    hide WorkerAt;
    hide CallsGoOn;
    hide CallReached;
    hide CallPrecedes;
    AllReached(m, n, After(m.history), After(n.history), s);
    AllPrecede(m, n, After(m.history), After(n.history), s);
  }

  lemma StepOrdered(cfg: Config, m: Machine, a: Action)
    requires MachineInv(cfg, m) && CallsOrdered(m)
    ensures CallsOrdered(Step(cfg, m, a))
  {
    var s := if a.Begin? then a.shard else 0;
    StepKeeps(cfg, m, a);
    StepGrows(cfg, m, a);
    HistoryLater(m.history, Step(cfg, m, a).history);
    StepCallsGoOn(cfg, m, a);
    if WorkerAt(m, s).Entered? {
      WorkerHolds(cfg, m, s);
    }
    hide Step;
    hide CallsOrdered;
    hide CallsGoOn;
    hide Later;
    OrderedAfter(m, Step(cfg, m, a), s);
  }

  lemma NewCallReached(x: Index, y: Index, s: nat, w: Work)
    requires Later(x, y) && Owns(x, s, w)
    ensures IsHead(y, w.key) && ShardOf(y, w.key) == s
  {
    HeadLater(x, y, w.key);
    hide WorkShard;
  }

  lemma {:induction false} RunOrdered(cfg: Config, actions: seq<Action>)
    ensures MachineInv(cfg, Run(cfg, FRESH_MACHINE, actions)) && CallsOrdered(Run(cfg, FRESH_MACHINE, actions))
  {
    if actions == [] {
      FreshInv(cfg);
    } else {
      var before := actions[..|actions| - 1];
      RunOrdered(cfg, before);
      StepOrdered(cfg, Run(cfg, FRESH_MACHINE, before), actions[|actions| - 1]);
      StepKeeps(cfg, Run(cfg, FRESH_MACHINE, before), actions[|actions| - 1]);
      hide Step;
      hide MachineInv;
      hide CallsOrdered;
    }
  }

  /** Of any two handler calls for one conversation, in any run: the earlier call was over when the
      later began, and it was for the same message or for one that arrived before it and is done.
      Messages that share sender, agent and session share their worker. */
  lemma CallsInArrivalOrder(cfg: Config, actions: seq<Action>, i: nat, j: nat)
    requires i < j < |Run(cfg, FRESH_MACHINE, actions).invocations|
    ensures var m := Run(cfg, FRESH_MACHINE, actions);
            var x, a, b := After(m.history), m.invocations[i].key, m.invocations[j].key;
            && a in x.work && b in x.work
            && (ShardOf(x, a) == ShardOf(x, b) ==>
                  m.invocations[i].outcome != Running && (a == b || DoneAhead(x, a, b)))
  {
    RunOrdered(cfg, actions);
    var m := Run(cfg, FRESH_MACHINE, actions);
    assert CallPrecedes(m, After(m.history), i, j);
    assert CallReached(m, After(m.history), i) && CallReached(m, After(m.history), j);
    hide Run;
  }
}
