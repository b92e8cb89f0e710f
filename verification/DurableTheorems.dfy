/** What every legal journal history guarantees: replay, event chains, run event sequences,
    conversation order and the command counter. */
module DurableTheorems {
  import opened Wrappers
  import opened Protocol
  import opened Journal
  import opened DurableLog

  // ---- Prefixes of a history ----

  lemma {:induction false} LegalPrefix(cs: seq<Change>, k: nat)
    requires Legal(cs) && k <= |cs|
    ensures Legal(cs[..k])
  {
    if k == |cs| {
      assert cs[..k] == cs;
    } else {
      LegalPrefix(cs[..|cs| - 1], k);
      assert cs[..|cs| - 1][..k] == cs[..k];
    }
  }

  lemma {:induction false} LogPrefix(cs: seq<Change>, k: nat)
    requires k <= |cs|
    ensures |LogOf(cs)| == |cs| && LogOf(cs)[..k] == LogOf(cs[..k])
  {
    if cs == [] {
    } else if k == |cs| {
      LogPrefix(cs[..|cs| - 1], |cs| - 1);
      assert cs[..k] == cs && LogOf(cs)[..k] == LogOf(cs);
    } else {
      LogPrefix(cs[..|cs| - 1], k);
      assert cs[..|cs| - 1][..k] == cs[..k];
      assert LogOf(cs)[..k] == LogOf(cs[..|cs| - 1])[..k];
    }
  }

  // ---- Replay ----

  /** Stripping the work message from a legal record loses nothing. */
  lemma WireIsEnough(x: Index, c: Change)
    requires WorkInv(x) && LegalChange(x, c)
    ensures ApplyRecord(x, Wire(RecordOf(x, c))) == ApplyRecord(x, RecordOf(x, c))
  {
    if c.Move? || c.Event? {
      assert WorkOk(x, ChangedKey(c), x.work[ChangedKey(c)]);
    } else if c.Receive? && c.queued {
      var k := MessageKey(c.item);
      assert k in x.work ==> WorkOk(x, k, x.work[k]);
    }
  }

  lemma ReplayStep(x: Index, log: seq<Record>, r: Record)
    requires Replay(WireLog(log)) == x == Replay(log)
    requires ApplyRecord(x, Wire(r)) == ApplyRecord(x, r)
    ensures Replay(WireLog(log + [r])) == ApplyRecord(x, r) == Replay(log + [r])
  {
    ReplayAppend(log, r);
    ReplayAppend(WireLog(log), Wire(r));
    assert WireLog(log + [r]) == WireLog(log) + [Wire(r)];
  }

  /** The stripped records on disk rebuild the live index: publications, keys, inbox, received
      set, work table, conversation queues, tails and the pending-command counter. */
  lemma {:induction false} ReplayRebuilds(cs: seq<Change>)
    requires Legal(cs)
    ensures Replay(WireLog(LogOf(cs))) == After(cs) == Replay(LogOf(cs))
  {
    if cs == [] {
      assert WireLog([]) == [];
    } else {
      var before := cs[..|cs| - 1];
      var x := After(before);
      ReplayRebuilds(before);
      AfterInv(before);
      WireIsEnough(x, cs[|cs| - 1]);
      ReplayStep(x, LogOf(before), RecordOf(x, cs[|cs| - 1]));
    }
  }

  /** A crash that leaves any prefix of the bytes: opening the file yields exactly the live index
      after the changes whose records are whole, and the file of exactly those changes. */
  lemma CrashRecovery(codec: Codec, cs: seq<Change>, n: nat)
    requires Faithful(codec) && Legal(cs) && n <= |FileOf(codec, LogOf(cs))|
    ensures var k := WholeRecords(codec, LogOf(cs), n);
            && k <= |cs| && Legal(cs[..k])
            && Load(codec, FileOf(codec, LogOf(cs))[..n], EMPTY)
               == Loaded(After(cs[..k]), |FileOf(codec, LogOf(cs[..k]))|)
            && |FileOf(codec, LogOf(cs[..k]))| <= n
            && FileOf(codec, LogOf(cs))[..|FileOf(codec, LogOf(cs[..k]))|] == FileOf(codec, LogOf(cs[..k]))
  {
    var log := LogOf(cs);
    LogPrefix(cs, 0);
    var k := WholeRecords(codec, log, n);
    LogPrefix(cs, k);
    LegalPrefix(cs, k);
    CutAnywhere(codec, log, n);
    WholeRecordsFit(codec, log, n);
    ReplayRebuilds(cs[..k]);
  }

  // ---- Event chains in the outbox ----

  /** The envelope a change adds to the outbox. */
  function OutboxEnvelope(c: Change): Option<Envelope> {
    match c
    case ClientPublish(env, _, _) => Some(env)
    case Event(_, env, _, _) => Some(env)
    case _ => None
  }

  predicate OnChain(c: Change, chain: string) {
    OutboxEnvelope(c).Some? && OutboxEnvelope(c).value.runId != "" && EventKey(OutboxEnvelope(c).value) == chain
  }

  /** IDs of the events of one execution, in journal order. */
  function Chain(cs: seq<Change>, chain: string): seq<string> {
    if cs == [] then []
    else
      var rest := Chain(cs[..|cs| - 1], chain);
      var c := cs[|cs| - 1];
      if OnChain(c, chain) then rest + [OutboxEnvelope(c).value.id] else rest
  }

  /** Event i of a chain is in the outbox and names event i - 1. */
  predicate LinkAt(x: Index, ids: seq<string>, i: nat)
    requires i < |ids|
  {
    ids[i] in x.publications && x.publications[ids[i]].previous == (if i == 0 then "" else ids[i - 1])
  }

  predicate Distinct(ids: seq<string>) {
    forall i, j :: 0 <= i < j < |ids| ==> ids[i] != ids[j]
  }

  predicate Linked(x: Index, ids: seq<string>, chain: string) {
    && (forall i {:trigger LinkAt(x, ids, i)} :: 0 <= i < |ids| ==> LinkAt(x, ids, i))
    && Distinct(ids)
    && (chain in x.tails <==> ids != [])
    && (ids != [] ==> x.tails[chain] == ids[|ids| - 1])
  }

  lemma AddedKeepsLinks(x: Index, y: Index, p: Publication, ids: seq<string>, chain: string, i: nat)
    requires Linked(x, ids, chain) && Added(x, y, p) && i < |ids|
    ensures LinkAt(y, ids, i) && ids[i] != p.message.id
  {
    hide EventKey;
    assert LinkAt(x, ids, i);
  }

  lemma AddedOffChain(x: Index, y: Index, p: Publication, ids: seq<string>, chain: string)
    requires Linked(x, ids, chain) && Added(x, y, p) && (p.message.runId == "" || EventKey(p.message) != chain)
    ensures Linked(y, ids, chain)
  {
    hide EventKey;
    forall i {:trigger LinkAt(y, ids, i)} | 0 <= i < |ids| ensures LinkAt(y, ids, i) {
      AddedKeepsLinks(x, y, p, ids, chain, i);
    }
  }

  lemma AddedIsNew(x: Index, y: Index, p: Publication, ids: seq<string>, chain: string)
    requires Linked(x, ids, chain) && Added(x, y, p)
    ensures Distinct(ids + [p.message.id])
  {
    forall i | 0 <= i < |ids| ensures ids[i] != p.message.id {
      AddedKeepsLinks(x, y, p, ids, chain, i);
    }
  }

  lemma AddedOnChain(x: Index, y: Index, p: Publication, ids: seq<string>, chain: string)
    requires Linked(x, ids, chain) && Added(x, y, p) && p.previous == Previous(x, p.message)
    requires p.message.runId != "" && EventKey(p.message) == chain
    ensures Linked(y, ids + [p.message.id], chain)
  {
    var more := ids + [p.message.id];
    PreviousOnChain(x, p.message, ids, chain);
    AddedIsNew(x, y, p, ids, chain);
    assert LinkAt(y, more, |ids|);
    hide EventKey;
    hide Previous;
    hide Distinct;
    forall i {:trigger LinkAt(y, more, i)} | 0 <= i < |more| ensures LinkAt(y, more, i) {
      if i < |ids| {
        AddedKeepsLinks(x, y, p, ids, chain, i);
        assert LinkAt(y, ids, i);
      }
    }
  }

  lemma PreviousOnChain(x: Index, env: Envelope, ids: seq<string>, chain: string)
    requires Linked(x, ids, chain) && env.runId != "" && EventKey(env) == chain
    ensures Previous(x, env) == (if ids == [] then "" else ids[|ids| - 1])
  {
  }

  lemma ConfirmedLinked(x: Index, y: Index, id: string, ids: seq<string>, chain: string)
    requires Linked(x, ids, chain) && Confirmed(x, y, id)
    ensures Linked(y, ids, chain)
  {
    forall i | 0 <= i < |ids| ensures LinkAt(y, ids, i) {
      assert LinkAt(x, ids, i);
    }
  }

  lemma SameLinked(x: Index, y: Index, ids: seq<string>, chain: string)
    requires Linked(x, ids, chain) && SameOutbox(x, y)
    ensures Linked(y, ids, chain)
  {
    forall i | 0 <= i < |ids| ensures LinkAt(y, ids, i) {
      assert LinkAt(x, ids, i);
    }
  }

  lemma NextLinked(x: Index, c: Change, ids: seq<string>, chain: string)
    requires Inv(x) && LegalChange(x, c) && Linked(x, ids, chain)
    ensures Linked(Next(x, c), if OnChain(c, chain) then ids + [OutboxEnvelope(c).value.id] else ids, chain)
  {
    hide Linked;
    hide LegalChange;
    hide PubInv;
    hide WorkInv;
    hide KeyInv;
    hide QueueInv;
    hide CountInv;
    hide Next;
    if c.ClientPublish? || c.Event? {
      NextAdded(x, c);
      if OnChain(c, chain) {
        AddedOnChain(x, Next(x, c), NewPublication(x, c), ids, chain);
      } else {
        AddedOffChain(x, Next(x, c), NewPublication(x, c), ids, chain);
      }
    } else if c.Published? {
      NextConfirmed(x, c);
      ConfirmedLinked(x, Next(x, c), c.id, ids, chain);
    } else {
      NextSameOutbox(x, c);
      SameLinked(x, Next(x, c), ids, chain);
    }
  }

  /** In every history, each event names the event before it, whoever published it. */
  lemma {:induction false} ChainLinked(cs: seq<Change>, chain: string)
    requires Legal(cs)
    ensures Linked(After(cs), Chain(cs, chain), chain)
  {
    if cs != [] {
      var before := cs[..|cs| - 1];
      ChainLinked(before, chain);
      AfterInv(before);
      NextLinked(After(before), cs[|cs| - 1], Chain(before, chain), chain);
    }
  }

  lemma {:induction false} PublishedDown(x: Index, ids: seq<string>, chain: string, i: nat, j: nat)
    requires PubInv(x) && Linked(x, ids, chain)
    requires i <= j < |ids| && LinkAt(x, ids, j) && x.publications[ids[j]].published
    ensures ids[i] in x.publications && x.publications[ids[i]].published
    decreases j - i
  {
    assert LinkAt(x, ids, i);
    if i < j {
      assert LinkAt(x, ids, j - 1);
      assert PubOk(x, ids[j], x.publications[ids[j]]);
      PublishedDown(x, ids, chain, i, j - 1);
    }
  }

  /** The published events of an execution are always a prefix of its events. */
  lemma PublishedIsPrefix(cs: seq<Change>, chain: string, i: nat, j: nat)
    requires Legal(cs)
    requires i <= j < |Chain(cs, chain)| && Chain(cs, chain)[j] in After(cs).publications
    requires After(cs).publications[Chain(cs, chain)[j]].published
    ensures Chain(cs, chain)[i] in After(cs).publications
    ensures After(cs).publications[Chain(cs, chain)[i]].published
  {
    AfterInv(cs);
    ChainLinked(cs, chain);
    assert LinkAt(After(cs), Chain(cs, chain), j);
    PublishedDown(After(cs), Chain(cs, chain), chain, i, j);
  }

  // ---- The events of one work ----

  /** The events the service journalled for a work, in order. */
  function RunEvents(cs: seq<Change>, key: string): seq<Envelope> {
    if cs == [] then []
    else
      var rest := RunEvents(cs[..|cs| - 1], key);
      var c := cs[|cs| - 1];
      if c.Event? && c.eventOf == key then rest + [c.event] else rest
  }

  predicate RunShape(w: Work, events: seq<Envelope>) {
    && |events| == w.seqNo
    && (forall i :: 0 <= i < |events| ==>
          && events[i].seqNo == i + 1 && events[i].runId == w.runId
          && events[i].requestId == w.message.id && events[i].to == w.message.from
          && events[i].agentId == w.message.agentId && events[i].sessionKey == w.message.sessionKey)
    && (forall i :: 0 <= i < |events| ==> IsTerminal(events[i].kind) ==> i == |events| - 1 && w.state == Done)
    && (forall i :: 0 <= i < |events| && !IsTerminal(events[i].kind) ==>
          events[i].kind == (if i == 0 then "run.started" else "run.output.delta"))
    && (|events| >= 2 ==> events[0].kind == "run.started")
    && (events != [] && events[|events| - 1].kind != "run.failed" && IsTerminal(events[|events| - 1].kind) ==> |events| >= 2)
    && (IsCommand(w.message.kind) && w.state == Admitted && w.seqNo > 0 ==> events[0].kind == "run.started")
  }

  lemma NextRunShape(w: Work, events: seq<Envelope>, env: Envelope, result: WorkState)
    requires RunShape(w, events) && w.state != Done && IsCommand(w.message.kind)
    requires EventOk(w, env.kind, result) && EventFor(w, env)
    ensures RunShape(w.(seqNo := w.seqNo + 1, state := result), events + [env])
  {
    hide IsCommand;
    var v, more := w.(seqNo := w.seqNo + 1, state := result), events + [env];
    assert forall i :: 0 <= i < |events| ==> more[i] == events[i] && !IsTerminal(events[i].kind);
    assert more[|events|] == env;
  }

  /** A work's state can move without an event only before any terminal. */
  lemma MovedRunShape(w: Work, events: seq<Envelope>, to: WorkState)
    requires RunShape(w, events) && MoveOk(w, to) && w.state != Done
    requires w.state == Queued ==> w.seqNo <= 1
    requires !IsCommand(w.message.kind) ==> w.seqNo == 0
    ensures RunShape(w.(state := to), events)
  {
  }

  lemma NextRun(x: Index, c: Change, key: string, events: seq<Envelope>)
    requires WorkInv(x) && LegalChange(x, c) && key in x.work && RunShape(x.work[key], events)
    ensures key in Next(x, c).work
    ensures RunShape(Next(x, c).work[key], if c.Event? && c.eventOf == key then events + [c.event] else events)
  {
    hide Next;
    hide RunShape;
    NextWorkAt(x, c, key);
    assert WorkOk(x, key, x.work[key]);
    if c.Event? && c.eventOf == key {
      NextRunShape(x.work[key], events, c.event, c.result);
    }
    if c.Move? && c.workKey == key {
      MovedRunShape(x.work[key], events, c.to);
    }
  }

  lemma BornRun(x: Index, c: Change, key: string)
    requires Inv(x) && LegalChange(x, c) && key !in x.work && key in Next(x, c).work
    ensures RunShape(Next(x, c).work[key], []) && !c.Event?
  {
    hide Next;
    hide LegalChange;
    if c.Move? || c.Event? {
      NextTouched(x, c);
    } else if c.Receive? && c.queued {
      NextEnqueued(x, c);
    } else {
      NextApart(x, c);
    }
  }

  /** In every history the events of a work answer its request, for its agent and in its session,
      carry Seq 1..n without a gap, and the work's own sequence number is n; the first is run.started unless the work failed unstarted, then come
      only output deltas, and a terminal event can only be the last one, the record that makes
      the work done. */
  lemma {:induction false} RunEventSequence(cs: seq<Change>, key: string)
    requires Legal(cs) && key in After(cs).work
    ensures RunShape(After(cs).work[key], RunEvents(cs, key))
  {
    var before := cs[..|cs| - 1];
    var x := After(before);
    AfterInv(before);
    if key in x.work {
      RunEventSequence(before, key);
      NextRun(x, cs[|cs| - 1], key, RunEvents(before, key));
    } else {
      BornRun(x, cs[|cs| - 1], key);
      NothingBefore(before, key);
    }
  }

  /** Clients that reuse an execution's identifiers add their own links to its chain. */
  predicate ClientOnChain(cs: seq<Change>, chain: string) {
    exists i :: 0 <= i < |cs| && cs[i].ClientPublish? && OnChain(cs[i], chain)
  }

  function IdsOf(events: seq<Envelope>): (ids: seq<string>)
    ensures |ids| == |events| && forall i :: 0 <= i < |ids| ==> ids[i] == events[i].id
  {
    seq(|events|, i requires 0 <= i < |events| => events[i].id)
  }

  /** An event of another work is never on this work's chain. */
  lemma OwnChainOnly(x: Index, c: Change, request: Envelope, runId: string)
    requires Inv(x) && LegalChange(x, c) && c.Event? && IsToken(request.from) && IsToken(request.id)
    requires OnChain(c, RunKey(request.from, request.id, runId))
    ensures c.eventOf == MessageKey(request)
  {
    var v := x.work[c.eventOf];
    assert WorkOk(x, c.eventOf, v);
    RunKeyInjective(v.message.from, v.message.id, v.runId, request.from, request.id, runId);
  }

  lemma OwnEventOnChain(x: Index, c: Change, request: Envelope)
    requires Inv(x) && LegalChange(x, c) && c.Event? && c.eventOf == MessageKey(request)
    requires IsToken(request.from) && IsToken(request.id)
    ensures OnChain(c, RunKey(request.from, request.id, x.work[c.eventOf].runId))
  {
    var v := x.work[c.eventOf];
    assert WorkOk(x, c.eventOf, v);
    MessageKeyInjective(v.message, request);
  }

  /** The run identifier of a work never changes. */
  lemma RunIdFixed(x: Index, c: Change, key: string)
    requires WorkInv(x) && LegalChange(x, c) && key in x.work
    ensures key in Next(x, c).work && Next(x, c).work[key].runId == x.work[key].runId
  {
    hide Next;
    NextWorkAt(x, c, key);
  }

  /** A step extends the chain and the run's events alike. */
  lemma SameExtension(x: Index, c: Change, request: Envelope, runId: string)
    requires Inv(x) && LegalChange(x, c) && IsToken(request.from) && IsToken(request.id)
    requires MessageKey(request) in x.work ==> x.work[MessageKey(request)].runId == runId
    requires !(c.ClientPublish? && OnChain(c, RunKey(request.from, request.id, runId)))
    ensures OnChain(c, RunKey(request.from, request.id, runId)) <==> (c.Event? && c.eventOf == MessageKey(request))
  {
    if c.Event? && OnChain(c, RunKey(request.from, request.id, runId)) {
      OwnChainOnly(x, c, request, runId);
    }
    if c.Event? && c.eventOf == MessageKey(request) {
      OwnEventOnChain(x, c, request);
    }
  }

  /** The chain of an execution is exactly its run events, as long as no client publishes under
      the same request and run identifiers; with ChainLinked this makes event i name event i - 1. */
  lemma {:induction false} ChainIsRunEvents(cs: seq<Change>, request: Envelope, runId: string)
    requires Legal(cs) && IsToken(request.from) && IsToken(request.id)
    requires MessageKey(request) in After(cs).work ==> After(cs).work[MessageKey(request)].runId == runId
    requires !ClientOnChain(cs, RunKey(request.from, request.id, runId))
    ensures Chain(cs, RunKey(request.from, request.id, runId)) == IdsOf(RunEvents(cs, MessageKey(request)))
  {
    hide Next;
    hide Inv;
    hide LegalChange;
    hide OnChain;
    if cs != [] {
      var before := cs[..|cs| - 1];
      var c := cs[|cs| - 1];
      var x := After(before);
      AfterInv(before);
      assert forall i :: 0 <= i < |before| ==> before[i] == cs[i];
      if MessageKey(request) in x.work {
        RunIdFixed(x, c, MessageKey(request));
      }
      ChainIsRunEvents(before, request, runId);
      SameExtension(x, c, request, runId);
    }
  }

  // ---- Conversation order, the counter, and finality ----

  /** Keys of the works received for one conversation shard, in arrival order. */
  function Arrivals(cs: seq<Change>, shard: nat): seq<string> {
    if cs == [] then []
    else
      var rest := Arrivals(cs[..|cs| - 1], shard);
      var c := cs[|cs| - 1];
      if c.Receive? && c.queued && WorkShard(c.item) == shard then rest + [MessageKey(c.item)] else rest
  }

  predicate DonePrefix(x: Index, queue: seq<string>) {
    forall i, j :: 0 <= i < j < |queue| ==>
      queue[i] in x.work && queue[j] in x.work && queue[i] != queue[j]
      && (x.work[queue[j]].state == Done ==> x.work[queue[i]].state == Done)
      && !(x.work[queue[i]].state == Admitted && x.work[queue[j]].state == Admitted)
      && (x.work[queue[i]].state != Done ==> Untouched(x.work[queue[j]]))
  }

  lemma {:induction false} QueueIsArrivals(cs: seq<Change>, shard: nat)
    requires Legal(cs) && shard < WORKER_COUNT
    ensures After(cs).queues[shard] == Arrivals(cs, shard)
  {
    if cs != [] {
      var before := cs[..|cs| - 1];
      var c := cs[|cs| - 1];
      QueueIsArrivals(before, shard);
      AfterInv(before);
      if c.Move? || c.Event? {
        NextTouched(After(before), c);
      } else if c.Receive? && c.queued {
        NextEnqueued(After(before), c);
      } else {
        NextApart(After(before), c);
      }
    }
  }

  /** In every history each conversation queue is the arrival order of its works; done works form
      a prefix of it, at most one work is admitted, and nothing behind an open work was touched. */
  lemma ConversationOrder(cs: seq<Change>, shard: nat)
    requires Legal(cs) && shard < WORKER_COUNT
    ensures After(cs).queues[shard] == Arrivals(cs, shard) && DonePrefix(After(cs), Arrivals(cs, shard))
  {
    AfterInv(cs);
    QueueIsArrivals(cs, shard);
    assert QueueOk(After(cs).work, After(cs).queues[shard], shard);
  }

  /** Each work is in the queue of its own conversation, once, and in no other queue. */
  lemma OneQueuePerWork(cs: seq<Change>, key: string, shard: nat, i: nat)
    requires Legal(cs) && key in After(cs).work && shard < WORKER_COUNT
    requires i < |After(cs).queues[shard]| && After(cs).queues[shard][i] == key
    ensures shard == WorkShard(After(cs).work[key].message)
    ensures forall j :: 0 <= j < |After(cs).queues[shard]| && j != i ==> After(cs).queues[shard][j] != key
    ensures key in After(cs).queues[WorkShard(After(cs).work[key].message)]
  {
    AfterInv(cs);
    assert QueueOk(After(cs).work, After(cs).queues[shard], shard);
  }

  /** The incremental counter is the number of commands that are not done, live and after replay. */
  lemma PendingCommandsExact(cs: seq<Change>)
    requires Legal(cs)
    ensures After(cs).pendingCommands == |OpenCommands(After(cs).work)|
    ensures Replay(WireLog(LogOf(cs))).pendingCommands == |OpenCommands(Replay(WireLog(LogOf(cs))).work)|
  {
    AfterInv(cs);
    ReplayRebuilds(cs);
  }

  lemma DoneStays(x: Index, c: Change, key: string)
    requires WorkInv(x) && LegalChange(x, c) && key in x.work && x.work[key].state == Done
    ensures key in Next(x, c).work && Next(x, c).work[key] == x.work[key]
    ensures !(c.Event? && c.eventOf == key)
  {
    hide Next;
    hide LegalChange;
    NextWorkAt(x, c, key);
  }

  /** Once done, a work stays done with the same events, in every continuation. */
  lemma {:induction false} DoneIsFinal(cs: seq<Change>, k: nat, key: string)
    requires Legal(cs) && k <= |cs| && key in After(cs[..k]).work && After(cs[..k]).work[key].state == Done
    ensures key in After(cs).work && After(cs).work[key] == After(cs[..k]).work[key]
    ensures RunEvents(cs, key) == RunEvents(cs[..k], key)
  {
    if k == |cs| {
      assert cs[..k] == cs;
    } else {
      var before := cs[..|cs| - 1];
      assert before[..k] == cs[..k];
      DoneIsFinal(before, k, key);
      AfterInv(before);
      DoneStays(After(before), cs[|cs| - 1], key);
    }
  }

  // ---- How a command ends ----

  predicate EndedByEvent(cs: seq<Change>, key: string) {
    var events := RunEvents(cs, key);
    events != [] && IsTerminal(events[|events| - 1].kind)
  }

  predicate Retirement(c: Change, key: string) {
    c.Move? && c.workKey == key && c.to == Done
  }

  predicate Retired(cs: seq<Change>, key: string) {
    exists i :: 0 <= i < |cs| && Retirement(cs[i], key)
  }

  lemma RetiredAppend(cs: seq<Change>, c: Change, key: string)
    ensures Retired(cs + [c], key) <==> Retired(cs, key) || Retirement(c, key)
  {
    hide Retirement;
    var more := cs + [c];
    if Retired(cs, key) {
      var i :| 0 <= i < |cs| && Retirement(cs[i], key);
      assert Retirement(more[i], key);
    }
    if Retirement(c, key) {
      assert Retirement(more[|cs|], key);
    }
  }

  /** In every history a command is done exactly if its last event is terminal or it was retired
      without one, and never both. */
  lemma {:induction false} DoneByEventOrRetired(cs: seq<Change>, key: string)
    requires Legal(cs) && key in After(cs).work && IsCommand(After(cs).work[key].message.kind)
    ensures After(cs).work[key].state == Done <==> EndedByEvent(cs, key) || Retired(cs, key)
    ensures !(EndedByEvent(cs, key) && Retired(cs, key))
  {
    hide RunEvents;
    hide Retired;
    hide IsCommand;
    hide IsTerminal;
    hide After;
    hide Legal;
    hide Next;
    hide LegalChange;
    hide Inv;
    hide WorkInv;
    assert cs != [] by {
      EmptyAfter();
    }
    LastStep(cs);
    var before := cs[..|cs| - 1];
    var x, c := After(before), cs[|cs| - 1];
    RetiredAppend(before, c, key);
    EventAppend(before, c, key);
    if key in x.work {
      EndOfChange(x, c, key);
      DoneByEventOrRetired(before, key);
    } else {
      BornQueued(x, c, key);
      NothingBefore(before, key);
    }
  }

  lemma LastStep(cs: seq<Change>)
    requires Legal(cs) && cs != []
    ensures var before, c := cs[..|cs| - 1], cs[|cs| - 1];
            && Legal(before) && cs == before + [c] && After(cs) == Next(After(before), c)
            && LegalChange(After(before), c) && Inv(After(before)) && WorkInv(After(before))
  {
    hide Inv;
    hide Next;
    hide LegalChange;
    AfterInv(cs[..|cs| - 1]);
    assert Inv(After(cs[..|cs| - 1])) ==> WorkInv(After(cs[..|cs| - 1])) by {
      hide WorkInv;
    }
  }

  lemma EmptyAfter()
    ensures After([]) == EMPTY && EMPTY.work == map[]
  {
  }

  lemma EventAppend(cs: seq<Change>, c: Change, key: string)
    ensures RunEvents(cs + [c], key) == RunEvents(cs, key) + if c.Event? && c.eventOf == key then [c.event] else []
  {
    assert (cs + [c])[..|cs|] == cs;
  }

  /** A change that ends a command is a terminal event or a retirement. */
  lemma EndOfChange(x: Index, c: Change, key: string)
    requires WorkInv(x) && LegalChange(x, c) && key in x.work
    ensures key in Next(x, c).work && Next(x, c).work[key].message == x.work[key].message
    ensures (c.Event? && c.eventOf == key) || Retirement(c, key) ==> x.work[key].state != Done
    ensures Next(x, c).work[key].state == Done
            <==> x.work[key].state == Done || (c.Event? && c.eventOf == key && IsTerminal(c.event.kind)) || Retirement(c, key)
  {
    hide Next;
    NextWorkAt(x, c, key);
  }

  lemma BornQueued(x: Index, c: Change, key: string)
    requires Inv(x) && LegalChange(x, c) && key !in x.work && key in Next(x, c).work
    ensures Next(x, c).work[key].state == Queued && !Retirement(c, key) && !c.Event?
  {
    hide Next;
    hide LegalChange;
    if c.Move? || c.Event? {
      NextTouched(x, c);
    } else if c.Receive? && c.queued {
      NextEnqueued(x, c);
    } else {
      NextApart(x, c);
    }
  }

  lemma {:induction false} NothingBefore(cs: seq<Change>, key: string)
    requires Legal(cs) && key !in After(cs).work
    ensures RunEvents(cs, key) == [] && !Retired(cs, key)
  {
    hide Next;
    hide LegalChange;
    hide Inv;
    hide WorkInv;
    hide Retired;
    if cs == [] {
      assert !Retired([], key) by {
        NeverRetired(key);
      }
    } else {
      LastStep(cs);
      hide Legal;
      hide After;
      var before, c := cs[..|cs| - 1], cs[|cs| - 1];
      AfterInv(before);
      NextSlotsGrow(After(before), c);
      NothingBefore(before, key);
      RetiredAppend(before, c, key);
      ChangedIsKnown(After(before), c);
    }
  }

  lemma RetirementCause(x: Index, c: Change)
    requires LegalChange(x, c) && c.Move? && c.to == Done
    ensures c.workKey in x.work
    ensures var w := x.work[c.workKey];
            IsCommand(w.message.kind) ==>
              w.state == Queued && (c.cause == RevokedSender || (c.cause == ConsoleChat && w.message.kind == "chat.message"))
  {
    hide IsCommand;
  }

  lemma {:induction false} MessageFixed(cs: seq<Change>, k: nat, key: string)
    requires Legal(cs) && k <= |cs| && key in After(cs[..k]).work
    ensures key in After(cs).work && After(cs).work[key].message == After(cs[..k]).work[key].message
  {
    hide Inv;
    hide WorkInv;
    hide Next;
    hide LegalChange;
    hide After;
    hide Legal;
    if k == |cs| {
      assert cs[..k] == cs;
    } else {
      LastStep(cs);
      var before := cs[..|cs| - 1];
      assert before[..k] == cs[..k];
      MessageFixed(before, k, key);
      EndOfChange(After(before), cs[|cs| - 1], key);
    }
  }

  lemma NeverRetired(key: string)
    ensures !Retired([], key)
  {
  }

  /** A change names a work that is there. */
  lemma ChangedIsKnown(x: Index, c: Change)
    requires LegalChange(x, c)
    ensures c.Move? ==> c.workKey in x.work
    ensures c.Event? ==> c.eventOf in x.work
  {
  }

  /** What a history says about a retirement: a command is retired only as from a revoked sender,
      or as chat to a Console, and always unexecuted or before its next try. */
  lemma RetiredCause(cs: seq<Change>, i: nat)
    requires Legal(cs) && i < |cs| && cs[i].Move? && cs[i].to == Done
    ensures cs[i].workKey in After(cs[..i]).work
    ensures var w := After(cs[..i]).work[cs[i].workKey];
            IsCommand(w.message.kind) ==>
              w.state == Queued && (cs[i].cause == RevokedSender || (cs[i].cause == ConsoleChat && w.message.kind == "chat.message"))
  {
    hide Inv;
    hide Legal;
    hide After;
    hide Next;
    hide IsCommand;
    hide IsHead;
    hide WorkInv;
    LegalPrefix(cs, i + 1);
    assert cs[..i + 1][..i] == cs[..i];
    LastStep(cs[..i + 1]);
    RetirementCause(After(cs[..i]), cs[i]);
  }

  /** A client key names one publication for ever: no second publication carries it, and the
      lookup that answers a repeated request finds that one. */
  lemma IdempotencyKeysUnique(cs: seq<Change>, a: string, b: string)
    requires Legal(cs) && a in After(cs).publications && b in After(cs).publications
    requires After(cs).publications[a].key == After(cs).publications[b].key
    requires !After(cs).publications[a].key.NoKey?
    ensures a == b && After(cs).publications[a].key in After(cs).keys
    ensures After(cs).keys[After(cs).publications[a].key] == a
  {
    AfterInv(cs);
    assert PubOk(After(cs), a, After(cs).publications[a]);
    assert PubOk(After(cs), b, After(cs).publications[b]);
  }
}
