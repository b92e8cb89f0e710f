/** The lock-protected regions of the messaging service as methods on its mutable journal, each
    proved to be a step of the delivery machine (internal/messaging/service.go). */
module MessagingService {
  import opened Wrappers
  import opened Protocol
  import opened Journal
  import opened DurableLog
  import opened Delivery
  import opened DeliveryEffects

  /** The part of the index that replay rebuilds; the live pending list is consumed. */
  function Core(x: Index): Index {
    x.(pending := [])
  }

  lemma CorePublication(x: Index, y: Index, p: Publication)
    requires Core(x) == Core(y)
    ensures Core(ApplyPublication(x, p)) == Core(ApplyPublication(y, p))
  {
  }

  lemma CoreWork(x: Index, y: Index, received: Option<Stored>, w: Work)
    requires Core(x) == Core(y)
    ensures Core(ApplyWork(x, ResolveMessage(x, received, w))) == Core(ApplyWork(y, ResolveMessage(y, received, w)))
  {
    assert ResolveMessage(x, received, w) == ResolveMessage(y, received, w);
  }

  lemma ApplyCore(x: Index, y: Index, r: Record)
    requires Core(x) == Core(y)
    ensures Core(ApplyRecord(x, r)) == Core(ApplyRecord(y, r))
  {
    hide ApplyPublication;
    hide ApplyWork;
    hide ResolveMessage;
    if r.publication.Some? {
      CorePublication(x, y, r.publication.value);
    }
    var x1 := if r.publication.Some? then ApplyPublication(x, r.publication.value) else x;
    var y1 := if r.publication.Some? then ApplyPublication(y, r.publication.value) else y;
    var x2, y2 := ApplyPublished(x1, r.published), ApplyPublished(y1, r.published);
    assert Core(x2) == Core(y2);
    var x3 := if r.received.Some? then ApplyReceived(x2, r.received.value) else x2;
    var y3 := if r.received.Some? then ApplyReceived(y2, r.received.value) else y2;
    assert Core(x3) == Core(y3);
    if r.work.Some? {
      CoreWork(x3, y3, r.received, r.work.value);
    }
  }

  lemma ApplyPending(x: Index, r: Record)
    ensures ApplyRecord(x, r).pending
            == if r.publication.Some? && r.publication.value.message.id !in x.publications
               then x.pending + [r.publication.value.message.id] else x.pending
  {
    hide ResolveMessage;
    hide WorkShard;
    hide EventKey;
    var x1 := if r.publication.Some? then ApplyPublication(x, r.publication.value) else x;
    var x2 := ApplyPublished(x1, r.published);
    assert x2.pending == x1.pending;
    var x3 := if r.received.Some? then ApplyReceived(x2, r.received.value) else x2;
    if r.work.Some? {
      WorkLeavesPending(x3, ResolveMessage(x3, r.received, r.work.value));
    }
    hide ApplyWork;
    hide ApplyPublished;
  }

  lemma WorkLeavesPending(x: Index, w: Work)
    ensures ApplyWork(x, w).pending == x.pending
  {
    hide WorkShard;
    hide IsCommand;
  }

  // ---- What is in the journal afterwards ----

  /** The worker's copy is the journal's entry. */
  predicate Held(x: Index, w: Work) {
    w.key in x.work && x.work[w.key] == w
  }

  /** The journal takes the next event of the work: its slot is free, and so is the generated ID. */
  predicate Takes(x: Index, w: Work, io: Io) {
    io.ok && io.id != "" && io.id !in x.publications && w.runId != ""
  }

  /** The event is new and unpublished in the outbox, under its slot, and the work has moved on. */
  predicate EventStored(cfg: Config, x: Index, y: Index, w: Work, kind: string, payload: Payload, to: WorkState, io: Io) {
    && io.id !in x.publications && io.id in y.publications
    && var p := y.publications[io.id];
    && IsEvent(cfg, w, p.message, kind, payload, io)
    && p.key == EventSlot(w.key, w.runId, w.seqNo + 1) && p.fingerprint == io.hash && !p.published
    && y.publications == x.publications[io.id := p] && y.keys == x.keys[p.key := io.id] && y.pending == x.pending + [io.id]
    && y.work == x.work[w.key := w.(seqNo := w.seqNo + 1, state := to)]
    && y.inbox == x.inbox && y.received == x.received && y.queues == x.queues
  }

  /** The work is in its new state, and nothing else of the tables has changed. */
  predicate StateStored(x: Index, y: Index, w: Work, to: WorkState) {
    && y.work == x.work[w.key := w.(state := to)] && y.publications == x.publications && y.keys == x.keys
    && y.pending == x.pending && y.inbox == x.inbox && y.received == x.received && y.queues == x.queues && y.tails == x.tails
  }

  lemma EventRecord(cfg: Config, x: Index, w: Work, kind: string, payload: Payload, to: WorkState, io: Io, previous: string)
    requires Held(x, w) && io.id !in x.publications
    ensures var p := Publication(EventEnvelope(cfg, w, kind, payload, io), SlotOf(w), io.hash, false, previous);
            EventStored(cfg, x, ApplyRecord(x, Record(Some(p), "", None, Some(NextWork(w, to)))), w, kind, payload, to, io)
  {
    hide IsCommand;
    hide WorkShard;
  }

  lemma StateRecord(x: Index, w: Work, to: WorkState)
    requires Held(x, w)
    ensures StateStored(x, ApplyRecord(x, Record(None, "", None, Some(w.(state := to)))), w, to)
  {
    hide IsCommand;
    hide WorkShard;
  }

  /** The delivery is in the inbox under the next cursor; it is queued as work exactly if the Bot acts
      on its kind, and a command then has its run. */
  predicate DeliveryStored(cfg: Config, x: Index, y: Index, item: Envelope, runId: string) {
    var key := item.from + "/" + item.id;
    var run := if IsCommand(item.kind) && !(cfg.console && item.kind == "chat.message") then runId else "";
    var s := WorkShard(item);
    && y.inbox == x.inbox + [Stored(item, |x.inbox| + 1)] && y.received == x.received + {key}
    && y.work == (if ActedOn(cfg, item.kind) then x.work[key := Work(key, item, Queued, run, 0)] else x.work)
    && y.queues == (if ActedOn(cfg, item.kind) then x.queues[s := x.queues[s] + [key]] else x.queues)
    && y.publications == x.publications && y.keys == x.keys && y.pending == x.pending && y.tails == x.tails
  }

  /** The publication is new in the outbox, the last of its chain, and waits for the publisher. */
  predicate PublicationStored(x: Index, y: Index, p: Publication) {
    var id, chain := p.message.id, p.message.to + "/" + p.message.requestId + "/" + p.message.runId;
    && y.publications == x.publications[id := p] && y.pending == x.pending + [id]
    && y.keys == (if p.key.NoKey? then x.keys else x.keys[p.key := id])
    && y.tails == (if p.message.runId == "" then x.tails else x.tails[chain := id])
    && y.work == x.work && y.inbox == x.inbox && y.received == x.received && y.queues == x.queues
  }

  lemma PublicationRecord(x: Index, p: Publication)
    requires p.message.id !in x.publications
    ensures PublicationStored(x, ApplyRecord(x, Record(Some(p), "", None, None)), p)
  {
  }

  lemma DeliveryRecord(cfg: Config, x: Index, item: Envelope, runId: string)
    requires IsToken(item.id) && MessageKey(item) !in x.work
    ensures var run := if NeedsRun(cfg, item.kind) then runId else "";
            var work := if MakesWork(cfg, item.kind) then Some(Work(MessageKey(item), item, Queued, run, 0)) else None;
            DeliveryStored(cfg, x, ApplyRecord(x, Record(None, "", Some(Stored(item, |x.inbox| + 1)), work)), item, runId)
  {
    hide IsFeedback;
    hide HasPrefix;
    hide WorkShard;
    FeedbackIsNoTransfer();
  }

  /** What the checks before the journal make of a delivery: its form and validity, the sender's
      trust, the sender's key and the signature, in this order. */
  datatype Arrival = Invalid | Untrusted(revoked: bool) | KeyUnknown | BadSignature | Verified

  /** What the checks on a client's request make of it: its form, and after the idempotency check the
      target's trust, the envelope and its size. */
  datatype Verdict = Malformed | Refused | Allowed

  class Service {
    const cfg: Config
    const journal: MessageJournal
    var heads: seq<nat>

    constructor (cfg: Config, journal: MessageJournal)
      ensures this.cfg == cfg && this.journal == journal && HeadsOk()
    {
      this.cfg, this.journal := cfg, journal;
      heads := [0, 0, 0, 0, 0, 0, 0, 0];
    }

    /** The machine m is what this object holds: the same index, pending list and file. */
    ghost predicate Represents(m: Machine)
      reads journal
    {
      && journal.open && Core(m.index) == Core(journal.View()) && m.pending == journal.pending
      && journal.file == FileOf(journal.codec, m.log)
    }

    /** A worker's cursor never passes a work that is not done. */
    ghost predicate HeadsOk()
      reads this, journal
    {
      |heads| == WORKER_COUNT &&
      forall s :: 0 <= s < WORKER_COUNT ==>
        heads[s] <= |journal.queues[s]| && DoneBefore(journal.View(), journal.queues[s], heads[s])
    }

    ghost predicate QueuesListed()
      reads journal
    {
      forall s, i :: 0 <= s < WORKER_COUNT && 0 <= i < |journal.queues[s]| ==> journal.queues[s][i] in journal.work
    }

    /** One durable append is one machine write; a failed one leaves the machine as it is exactly if
        its bytes are cut off again. */
    method Append(record: Record, fault: Option<Fault>, ghost m: Machine, ghost c: Change) returns (ok: bool)
      requires Represents(m)
      modifies journal
      ensures ok == fault.None?
      ensures Represents(if ok then Write(m, record, c) else m) <==> Tidy(fault)
      ensures journal.View() == if ok then ApplyRecord(old(journal.View()), record) else old(journal.View())
    {
      hide ApplyRecord;
      ghost var before := journal.View();
      ok := journal.Append(record, fault);
      if ok {
        ApplyCore(m.index, before, record);
        ApplyPending(before, record);
        FileOfAppend(journal.codec, m.log, record);
      }
    }

    /** setWork. */
    method SetWork(w: Work, to: WorkState, fault: Option<Fault>, ghost cause: Cause, ghost m: Machine) returns (ok: bool)
      requires Represents(m)
      modifies journal
      ensures ok == fault.None?
      ensures Tidy(fault) ==> Represents(Delivery.SetWork(m, w, to, cause, ok))
      ensures ok && Held(old(journal.View()), w) ==> StateStored(old(journal.View()), journal.View(), w, to)
      ensures !ok ==> journal.View() == old(journal.View())
    {
      hide ApplyRecord;
      hide StateStored;
      ghost var x := journal.View();
      ok := Append(Record(None, "", None, Some(w.(state := to))), fault, m, Move(w.key, to, cause));
      if Held(x, w) {
        StateRecord(x, w, to);
      }
    }

    /** enqueue for an execution event: the idempotency check, the chained publication and the one
        append that also carries the work's new state. */
    method Emit(w: Work, kind: string, payload: Payload, to: WorkState, io: Io, fault: Option<Fault>, ghost m: Machine)
      returns (next: Option<Work>)
      requires Represents(m) && (io.ok <==> fault.None?)
      modifies journal
      ensures Tidy(fault) ==> Represents(Delivery.Emit(cfg, m, w, kind, payload, to, io).0)
      ensures next == Delivery.Emit(cfg, m, w, kind, payload, to, io).1 && (next.Some? ==> fault.None?)
      ensures next.Some? ==> next.value == w.(seqNo := w.seqNo + 1, state := to)
      ensures EventSlot(w.key, w.runId, w.seqNo + 1) !in old(journal.keys) ==>
                && (next.Some? <==> Takes(old(journal.View()), w, io))
                && (next.Some? && Held(old(journal.View()), w) ==>
                      EventStored(cfg, old(journal.View()), journal.View(), w, kind, payload, to, io))
      ensures next.None? ==> journal.View() == old(journal.View())
    {
      hide ApplyRecord;
      hide EventStored;
      ghost var x := journal.View();
      var slot := SlotOf(w);
      if w.runId == "" || io.id == "" || io.id in journal.publications || fault.Some? {
        return None;
      }
      if slot in journal.keys {
        var id := journal.keys[slot];
        if id in journal.publications && journal.publications[id].fingerprint == io.hash {
          return Some(NextWork(w, to));
        }
        return None;
      }
      var env := EventEnvelope(cfg, w, kind, payload, io);
      var previous := "";
      if env.runId != "" && EventKey(env) in journal.tails {
        previous := journal.tails[EventKey(env)];
      }
      var publication := Publication(env, slot, io.hash, false, previous);
      var ok := Append(Record(Some(publication), "", None, Some(NextWork(w, to))), fault, m,
                       Event(w.key, env, io.hash, to));
      next := Some(NextWork(w, to));
      if Held(x, w) {
        EventRecord(cfg, x, w, kind, payload, to, io, previous);
      }
    }

    /** enqueue for a client: a malformed request is refused, a known key returns the old publication
        or a conflict, and only then the target's trust and the envelope are judged. */
    method Enqueue(request: Verdict, env: Envelope, key: IdempotencyKey, hash: string, fault: Option<Fault>, ghost m: Machine)
      returns (stored: Option<Publication>)
      requires Represents(m) && !m.phase.Down? && !key.EventSlot? && env.id != ""
      requires env.id !in journal.publications
      requires forall k :: k in journal.keys ==> journal.keys[k] in journal.publications
      modifies journal
      ensures var known := key.ClientKey? && key in m.index.keys;
              var writes := request.Allowed? && !known;
              && (Tidy(fault) || !writes ==> Represents(if writes then PublishStep(m, env, key, hash, fault.None?) else m))
              && (known && !request.Malformed? ==>
                    && m.index.keys[key] in m.index.publications
                    && stored == (var p := m.index.publications[m.index.keys[key]];
                                  if p.fingerprint == hash then Some(p) else None))
              && (writes && fault.None? ==>
                    stored == Some(Publication(env, key, hash, false, Previous(m.index, env))))
              && ((writes && fault.Some?) || (!writes && (request.Malformed? || !known)) ==> stored == None)
      ensures var x, y := old(journal.View()), journal.View();
              var chain := env.to + "/" + env.requestId + "/" + env.runId;
              var previous := if env.runId != "" && chain in x.tails then x.tails[chain] else "";
              if request.Allowed? && !(key.ClientKey? && key in x.keys) && fault.None?
              then PublicationStored(x, y, Publication(env, key, hash, false, previous)) && stored == Some(y.publications[env.id])
              else y == x
    {
      ghost var x := journal.View();
      hide ApplyRecord;
      if request.Malformed? {
        return None;
      }
      if key.ClientKey? && key in journal.keys {
        var p := journal.publications[journal.keys[key]];
        return if p.fingerprint == hash then Some(p) else None;
      }
      if request.Refused? {
        return None;
      }
      var previous := "";
      if env.runId != "" && EventKey(env) in journal.tails {
        previous := journal.tails[EventKey(env)];
      }
      var publication := Publication(env, key, hash, false, previous);
      var ok := Append(Record(Some(publication), "", None, None), fault, m, ClientPublish(env, key, hash));
      stored := if ok then Some(publication) else None;
      PublicationRecord(x, publication);
    }

    /** handleInbox: acknowledged means discarded, or stored now or before; an unacknowledged
        delivery changes nothing and comes again. */
    method HandleInbox(arrival: Arrival, item: Envelope, runId: string, fault: Option<Fault>, ghost m: Machine) returns (acknowledged: bool)
      requires Represents(m) && m.phase.Serving? && runId != ""
      requires arrival.Verified? ==> IsToken(item.from) && IsToken(item.id)
      modifies journal
      ensures Tidy(fault) ==> Represents(if arrival.Verified? then ReceiveStep(cfg, m, item, runId, fault.None?) else m)
      ensures if arrival.Verified? then acknowledged <==> MessageKey(item) in journal.received
              else (acknowledged <==> arrival != Untrusted(false)) && journal.View() == old(journal.View())
      ensures var key, x := item.from + "/" + item.id, old(journal.View());
              var full := && !cfg.console && cfg.capacity.Some? && IsCommand(item.kind) && ActedOn(cfg, item.kind)
                          && x.pendingCommands >= cfg.capacity.value;
              if arrival.Verified? && key !in x.received && !full && fault.None?
              then key !in x.work ==> DeliveryStored(cfg, x, journal.View(), item, runId)
              else journal.View() == x
      ensures acknowledged && arrival.Verified? && MessageKey(item) !in old(journal.received) ==>
                !(&& !cfg.console && cfg.capacity.Some? && IsCommand(item.kind) && ActedOn(cfg, item.kind)
                  && old(journal.pendingCommands) >= cfg.capacity.value)
    {
      hide DeliveryStored;
      hide ApplyRecord;
      match arrival
      case Invalid | KeyUnknown | BadSignature => return true;
      case Untrusted(revoked) => return revoked;
      case Verified =>
        if MessageKey(item) in journal.received {
          return true;
        }
        if !cfg.console && cfg.capacity.Some? && IsCommand(item.kind) && IsDeliverable(item.kind, cfg.prefixes)
           && journal.pendingCommands >= cfg.capacity.value {
          return false;
        }
        acknowledged := Store(item, runId, fault, m);
    }

    /** The one record that stores a delivery and the work it asks for. */
    method Store(item: Envelope, runId: string, fault: Option<Fault>, ghost m: Machine) returns (ok: bool)
      requires Represents(m) && m.phase.Serving? && runId != "" && IsToken(item.from) && IsToken(item.id)
      requires MessageKey(item) !in journal.received && !OverCapacity(cfg, m.index, item.kind)
      modifies journal
      ensures Tidy(fault) ==> Represents(ReceiveStep(cfg, m, item, runId, fault.None?))
      ensures ok == fault.None? && (ok <==> MessageKey(item) in journal.received)
      ensures !ok ==> journal.View() == old(journal.View())
      ensures ok && MessageKey(item) !in old(journal.work) ==> DeliveryStored(cfg, old(journal.View()), journal.View(), item, runId)
    {
      hide ApplyRecord;
      hide DeliveryStored;
      ghost var x := journal.View();
      var work := None;
      var run := if NeedsRun(cfg, item.kind) then runId else "";
      if MakesWork(cfg, item.kind) {
        work := Some(Work(MessageKey(item), item, Queued, run, 0));
      }
      var record := Record(None, "", Some(Stored(item, |journal.inbox| + 1)), work);
      ok := Append(record, fault, m, Change.Receive(item, MakesWork(cfg, item.kind), run));
      if ok {
        ReceivedIsKept(x, record);
        if MessageKey(item) !in x.work {
          DeliveryRecord(cfg, x, item, runId);
        }
      }
    }

    lemma ReceivedIsKept(x: Index, r: Record)
      requires r.received.Some?
      ensures MessageKey(r.received.value.env) in ApplyRecord(x, r).received
    {
    }

    /** The worker's scan: the cursor passes done works and stops at the first open one. */
    method PickWork(shard: nat) returns (next: Option<Work>)
      requires shard < WORKER_COUNT && HeadsOk() && QueuesListed()
      modifies `heads
      ensures HeadsOk()
      ensures next == (var first := FirstOpen(journal.View(), journal.queues[shard]);
                       if first.None? then None else Some(journal.work[first.value]))
      ensures PickedFrom(journal.View(), journal.queues[shard], next)
    {
      hide PickedFrom;
      var queue := journal.queues[shard];
      FirstOpenPicks(journal.View(), queue);
      ghost var x := journal.View();
      FirstOpenSkips(x, queue, heads[shard]);
      hide FirstOpen;
      while heads[shard] < |queue|
        invariant |heads| == WORKER_COUNT && heads[shard] <= |queue| && HeadsOk()
        invariant FirstOpen(x, queue) == FirstOpen(x, queue[heads[shard]..])
        decreases |queue| - heads[shard]
      {
        hide HeadsOk;
        hide DoneBefore;
        FirstOpenAt(x, queue, heads[shard]);
        var work := journal.work[queue[heads[shard]]];
        if work.state != Done {
          return Some(work);
        }
        Advance(shard);
      }
      FirstOpenAt(x, queue, heads[shard]);
      next := None;
    }

    /** The cursor passes a done work. */
    method Advance(shard: nat)
      requires shard < WORKER_COUNT && HeadsOk() && heads[shard] < |journal.queues[shard]|
      requires journal.queues[shard][heads[shard]] in journal.work
      requires journal.work[journal.queues[shard][heads[shard]]].state == Done
      modifies `heads
      ensures HeadsOk() && heads == old(heads)[shard := old(heads[shard]) + 1]
    {
      heads := heads[shard := heads[shard] + 1];
    }

    lemma FirstOpenAt(x: Index, queue: seq<string>, i: nat)
      requires i <= |queue| && (i < |queue| ==> queue[i] in x.work)
      ensures FirstOpen(x, queue[i..])
              == if i == |queue| then None
                 else if x.work[queue[i]].state == Done then FirstOpen(x, queue[i + 1..])
                 else Some(queue[i])
    {
      if i < |queue| {
        assert queue[i..][0] == queue[i] && queue[i..][1..] == queue[i + 1..];
      }
    }

    /** One work that a crash left admitted, at start-up; a failed append ends the start. */
    method Settle(key: string, io: Io, fault: Option<Fault>, ghost m: Machine) returns (ok: bool)
      requires Represents(m) && m.phase.Starting? && key in m.phase.todo && key in journal.work
      requires io.ok <==> fault.None?
      modifies journal
      ensures ok ==> Represents(SettleStep(cfg, m, key, io))
      ensures !ok ==> SettleStep(cfg, m, key, io) == Drop(m)
      ensures var x, y := old(journal.View()), journal.View();
              var w := x.work[key];
              ok && w.key == key ==>
                if !IsCommand(w.message.kind) then StateStored(x, y, w, Queued)
                else EventSlot(w.key, w.runId, w.seqNo + 1) !in x.keys ==>
                  EventStored(cfg, x, y, w, "run.failed", Payload("", "", "execution.interrupted", "restart", true, ""), Done, io)
    {
      hide ApplyRecord;
      hide EventStored;
      hide StateStored;
      hide Delivery.Emit;
      hide Write;
      var w := journal.work[key];
      ghost var done := m.(phase := Starting(m.phase.todo - {key}));
      if IsCommand(w.message.kind) {
        var next := Emit(w, "run.failed", INTERRUPTED, Done, io, fault, done);
        ok := next.Some?;
      } else {
        ok := SetWork(w, Queued, fault, Interruption, done);
      }
    }

    /** deliver up to the durable admission: the work waits, ends, fails or is entered. */
    method Deliver(w: Work, s: nat, o: Outlook, io: Io, fault: Option<Fault>, ghost m: Machine) returns (entered: Option<Work>)
      requires Represents(m) && WorkerAt(m, s) == Chosen(w) && (io.ok <==> fault.None?)
      modifies journal
      ensures Tidy(fault) ==> Represents(ConsiderStep(cfg, m, s, o, io))
      ensures entered.Some? <==> w.state != Admitted && Enters(cfg, w.message.kind, o) && io.ok
      ensures entered.Some? ==> entered.value == w.(state := Admitted)
      ensures var x, y, kind := old(journal.View()), journal.View(), w.message.kind;
              Held(x, w) && w.state == Queued ==>
                && (entered.Some? ==> StateStored(x, y, w, Admitted))
                && ((exists cause :: EndsSilently(cfg, kind, o, cause)) && io.ok ==> StateStored(x, y, w, Done))
                && (forall code, stage :: Rejects(cfg, kind, o, code, stage) && SlotOf(w) !in x.keys && Takes(x, w, io) ==>
                      EventStored(cfg, x, y, w, "run.failed", Payload("", "", code, stage, false, ""), Done, io))
                && (Waits(cfg, kind, o) || !io.ok ==> y == x)
      ensures var x, y := old(journal.View()), journal.View();
              Held(x, w) && w.state == Admitted ==>
                if !IsCommand(w.message.kind) then if io.ok then StateStored(x, y, w, Queued) else y == x
                else SlotOf(w) !in x.keys ==>
                  if Takes(x, w, io)
                  then EventStored(cfg, x, y, w, "run.failed", Payload("", "", "execution.interrupted", "journal", true, ""), Done, io)
                  else y == x
    {
      hide ApplyRecord;
      hide Delivery.Emit;
      hide Write;
      hide Decide;
      hide Enters;
      hide EndsSilently;
      hide Rejects;
      hide Waits;
      hide EventStored;
      hide StateStored;
      Decides(cfg, w, o);
      ghost var idle := SetWorker(m, s, Idle);
      entered := None;
      if w.state == Admitted {
        if IsCommand(w.message.kind) {
          var _ := Emit(w, "run.failed", INTERRUPTED.(stage := "journal"), Done, io, fault, idle);
        } else {
          var _ := SetWork(w, Queued, fault, Interruption, idle);
        }
        return;
      }
      match Decide(cfg, w, o) {
        case Wait =>
        case Retire(cause) =>
          var _ := SetWork(w, Done, fault, cause, idle);
        case Reject(payload) =>
          RejectionShape(cfg, w, o);
          var _ := Emit(w, "run.failed", payload, Done, io, fault, idle);
        case Admit =>
          var ok := SetWork(w, Admitted, fault, Admission, m);
          if ok {
            entered := Some(w.(state := Admitted));
          }
      }
    }

    /** The start of the run: its first event is journalled before the handler is called. */
    method Begin(w: Work, s: nat, io: Io, fault: Option<Fault>, ghost m: Machine) returns (started: Option<Work>)
      requires Represents(m) && WorkerAt(m, s) == Entered(w) && (io.ok <==> fault.None?)
      modifies journal
      ensures Tidy(fault) ==> Represents(BeginStep(cfg, m, s, io))
      ensures started.Some? <==> |BeginStep(cfg, m, s, io).invocations| == |m.invocations| + 1
      ensures started.None? ==> BeginStep(cfg, m, s, io).invocations == m.invocations
      ensures var x, y := old(journal.View()), journal.View();
              if IsCommand(w.message.kind) && w.seqNo == 0 then
                EventSlot(w.key, w.runId, 1) !in x.keys && Held(x, w) ==>
                  if !Takes(x, w, io) then started.None? && y == x
                  else && started.Some? && started.value == w.(seqNo := 1, state := Admitted)
                       && EventStored(cfg, x, y, w, "run.started", Payload("", "", "", "", false, ""), Admitted, io)
              else started == Some(w) && y == x
    {
      hide ApplyRecord;
      hide EventStored;
      hide Delivery.Emit;
      if !IsCommand(w.message.kind) || w.seqNo != 0 {
        return Some(w);
      }
      started := Emit(w, "run.started", NO_PAYLOAD, Admitted, io, fault, m);
    }

    /** What the worker does when the handler returns: retry, fail, or reply. */
    method Finish(w: Work, streamed: bool, s: nat, result: Result, io: Io, fault: Option<Fault>, ghost call: nat, ghost m: Machine)
      returns (replying: bool)
      requires Represents(m) && WorkerAt(m, s) == Handling(w, streamed, call) && (io.ok <==> fault.None?)
      modifies journal
      ensures Tidy(fault) ==> Represents(ReturnStep(cfg, m, s, result, io))
      ensures replying <==> IsCommand(w.message.kind) && result.Returned?
      ensures var x, y, again := old(journal.View()), journal.View(), TriesAgain(w.message.kind, streamed, result);
              Held(x, w) ==>
                if replying then y == x
                else if again || !IsCommand(w.message.kind) then
                  if io.ok then StateStored(x, y, w, if again then Queued else Done) else y == x
                else SlotOf(w) !in x.keys ==>
                  if Takes(x, w, io) then EventStored(cfg, x, y, w, "run.failed", result.payload, Done, io) else y == x
    {
      hide ApplyRecord;
      hide EventStored;
      hide StateStored;
      TriesAgainIs(w.message.kind, streamed, result);
      hide TriesAgain;
      hide Delivery.Emit;
      hide Write;
      replying := false;
      ghost var idle := SetWorker(m, s, Idle);
      if !IsCommand(w.message.kind) {
        var again := result.Failed? && (w.message.kind == "transfer.available" || result.retryable);
        var _ := SetWork(w, if again then Queued else Done, fault, if again then Retry else Handled,
                         Close(idle, call, if again then Retryable else Finished, result));
      } else if result.Failed? {
        if !streamed && result.retryable {
          var _ := SetWork(w, Queued, fault, Retry, Close(idle, call, Retryable, result));
        } else {
          var _ := Emit(w, "run.failed", result.payload, Done, io, fault, Close(idle, call, Finished, result));
        }
      } else {
        replying := true;
      }
    }

    /** The unstreamed reply in its pieces, then the terminal event; an error stops it. */
    method SendReply(w: Work, chunks: seq<string>, kind: string, adapterRunId: string, s: nat, ios: seq<Io>, faults: seq<Option<Fault>>,
                     ghost call: nat, ghost m: Machine)
      returns (done: bool)
      requires Represents(m) && WorkerAt(m, s) == Replying(w, chunks, kind, adapterRunId, call) && |faults| == |ios| == |chunks| + 1
      requires forall i :: 0 <= i < |ios| ==> (ios[i].ok <==> faults[i].None?)
      modifies journal
      ensures (forall i :: 0 <= i < |faults| ==> Tidy(faults[i])) ==> Represents(ReplyAll(cfg, m, s, ios))
      ensures var x, y := old(journal.View()), journal.View();
              Replies(x, w) ==>
                if done then ReplySent(cfg, x, y, w, chunks, kind, adapterRunId, ios)
                else exists i :: 0 <= i <= |chunks| && PiecesSent(cfg, x, y, w, chunks, ios, i)
    {
      hide ApplyRecord;
      hide Delivery.Emit;
      hide EventStored;
      hide PiecesSent;
      hide ReplySent;
      hide Sending;
      hide Replies;
      hide ReplyStep;
      hide Held;
      var work := w;
      ghost var now, x := m, journal.View();
      StartSending(cfg, x, w, chunks, ios);
      for i := 0 to |chunks|
        invariant Represents(now) && WorkerAt(now, s) == Replying(work, chunks[i..], kind, adapterRunId, call)
        invariant ReplyAll(cfg, m, s, ios) == ReplyAll(cfg, now, s, ios[i..])
        invariant Sending(cfg, x, journal.View(), w, chunks, ios, i, work)
      {
        var io := ios[i];
        assert ios[i..][1..] == ios[i + 1..] && chunks[i..][1..] == chunks[i + 1..];
        ghost var y := journal.View();
        ghost var after := ReplyStep(cfg, now, s, io);
        ReplyPiece(cfg, now, s, io);
        var next := Emit(work, "run.output.delta", AnswerText(chunks[i]), Admitted, io, faults[i], now);
        if next.None? {
          IdleReplies(cfg, after, s, ios[i + 1..]);
          SentSoFar(cfg, x, y, w, chunks, ios, i, work);
          return false;
        }
        SendOn(cfg, x, y, journal.View(), w, chunks, ios, i, work);
        work := next.value;
        now := after;
      }
      var io := ios[|chunks|];
      ghost var y := journal.View();
      assert ios[|chunks|..][1..] == [] && chunks[|chunks|..] == [];
      ReplyPiece(cfg, now, s, io);
      var last := Emit(work, kind, Completion(adapterRunId), Done, io, faults[|chunks|], SetWorker(now, s, Idle));
      done := last.Some?;
      if done {
        SendLast(cfg, x, y, journal.View(), w, chunks, kind, adapterRunId, ios, work);
      } else {
        SentSoFar(cfg, x, y, w, chunks, ios, |chunks|, work);
      }
    }

    /** publishPending takes the whole list. */
    method TakePending(ghost m: Machine) returns (batch: seq<string>)
      requires Represents(m) && m.phase.Serving? && m.batch == []
      modifies journal
      ensures Represents(TakeStep(m)) && batch == TakeStep(m).batch == old(journal.pending) && journal.pending == []
    {
      batch := journal.pending;
      journal.pending := [];
    }

    /** The confirmation of a delivered publication, or its return to the pending list. */
    method FinishFlush(delivered: bool, fault: Option<Fault>, id: string, byPublisher: bool, ghost m: Machine)
      requires Represents(m) && !m.phase.Down? && m.flight == InFlight(id, byPublisher)
      modifies journal
      ensures Tidy(fault) || !delivered ==> Represents(FlushEndStep(m, delivered && fault.None?))
      ensures var x, y := old(journal.View()), journal.View();
              if delivered && fault.None? then
                id != "" && id in x.publications ==>
                  y == x.(publications := x.publications[id := x.publications[id].(published := true)])
              else y == x.(pending := if byPublisher then x.pending + [id] else x.pending)
    {
      ghost var landed := m.(flight := NoFlight, batch := if byPublisher && m.batch != [] then m.batch[1..] else m.batch);
      var confirmed := false;
      if delivered {
        confirmed := Append(Record(None, id, None, None), fault, landed, Published(id));
      }
      if !confirmed && byPublisher {
        journal.pending := journal.pending + [id];
      }
    }
  }

  /** The first work of the queue that is not done, or none exactly if all are. */
  predicate PickedFrom(x: Index, queue: seq<string>, next: Option<Work>) {
    if next.None? then DoneBefore(x, queue, |queue|)
    else exists i :: && 0 <= i < |queue| && DoneBefore(x, queue, i) && queue[i] in x.work && x.work[queue[i]] == next.value
                     && next.value.state != Done
  }

  lemma FirstOpenPicks(x: Index, queue: seq<string>)
    requires forall i :: 0 <= i < |queue| ==> queue[i] in x.work
    ensures var first := FirstOpen(x, queue);
            if first.None? then PickedFrom(x, queue, None)
            else first.value in x.work && PickedFrom(x, queue, Some(x.work[first.value]))
  {
    FirstOpenIs(x, queue);
    hide FirstOpen;
    hide DoneBefore;
  }

  // ---- A reply in the journal ----

  /** No event of the run with a number after the next i has been journalled. */
  ghost predicate SlotsFree(x: Index, w: Work, i: nat) {
    forall q: nat :: q > w.seqNo + i ==> EventSlot(w.key, w.runId, q) !in x.keys
  }

  function Ids(ios: seq<Io>): (ids: seq<string>)
    ensures |ids| == |ios| && forall i :: 0 <= i < |ids| ==> ids[i] == ios[i].id
  {
    seq(|ios|, i requires 0 <= i < |ios| => ios[i].id)
  }

  predicate PieceAt(cfg: Config, x: Index, y: Index, w: Work, chunks: seq<string>, ios: seq<Io>, j: nat)
    requires j < |chunks| && j < |ios|
  {
    && ios[j].id !in x.publications && ios[j].id in y.publications
    && IsEvent(cfg, w.(seqNo := w.seqNo + j), y.publications[ios[j].id].message, "run.output.delta",
               Payload(chunks[j], "answer", "", "", false, ""), ios[j])
  }

  /** The first i pieces of the reply are in the outbox, in order, and nothing else is new. */
  predicate PiecesSent(cfg: Config, x: Index, y: Index, w: Work, chunks: seq<string>, ios: seq<Io>, i: nat) {
    && i <= |chunks| < |ios|
    && (forall j :: 0 <= j < i ==> PieceAt(cfg, x, y, w, chunks, ios, j))
    && y.pending == x.pending + Ids(ios[..i]) && y.publications.Keys == x.publications.Keys + (set j | 0 <= j < i :: ios[j].id)
    && y.work == x.work[w.key := w.(seqNo := w.seqNo + i)]
  }

  /** All pieces of the reply are in the outbox, in order, then the terminal event; nothing else is
      new, and the work is done. */
  predicate ReplySent(cfg: Config, x: Index, y: Index, w: Work, chunks: seq<string>, kind: string, adapterRunId: string, ios: seq<Io>) {
    && |ios| == |chunks| + 1
    && (forall j :: 0 <= j < |chunks| ==> PieceAt(cfg, x, y, w, chunks, ios, j))
    && y.pending == x.pending + Ids(ios) && y.publications.Keys == x.publications.Keys + (set j | 0 <= j < |ios| :: ios[j].id)
    && var last := ios[|chunks|];
    && last.id !in x.publications
    && IsEvent(cfg, w.(seqNo := w.seqNo + |chunks|), y.publications[last.id].message, kind,
               Payload("", "", "", "", false, adapterRunId), last)
    && y.work == x.work[w.key := w.(seqNo := w.seqNo + |chunks| + 1, state := Done)]
  }

  lemma NoPieces(cfg: Config, x: Index, w: Work, chunks: seq<string>, ios: seq<Io>)
    requires Held(x, w) && |ios| > |chunks|
    ensures PiecesSent(cfg, x, x, w, chunks, ios, 0)
  {
    assert ios[..0] == [] && x.pending + [] == x.pending;
  }

  lemma SentSoFar(cfg: Config, x: Index, y: Index, w: Work, chunks: seq<string>, ios: seq<Io>, i: nat, work: Work)
    requires Sending(cfg, x, y, w, chunks, ios, i, work)
    ensures Replies(x, w) ==> PiecesSent(cfg, x, y, w, chunks, ios, i)
  {
    hide PiecesSent;
  }

  lemma IdsAppend(ios: seq<Io>, i: nat)
    requires i < |ios|
    ensures Ids(ios[..i + 1]) == Ids(ios[..i]) + [ios[i].id]
  {
  }

  lemma PieceSent(cfg: Config, x: Index, y: Index, z: Index, w: Work, chunks: seq<string>, ios: seq<Io>, i: nat)
    requires i < |chunks| && PiecesSent(cfg, x, y, w, chunks, ios, i) && w.state == Admitted
    requires EventStored(cfg, y, z, w.(seqNo := w.seqNo + i), "run.output.delta",
                         Payload(chunks[i], "answer", "", "", false, ""), Admitted, ios[i])
    ensures PiecesSent(cfg, x, z, w, chunks, ios, i + 1)
  {
    hide IsEvent;
    IdsAppend(ios, i);
    forall j | 0 <= j < i + 1 ensures PieceAt(cfg, x, z, w, chunks, ios, j) {
      if j < i {
        assert PieceAt(cfg, x, y, w, chunks, ios, j);
      }
    }
    assert x.pending + Ids(ios[..i]) + [ios[i].id] == x.pending + Ids(ios[..i + 1]);
  }

  /** The reply so far, as long as the worker's copy was the journal's entry and its slots were free. */
  ghost predicate Sending(cfg: Config, x: Index, y: Index, w: Work, chunks: seq<string>, ios: seq<Io>, i: nat, work: Work) {
    Replies(x, w) ==>
      work == w.(seqNo := w.seqNo + i) && Held(y, work) && PiecesSent(cfg, x, y, w, chunks, ios, i) && SlotsFree(y, w, i)
  }

  ghost predicate Replies(x: Index, w: Work) {
    Held(x, w) && w.state == Admitted && SlotsFree(x, w, 0)
  }

  lemma StartSending(cfg: Config, x: Index, w: Work, chunks: seq<string>, ios: seq<Io>)
    requires |ios| > |chunks|
    ensures Sending(cfg, x, x, w, chunks, ios, 0, w)
  {
    hide PiecesSent;
    if Replies(x, w) {
      NoPieces(cfg, x, w, chunks, ios);
    }
  }

  lemma SendOn(cfg: Config, x: Index, y: Index, z: Index, w: Work, chunks: seq<string>, ios: seq<Io>, i: nat, work: Work)
    requires i < |chunks| < |ios| && Sending(cfg, x, y, w, chunks, ios, i, work)
    requires EventSlot(work.key, work.runId, work.seqNo + 1) !in y.keys && Held(y, work) ==>
               EventStored(cfg, y, z, work, "run.output.delta", Payload(chunks[i], "answer", "", "", false, ""), Admitted, ios[i])
    ensures Sending(cfg, x, z, w, chunks, ios, i + 1, work.(seqNo := work.seqNo + 1, state := Admitted))
  {
    hide PiecesSent;
    hide IsEvent;
    if Replies(x, w) {
      PieceSent(cfg, x, y, z, w, chunks, ios, i);
    }
  }

  lemma SendLast(cfg: Config, x: Index, y: Index, z: Index, w: Work, chunks: seq<string>, kind: string, adapterRunId: string,
                 ios: seq<Io>, work: Work)
    requires |ios| == |chunks| + 1 && Sending(cfg, x, y, w, chunks, ios, |chunks|, work)
    requires EventSlot(work.key, work.runId, work.seqNo + 1) !in y.keys && Held(y, work) ==>
               EventStored(cfg, y, z, work, kind, Payload("", "", "", "", false, adapterRunId), Done, ios[|chunks|])
    ensures Replies(x, w) ==> ReplySent(cfg, x, z, w, chunks, kind, adapterRunId, ios)
  {
    hide PiecesSent;
    hide ReplySent;
    hide EventStored;
    if Replies(x, w) {
      LastSent(cfg, x, y, z, w, chunks, kind, adapterRunId, ios);
    }
  }

  lemma LastSent(cfg: Config, x: Index, y: Index, z: Index, w: Work, chunks: seq<string>, kind: string, adapterRunId: string, ios: seq<Io>)
    requires |ios| == |chunks| + 1 && PiecesSent(cfg, x, y, w, chunks, ios, |chunks|)
    requires EventStored(cfg, y, z, w.(seqNo := w.seqNo + |chunks|), kind, Payload("", "", "", "", false, adapterRunId), Done, ios[|chunks|])
    ensures ReplySent(cfg, x, z, w, chunks, kind, adapterRunId, ios)
  {
    hide IsEvent;
    IdsAppend(ios, |chunks|);
    assert ios[..|chunks| + 1] == ios;
    forall j | 0 <= j < |chunks| ensures PieceAt(cfg, x, z, w, chunks, ios, j) {
      assert PieceAt(cfg, x, y, w, chunks, ios, j);
    }
    assert x.pending + Ids(ios[..|chunks|]) + [ios[|chunks|].id] == x.pending + Ids(ios);
  }

  /** What a reply step makes of the outcome of its append. */
  lemma ReplyPiece(cfg: Config, m: Machine, s: nat, io: Io)
    requires WorkerAt(m, s).Replying?
    ensures var at, n := WorkerAt(m, s), ReplyStep(cfg, m, s, io);
            if at.chunks == [] then n == Delivery.Emit(cfg, SetWorker(m, s, Idle), at.work, at.kind, Completion(at.adapterRunId), Done, io).0
            else
              var r := Delivery.Emit(cfg, m, at.work, "run.output.delta", AnswerText(at.chunks[0]), Admitted, io);
              if r.1.Some?
              then && WorkerAt(n, s) == Replying(r.1.value, at.chunks[1..], at.kind, at.adapterRunId, at.call)
                   && n.index == r.0.index && n.pending == r.0.pending && n.log == r.0.log
              else && !WorkerAt(n, s).Replying? && r.0 == m && n.index == m.index && n.pending == m.pending && n.log == m.log
  {
    hide Delivery.Emit;
  }

  /** One reply step for each environment input. */
  function ReplyAll(cfg: Config, m: Machine, s: nat, ios: seq<Io>): Machine
    decreases |ios|
  {
    if ios == [] then m else ReplyAll(cfg, ReplyStep(cfg, m, s, ios[0]), s, ios[1..])
  }

  lemma {:induction false} IdleReplies(cfg: Config, m: Machine, s: nat, ios: seq<Io>)
    requires !WorkerAt(m, s).Replying?
    ensures ReplyAll(cfg, m, s, ios) == m
    decreases |ios|
  {
    if ios != [] {
      IdleReplies(cfg, m, s, ios[1..]);
    }
  }

  /** Done works at the front do not change which work is the first open one. */
  lemma {:induction false} FirstOpenSkips(x: Index, queue: seq<string>, i: nat)
    requires i <= |queue| && DoneBefore(x, queue, i)
    ensures FirstOpen(x, queue) == FirstOpen(x, queue[i..])
  {
    if i == 0 {
      assert queue[0..] == queue;
    } else {
      assert queue[0] in x.work && x.work[queue[0]].state == Done;
      assert DoneBefore(x, queue[1..], i - 1) by {
        forall j | 0 <= j < i - 1 ensures queue[1..][j] in x.work && x.work[queue[1..][j]].state == Done {
          assert queue[1..][j] == queue[j + 1];
        }
      }
      FirstOpenSkips(x, queue[1..], i - 1);
      assert queue[1..][i - 1..] == queue[i..];
    }
  }
}
