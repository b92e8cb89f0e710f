/** Every legal history of the journal: which changes the service may append, and what holds of
    the index after any sequence of them (internal/messaging/service.go over journal.go). */
module DurableLog {
  import opened Wrappers
  import opened Protocol
  import opened Journal

  /** Why a work changes its state without an event. */
  datatype Cause = Admission | Interruption | Retry | Handled | RevokedSender | ConsoleChat | LateTransfer

  /** One append to the journal, by its cause. */
  datatype Change =
    | ClientPublish(env: Envelope, key: IdempotencyKey, fingerprint: string)
    | Published(id: string)
    | Receive(item: Envelope, queued: bool, runId: string)
    | Move(workKey: string, to: WorkState, cause: Cause)
    | Event(eventOf: string, event: Envelope, hash: string, result: WorkState)

  function Previous(x: Index, env: Envelope): string {
    if env.runId != "" && EventKey(env) in x.tails then x.tails[EventKey(env)] else ""
  }

  function SlotOf(w: Work): IdempotencyKey {
    EventSlot(w.key, w.runId, w.seqNo + 1)
  }

  const NO_RECORD := Record(None, "", None, None)

  /** The journal record a change appends to index x. */
  function RecordOf(x: Index, c: Change): Record {
    match c
    case ClientPublish(env, key, fp) =>
      Record(Some(Publication(env, key, fp, false, Previous(x, env))), "", None, None)
    case Published(id) => Record(None, id, None, None)
    case Receive(env, queued, runId) =>
      Record(None, "", Some(Stored(env, |x.inbox| + 1)),
             if queued then Some(Work(MessageKey(env), env, Queued, runId, 0)) else None)
    case Move(key, to, _) =>
      if key !in x.work then NO_RECORD
      else Record(None, "", None, Some(x.work[key].(state := to)))
    case Event(key, env, fp, result) =>
      if key !in x.work then NO_RECORD else
      var w := x.work[key];
      Record(Some(Publication(env, SlotOf(w), fp, false, Previous(x, env))), "", None,
             Some(w.(seqNo := w.seqNo + 1, state := result)))
  }

  // ---- Which changes are legal ----

  /** The first work of its conversation shard that is not done. */
  predicate IsHead(x: Index, key: string) {
    && key in x.work
    && var queue := x.queues[WorkShard(x.work[key].message)];
       exists i :: 0 <= i < |queue| && queue[i] == key && DoneBefore(x, queue, i)
  }

  predicate DoneBefore(x: Index, queue: seq<string>, i: nat)
    requires i <= |queue|
  {
    forall j :: 0 <= j < i ==> queue[j] in x.work && x.work[queue[j]].state == Done
  }

  predicate MoveOk(w: Work, to: WorkState) {
    match to
    case Admitted => w.state == Queued
    case Queued => w.state == Admitted && (IsCommand(w.message.kind) ==> w.seqNo == 1)
    case Done => w.state != Done && (IsCommand(w.message.kind) ==> w.state == Queued)
  }

  /** A command ends without an event only for a revoked sender or as chat to a Console. */
  predicate CauseOk(w: Work, to: WorkState, cause: Cause) {
    to == Done && IsCommand(w.message.kind) ==> cause.RevokedSender? || (cause.ConsoleChat? && w.message.kind == "chat.message")
  }

  /** Which event may follow, given the work's state and the number of events so far. */
  predicate EventOk(w: Work, kind: string, result: WorkState) {
    || (kind == "run.failed" && result == Done && w.state != Done)
    || (kind == "run.started" && result == Admitted && w.state == Admitted && w.seqNo == 0)
    || (kind == "run.output.delta" && result == Admitted && w.state == Admitted && w.seqNo >= 1)
    || ((kind == "run.completed" || kind == "run.accepted") && result == Done && w.state == Admitted && w.seqNo >= 1)
  }

  predicate EventFor(w: Work, env: Envelope) {
    && env.to == w.message.from && env.requestId == w.message.id && env.runId == w.runId && env.seqNo == w.seqNo + 1
    && env.agentId == w.message.agentId && env.sessionKey == w.message.sessionKey
  }

  predicate LegalChange(x: Index, c: Change) {
    match c
    case ClientPublish(env, key, fp) =>
      env.id != "" && env.id !in x.publications && !key.EventSlot? && (key.ClientKey? ==> key !in x.keys)
    case Published(id) =>
      id in x.publications &&
      var previous := x.publications[id].previous;
      previous in x.publications ==> x.publications[previous].published
    case Receive(env, queued, runId) =>
      IsToken(env.from) && IsToken(env.id) && MessageKey(env) !in x.received
    case Move(key, to, cause) => IsHead(x, key) && MoveOk(x.work[key], to) && CauseOk(x.work[key], to, cause)
    case Event(key, env, fp, result) =>
      && IsHead(x, key) && IsCommand(x.work[key].message.kind) && x.work[key].runId != ""
      && EventOk(x.work[key], env.kind, result) && EventFor(x.work[key], env)
      && env.id != "" && env.id !in x.publications
  }

  function Next(x: Index, c: Change): Index {
    ApplyRecord(x, RecordOf(x, c))
  }

  function After(cs: seq<Change>): Index {
    if cs == [] then EMPTY else Next(After(cs[..|cs| - 1]), cs[|cs| - 1])
  }

  predicate Legal(cs: seq<Change>) {
    cs == [] || (Legal(cs[..|cs| - 1]) && LegalChange(After(cs[..|cs| - 1]), cs[|cs| - 1]))
  }

  /** The records in the file after a history. */
  function LogOf(cs: seq<Change>): seq<Record> {
    if cs == [] then []
    else LogOf(cs[..|cs| - 1]) + [RecordOf(After(cs[..|cs| - 1]), cs[|cs| - 1])]
  }

  lemma Extend(cs: seq<Change>, c: Change)
    requires Legal(cs) && LegalChange(After(cs), c)
    ensures Legal(cs + [c]) && After(cs + [c]) == Next(After(cs), c)
    ensures LogOf(cs + [c]) == LogOf(cs) + [RecordOf(After(cs), c)]
  {
    assert (cs + [c])[..|cs|] == cs;
  }

  // ---- What holds of the index ----

  predicate WorkInv(x: Index) {
    forall k :: k in x.work ==> WorkOk(x, k, x.work[k])
  }

  predicate WorkOk(x: Index, k: string, w: Work) {
    && w.key == k == MessageKey(w.message) && k in x.received
    && IsToken(w.message.from) && IsToken(w.message.id)
    && (!IsCommand(w.message.kind) ==> w.seqNo == 0)
    && (w.state == Queued ==> w.seqNo <= 1)
  }

  predicate Untouched(w: Work) {
    w.state == Queued && w.seqNo == 0
  }

  /** A conversation queue holds distinct keys of its own shard, and behind a work that is not
      done nothing has been touched. */
  predicate QueueOk(work: map<string, Work>, queue: seq<string>, shard: nat) {
    && (forall i :: 0 <= i < |queue| ==> queue[i] in work && WorkShard(work[queue[i]].message) == shard)
    && (forall i, j :: 0 <= i < j < |queue| ==>
          queue[i] != queue[j] && (work[queue[i]].state == Done || Untouched(work[queue[j]])))
  }

  predicate QueueInv(x: Index) {
    && (forall s :: 0 <= s < WORKER_COUNT ==> QueueOk(x.work, x.queues[s], s))
    && (forall k :: k in x.work ==> k in x.queues[WorkShard(x.work[k].message)])
  }

  predicate IsOpen(w: Work) {
    IsCommand(w.message.kind) && w.state != Done
  }

  function OpenCommands(work: map<string, Work>): set<string> {
    set k | k in work && IsOpen(work[k])
  }

  predicate CountInv(x: Index) {
    x.pendingCommands == |OpenCommands(x.work)|
  }

  predicate PubInv(x: Index) {
    && (forall id :: id in x.publications ==> PubOk(x, id, x.publications[id]))
    && (forall t :: t in x.tails ==> x.tails[t] in x.publications)
    && "" !in x.publications
  }

  predicate PubOk(x: Index, id: string, p: Publication) {
    && p.message.id == id
    && (p.previous != "" ==> p.previous in x.publications && (p.published ==> x.publications[p.previous].published))
    && (!p.key.NoKey? ==> p.key in x.keys && x.keys[p.key] == id)
  }

  predicate KeyInv(x: Index) {
    && (forall key :: key in x.keys ==> x.keys[key] in x.publications && x.publications[x.keys[key]].key == key)
    && (forall key :: key in x.keys && key.EventSlot? ==>
          key.workKey in x.work && 1 <= key.seqNo <= x.work[key.workKey].seqNo)
  }

  predicate Inv(x: Index) {
    WorkInv(x) && QueueInv(x) && CountInv(x) && PubInv(x) && KeyInv(x)
  }

  // ---- The effect of a change on the work table ----

  /** A change to one work that is the head of its queue. */
  predicate Touched(x: Index, y: Index, k: string) {
    && IsHead(x, k) && k in y.work && y.work == x.work[k := y.work[k]]
    && y.work[k].message == x.work[k].message && y.work[k].key == k && x.work[k].state != Done
    && y.queues == x.queues && y.received == x.received
  }

  /** A new work joins the queue of its conversation. */
  predicate Enqueued(x: Index, y: Index, w: Work) {
    && w.key == MessageKey(w.message) && IsToken(w.message.from) && IsToken(w.message.id)
    && w.key !in x.work && Untouched(w)
    && y.work == x.work[w.key := w] && y.received == x.received + {w.key}
    && var s := WorkShard(w.message); y.queues == x.queues[s := x.queues[s] + [w.key]]
  }

  predicate Apart(x: Index, y: Index) {
    y.work == x.work && y.queues == x.queues && y.pendingCommands == x.pendingCommands && x.received <= y.received
  }

  function ChangedKey(c: Change): string
    requires c.Move? || c.Event?
  {
    if c.Move? then c.workKey else c.eventOf
  }

  function NewWork(c: Change): Work
    requires c.Receive?
  {
    Work(MessageKey(c.item), c.item, Queued, c.runId, 0)
  }

  lemma NextTouched(x: Index, c: Change)
    requires WorkInv(x) && LegalChange(x, c) && (c.Move? || c.Event?)
    ensures Touched(x, Next(x, c), ChangedKey(c))
    ensures Next(x, c).work[ChangedKey(c)] == RecordOf(x, c).work.value
    ensures var w, v := x.work[ChangedKey(c)], Next(x, c).work[ChangedKey(c)];
            && (!IsCommand(w.message.kind) ==> v.seqNo == w.seqNo)
            && (v.state == Queued ==> v.seqNo <= 1) && w.seqNo <= v.seqNo && v.runId == w.runId
    ensures Next(x, c).pendingCommands == x.pendingCommands
            - (if IsCommand(x.work[ChangedKey(c)].message.kind) && Next(x, c).work[ChangedKey(c)].state == Done
               then 1 else 0)
  {
    hide WorkShard;
    hide EventKey;
    hide EventFor;
    hide Previous;
    assert WorkOk(x, ChangedKey(c), x.work[ChangedKey(c)]);
  }

  lemma NextEnqueued(x: Index, c: Change)
    requires WorkInv(x) && LegalChange(x, c) && c.Receive? && c.queued
    ensures Enqueued(x, Next(x, c), NewWork(c))
    ensures Next(x, c).pendingCommands == x.pendingCommands + (if IsCommand(c.item.kind) then 1 else 0)
  {
    var k := MessageKey(c.item);
    assert k in x.work ==> WorkOk(x, k, x.work[k]);
  }

  lemma NextApart(x: Index, c: Change)
    requires LegalChange(x, c) && (c.ClientPublish? || c.Published? || (c.Receive? && !c.queued))
    ensures Apart(x, Next(x, c))
  {
  }

  lemma TouchedQueue(x: Index, y: Index, k: string, s: nat)
    requires s < WORKER_COUNT && QueueOk(x.work, x.queues[s], s) && Touched(x, y, k)
    ensures QueueOk(y.work, y.queues[s], s)
  {
    hide WorkShard;
    var queue := x.queues[s];
    if WorkShard(x.work[k].message) == s {
      var h :| 0 <= h < |queue| && queue[h] == k && DoneBefore(x, queue, h);
      HeadWrite(x.work, y.work, queue, s, h);
    }
  }

  lemma HeadWrite(before: map<string, Work>, after: map<string, Work>, queue: seq<string>, s: nat, h: nat)
    requires QueueOk(before, queue, s) && h < |queue| && queue[h] in after
    requires after == before[queue[h] := after[queue[h]]] && after[queue[h]].message == before[queue[h]].message
    requires forall j :: 0 <= j < h ==> before[queue[j]].state == Done
    requires before[queue[h]].state != Done
    ensures QueueOk(after, queue, s)
  {
    hide WorkShard;
    forall i, j | 0 <= i < j < |queue|
      ensures after[queue[i]].state == Done || Untouched(after[queue[j]])
    {
      assert queue[i] != queue[j];
    }
  }

  lemma EnqueuedQueue(x: Index, y: Index, w: Work, s: nat)
    requires s < WORKER_COUNT && QueueOk(x.work, x.queues[s], s) && Enqueued(x, y, w)
    ensures QueueOk(y.work, y.queues[s], s)
  {
  }

  lemma EnqueuedListed(x: Index, y: Index, w: Work, k: string)
    requires Enqueued(x, y, w) && k in y.work
    requires k in x.work ==> k in x.queues[WorkShard(x.work[k].message)]
    ensures k in y.queues[WorkShard(y.work[k].message)]
  {
    var s := WorkShard(w.message);
    if k == w.key {
      assert y.queues[s][|x.queues[s]|] == w.key;
    } else {
      var q := x.queues[WorkShard(x.work[k].message)];
      var i :| 0 <= i < |q| && q[i] == k;
      assert y.queues[WorkShard(x.work[k].message)][i] == k;
    }
  }

  /** A change leaves every work alone except the one it names. */
  lemma NextWorkAt(x: Index, c: Change, key: string)
    requires WorkInv(x) && LegalChange(x, c) && key in x.work
    ensures key in Next(x, c).work
    ensures if (c.Move? || c.Event?) && ChangedKey(c) == key
            then x.work[key].state != Done && Next(x, c).work[key] == RecordOf(x, c).work.value
            else Next(x, c).work[key] == x.work[key]
  {
    hide Next;
    hide LegalChange;
    if c.Move? || c.Event? {
      NextTouched(x, c);
    } else if c.Receive? && c.queued {
      NextEnqueued(x, c);
    } else {
      NextApart(x, c);
    }
  }

  lemma NextWorkInv(x: Index, c: Change)
    requires WorkInv(x) && LegalChange(x, c)
    ensures WorkInv(Next(x, c))
  {
    hide Next;
    hide LegalChange;
    if c.Move? || c.Event? {
      NextTouched(x, c);
      TouchedWorkInv(x, Next(x, c), ChangedKey(c));
    } else if c.Receive? && c.queued {
      NextEnqueued(x, c);
      EnqueuedWorkInv(x, Next(x, c), NewWork(c));
    } else {
      NextApart(x, c);
      ApartWorkInv(x, Next(x, c));
    }
  }

  lemma TouchedWorkInv(x: Index, y: Index, k: string)
    requires WorkInv(x) && Touched(x, y, k)
    requires var w, v := x.work[k], y.work[k];
             (!IsCommand(w.message.kind) ==> v.seqNo == w.seqNo) && (v.state == Queued ==> v.seqNo <= 1)
    ensures WorkInv(y)
  {
    hide IsCommand;
    hide DoneBefore;
    hide WorkShard;
    hide IsToken;
    assert WorkOk(x, k, x.work[k]);
    forall i | i in y.work ensures WorkOk(y, i, y.work[i]) {
      assert WorkOk(x, i, x.work[i]);
    }
  }

  lemma EnqueuedWorkInv(x: Index, y: Index, w: Work)
    requires WorkInv(x) && Enqueued(x, y, w)
    ensures WorkInv(y)
  {
    hide IsCommand;
    hide IsToken;
    hide WorkShard;
    forall i | i in y.work ensures WorkOk(y, i, y.work[i]) {
      if i != w.key {
        assert WorkOk(x, i, x.work[i]);
      }
    }
  }

  lemma ApartWorkInv(x: Index, y: Index)
    requires WorkInv(x) && Apart(x, y)
    ensures WorkInv(y)
  {
    forall i | i in y.work ensures WorkOk(y, i, y.work[i]) {
      assert WorkOk(x, i, x.work[i]);
    }
  }

  lemma NextQueueInv(x: Index, c: Change)
    requires WorkInv(x) && QueueInv(x) && LegalChange(x, c)
    ensures QueueInv(Next(x, c))
  {
    hide Next;
    hide LegalChange;
    hide WorkInv;
    hide QueueInv;
    if c.Move? || c.Event? {
      NextTouched(x, c);
      TouchedQueueInv(x, Next(x, c), ChangedKey(c));
    } else if c.Receive? && c.queued {
      NextEnqueued(x, c);
      EnqueuedQueueInv(x, Next(x, c), NewWork(c));
    } else {
      NextApart(x, c);
      ApartQueueInv(x, Next(x, c));
    }
  }

  lemma TouchedQueueInv(x: Index, y: Index, k: string)
    requires QueueInv(x) && Touched(x, y, k)
    ensures QueueInv(y)
  {
    hide QueueOk;
    hide DoneBefore;
    hide WorkShard;
    forall s | 0 <= s < WORKER_COUNT ensures QueueOk(y.work, y.queues[s], s) {
      TouchedQueue(x, y, k, s);
    }
  }

  lemma EnqueuedQueueInv(x: Index, y: Index, w: Work)
    requires QueueInv(x) && Enqueued(x, y, w)
    ensures QueueInv(y)
  {
    hide QueueOk;
    forall s | 0 <= s < WORKER_COUNT ensures QueueOk(y.work, y.queues[s], s) {
      EnqueuedQueue(x, y, w, s);
    }
    forall k | k in y.work ensures k in y.queues[WorkShard(y.work[k].message)] {
      EnqueuedListed(x, y, w, k);
    }
  }

  lemma ApartQueueInv(x: Index, y: Index)
    requires QueueInv(x) && Apart(x, y)
    ensures QueueInv(y)
  {
    hide QueueOk;
  }

  /** The open commands after one work of the table is written. */
  lemma CountAfterWrite(work: map<string, Work>, k: string, w: Work)
    ensures |OpenCommands(work[k := w])| == |OpenCommands(work)|
            + (if IsOpen(w) then 1 else 0) - (if k in work && IsOpen(work[k]) then 1 else 0)
  {
    hide IsOpen;
    var before, after := OpenCommands(work), OpenCommands(work[k := w]);
    if IsOpen(w) {
      assert after == before + {k};
    } else {
      assert after == before - {k};
    }
  }

  lemma NextCountInv(x: Index, c: Change)
    requires WorkInv(x) && CountInv(x) && LegalChange(x, c)
    ensures CountInv(Next(x, c))
  {
    hide Next;
    hide LegalChange;
    hide WorkInv;
    hide OpenCommands;
    if c.Move? || c.Event? {
      NextTouched(x, c);
      CountAfterWrite(x.work, ChangedKey(c), Next(x, c).work[ChangedKey(c)]);
    } else if c.Receive? && c.queued {
      NextEnqueued(x, c);
      CountAfterWrite(x.work, NewWork(c).key, NewWork(c));
    } else {
      NextApart(x, c);
    }
  }

  // ---- The effect of a change on the outbox ----

  predicate Added(x: Index, y: Index, p: Publication) {
    && p.message.id != "" && p.message.id !in x.publications && !p.published
    && (!p.key.NoKey? ==> p.key !in x.keys)
    && (p.previous != "" ==> p.previous in x.publications)
    && y.publications == x.publications[p.message.id := p]
    && y.keys == (if p.key.NoKey? then x.keys else x.keys[p.key := p.message.id])
    && y.tails == (if p.message.runId == "" then x.tails else x.tails[EventKey(p.message) := p.message.id])
  }

  predicate Confirmed(x: Index, y: Index, id: string) {
    && id in x.publications && y.keys == x.keys && y.tails == x.tails
    && (x.publications[id].previous in x.publications ==> x.publications[x.publications[id].previous].published)
    && y.publications == x.publications[id := x.publications[id].(published := true)]
  }

  predicate SameOutbox(x: Index, y: Index) {
    y.publications == x.publications && y.keys == x.keys && y.tails == x.tails
  }

  function NewPublication(x: Index, c: Change): Publication
    requires RecordOf(x, c).publication.Some?
  {
    RecordOf(x, c).publication.value
  }

  lemma NextAdded(x: Index, c: Change)
    requires WorkInv(x) && KeyInv(x) && PubInv(x) && LegalChange(x, c) && (c.ClientPublish? || c.Event?)
    ensures RecordOf(x, c).publication.Some? && Added(x, Next(x, c), NewPublication(x, c))
    ensures NewPublication(x, c).message == (if c.ClientPublish? then c.env else c.event)
    ensures NewPublication(x, c).previous == Previous(x, NewPublication(x, c).message)
  {
    if c.Event? {
      assert WorkOk(x, c.eventOf, x.work[c.eventOf]);
      assert SlotOf(x.work[c.eventOf]) !in x.keys;
    }
  }

  lemma NextConfirmed(x: Index, c: Change)
    requires PubInv(x) && LegalChange(x, c) && c.Published?
    ensures Confirmed(x, Next(x, c), c.id)
  {
  }

  lemma NextSameOutbox(x: Index, c: Change)
    requires LegalChange(x, c) && (c.Receive? || c.Move?)
    ensures SameOutbox(x, Next(x, c))
  {
    hide WorkShard;
    hide IsCommand;
    hide MoveOk;
    hide IsHead;
  }

  lemma AddedKeepsPubInv(x: Index, y: Index, p: Publication)
    requires PubInv(x) && Added(x, y, p)
    ensures PubInv(y)
  {
    forall id | id in y.publications
      ensures PubOk(y, id, y.publications[id])
    {
      if id != p.message.id {
        assert PubOk(x, id, x.publications[id]);
      }
    }
  }

  lemma ConfirmedKeepsPubInv(x: Index, y: Index, id: string)
    requires PubInv(x) && Confirmed(x, y, id)
    ensures PubInv(y)
  {
    assert PubOk(x, id, x.publications[id]);
    forall i | i in y.publications
      ensures PubOk(y, i, y.publications[i])
    {
      assert PubOk(x, i, x.publications[i]);
    }
  }

  lemma SamePubInv(x: Index, y: Index)
    requires PubInv(x) && SameOutbox(x, y)
    ensures PubInv(y)
  {
    forall i | i in y.publications
      ensures PubOk(y, i, y.publications[i])
    {
      assert PubOk(x, i, x.publications[i]);
    }
  }

  lemma NextPubInv(x: Index, c: Change)
    requires WorkInv(x) && PubInv(x) && KeyInv(x) && LegalChange(x, c)
    ensures PubInv(Next(x, c))
  {
    hide Next;
    hide LegalChange;
    hide WorkInv;
    hide PubInv;
    if c.ClientPublish? || c.Event? {
      NextAdded(x, c);
      AddedKeepsPubInv(x, Next(x, c), NewPublication(x, c));
    } else if c.Published? {
      NextConfirmed(x, c);
      ConfirmedKeepsPubInv(x, Next(x, c), c.id);
    } else {
      NextSameOutbox(x, c);
      SamePubInv(x, Next(x, c));
    }
  }

  /** No slot beyond a work's event count is taken. */
  predicate SlotsGrow(x: Index, y: Index) {
    forall k :: k in x.work ==> k in y.work && x.work[k].seqNo <= y.work[k].seqNo
  }

  lemma NextSlotsGrow(x: Index, c: Change)
    requires WorkInv(x) && LegalChange(x, c)
    ensures SlotsGrow(x, Next(x, c))
  {
    hide Next;
    hide LegalChange;
    hide WorkInv;
    if c.Move? || c.Event? {
      NextTouched(x, c);
    } else if c.Receive? && c.queued {
      NextEnqueued(x, c);
    } else {
      NextApart(x, c);
    }
  }

  lemma AddedKeepsKeyInv(x: Index, y: Index, p: Publication)
    requires KeyInv(x) && SlotsGrow(x, y) && Added(x, y, p)
    requires p.key.EventSlot? ==> p.key.workKey in y.work && 1 <= p.key.seqNo <= y.work[p.key.workKey].seqNo
    ensures KeyInv(y)
  {
  }

  lemma ConfirmedKeepsKeyInv(x: Index, y: Index, id: string)
    requires KeyInv(x) && SlotsGrow(x, y) && Confirmed(x, y, id)
    ensures KeyInv(y)
  {
  }

  lemma SameKeyInv(x: Index, y: Index)
    requires KeyInv(x) && SlotsGrow(x, y) && SameOutbox(x, y)
    ensures KeyInv(y)
  {
  }

  lemma NextKeyInv(x: Index, c: Change)
    requires WorkInv(x) && PubInv(x) && KeyInv(x) && LegalChange(x, c)
    ensures KeyInv(Next(x, c))
  {
    hide Next;
    hide KeyInv;
    hide PubInv;
    NextSlotsGrow(x, c);
    if c.ClientPublish? || c.Event? {
      NextAdded(x, c);
      if c.Event? {
        NextTouched(x, c);
        assert WorkOk(x, c.eventOf, x.work[c.eventOf]);
      }
      AddedKeepsKeyInv(x, Next(x, c), NewPublication(x, c));
    } else if c.Published? {
      NextConfirmed(x, c);
      ConfirmedKeepsKeyInv(x, Next(x, c), c.id);
    } else {
      NextSameOutbox(x, c);
      SameKeyInv(x, Next(x, c));
    }
  }

  lemma NextInv(x: Index, c: Change)
    requires Inv(x) && LegalChange(x, c)
    ensures Inv(Next(x, c))
  {
    hide Next;
    hide LegalChange;
    hide WorkInv;
    hide QueueInv;
    hide CountInv;
    hide PubInv;
    hide KeyInv;
    NextWorkInv(x, c);
    NextQueueInv(x, c);
    NextCountInv(x, c);
    NextPubInv(x, c);
    NextKeyInv(x, c);
  }

  lemma {:induction false} AfterInv(cs: seq<Change>)
    requires Legal(cs)
    ensures Inv(After(cs))
  {
    if cs != [] {
      AfterInv(cs[..|cs| - 1]);
      NextInv(After(cs[..|cs| - 1]), cs[|cs| - 1]);
    }
  }
}
