/** The content store (internal/blob): immutable objects named by the digest of their bytes, grants
    that give one Bot one object, pinned readers, mark-and-sweep, export and import. */
module ContentStore {
  import opened Wrappers

  type Bytes = seq<bv8>

  /** The hash is taken to be injective: a digest determines the bytes. */
  datatype Digest = Digest(content: Bytes)

  datatype Ref = Ref(digest: Digest, size: nat, data: string)

  /** A reference file; Malformed is one that cannot be decoded or fails its checks. */
  datatype GrantFile = Grant(ref: Ref) | Malformed

  datatype Reader = Reader(digest: Digest, isOpen: bool)

  datatype Entry = Entry(bot: string, desired: string, archived: bool)

  datatype Catalog = Unreadable | Catalog(version: int, entries: Option<seq<Entry>>)

  /** Non-positive limits are unlimited. */
  datatype Limits = Limits(maxBytes: int, tempBytes: int)

  datatype Store = Store(
    limits: Limits, objects: map<Digest, Bytes>, bots: map<string, map<string, GrantFile>>,
    pins: map<Digest, int>, readers: seq<Reader>, catalog: Catalog)

  datatype Error = InvalidReference | MissingDirectory | NotFound | Damaged | OverCapacity | SizeMismatch
    | ChecksumMismatch | OverQuota | Conflict | CatalogInvalid | InvalidMetadata

  datatype Result = Done(ref: Ref) | Refused(error: Error)

  datatype Reply = Reply(store: Store, result: Result)

  datatype ImportReply = ImportReply(store: Store, error: Option<Error>)

  datatype WriteOptions = WriteOptions(maxBytes: int, quotaBytes: int, expectedSize: int, expectedDigest: Option<Digest>, data: string)

  predicate ValidID(id: string) {
    1 <= |id| <= 256
    && forall i :: 0 <= i < |id| ==>
      'a' <= id[i] <= 'z' || 'A' <= id[i] <= 'Z' || '0' <= id[i] <= '9' || id[i] == '-' || id[i] == '_'
  }

  // ---- Sizes ----

  ghost function Total(digests: set<Digest>): nat {
    if digests == {} then 0
    else
      var d :| d in digests;
      |d.content| + Total(digests - {d})
  }

  lemma {:induction false} TotalRemove(digests: set<Digest>, x: Digest)
    requires x in digests
    ensures Total(digests) == |x.content| + Total(digests - {x})
  {
    var d :| d in digests && Total(digests) == |d.content| + Total(digests - {d});
    if d != x {
      TotalRemove(digests - {d}, x);
      TotalRemove(digests - {x}, d);
      assert digests - {d} - {x} == digests - {x} - {d};
    }
  }

  lemma TotalInsert(digests: set<Digest>, x: Digest)
    ensures Total(digests + {x}) == Total(digests) + (if x in digests then 0 else |x.content|)
  {
    if x in digests {
      assert digests + {x} == digests;
    } else {
      TotalRemove(digests + {x}, x);
      assert digests + {x} - {x} == digests;
    }
  }

  lemma {:induction false} TotalMonotone(a: set<Digest>, b: set<Digest>)
    requires a <= b
    ensures Total(a) <= Total(b)
    decreases b
  {
    if !(b <= a) {
      var x :| x in b && x !in a;
      TotalRemove(b, x);
      TotalMonotone(a, b - {x});
    } else {
      assert a == b;
    }
  }

  /** The bytes that a directory of objects takes, whatever its files hold. */
  ghost function Stored(objects: map<Digest, Bytes>): nat {
    if objects == map[] then 0
    else
      var d :| d in objects;
      |objects[d]| + Stored(objects - {d})
  }

  lemma {:induction false} StoredRemove(objects: map<Digest, Bytes>, x: Digest)
    requires x in objects
    ensures Stored(objects) == |objects[x]| + Stored(objects - {x})
    decreases |objects|
  {
    var d :| d in objects && Stored(objects) == |objects[d]| + Stored(objects - {d});
    if d != x {
      StoredRemove(objects - {d}, x);
      StoredRemove(objects - {x}, d);
      assert objects - {d} - {x} == objects - {x} - {d};
    }
  }

  lemma StoredInsert(objects: map<Digest, Bytes>, x: Digest, content: Bytes)
    requires x !in objects
    ensures Stored(objects[x := content]) == Stored(objects) + |content|
  {
    StoredRemove(objects[x := content], x);
    assert objects[x := content] - {x} == objects;
  }

  lemma {:induction false} StoredMonotone(objects: map<Digest, Bytes>, removed: set<Digest>)
    ensures Stored(objects - removed) <= Stored(objects)
    decreases removed
  {
    if removed == {} {
      assert objects - {} == objects;
    } else {
      var x :| x in removed;
      StoredMonotone(objects, removed - {x});
      var rest := objects - (removed - {x});
      assert objects - removed == rest - {x};
      if x in rest {
        StoredRemove(rest, x);
      } else {
        assert rest - {x} == rest;
      }
    }
  }

  /** Objects that hold what their digests name take the total of their digests. */
  lemma {:induction false} StoredSound(objects: map<Digest, Bytes>)
    requires forall d :: d in objects ==> objects[d] == d.content
    ensures Stored(objects) == Total(objects.Keys)
    decreases |objects|
  {
    if objects != map[] {
      var d :| d in objects;
      StoredRemove(objects, d);
      TotalRemove(objects.Keys, d);
      StoredSound(objects - {d});
      assert (objects - {d}).Keys == objects.Keys - {d};
    }
  }

  // ---- What a store holds ----

  /** The object is present with the bytes its digest names and the recorded size. */
  predicate Verified(s: Store, digest: Digest, size: nat) {
    digest in s.objects && s.objects[digest] == digest.content && |digest.content| == size
  }

  predicate Readable(grants: map<string, GrantFile>) {
    forall id :: id in grants ==> grants[id].Grant? && ValidID(id)
  }

  function Digests(grants: map<string, GrantFile>): set<Digest> {
    set id | id in grants && grants[id].Grant? :: grants[id].ref.digest
  }

  predicate Granted(s: Store, bot: string, id: string) {
    bot in s.bots && id in s.bots[bot] && s.bots[bot][id].Grant?
  }

  function GrantedRef(s: Store, bot: string, id: string): Ref
    requires Granted(s, bot, id)
  {
    s.bots[bot][id].ref
  }

  function Live(s: Store): set<Digest> {
    set bot, id | bot in s.bots && id in s.bots[bot] && s.bots[bot][id].Grant? :: s.bots[bot][id].ref.digest
  }

  /** The recorded size of every grant is the size of the bytes its digest names. */
  ghost predicate Sized(s: Store) {
    forall bot, id :: Granted(s, bot, id) ==> GrantedRef(s, bot, id).size == |GrantedRef(s, bot, id).digest.content|
  }

  predicate ObjectsSound(s: Store) {
    forall d :: d in s.objects ==> s.objects[d] == d.content
  }

  ghost predicate Complete(s: Store) {
    forall bot, id :: Granted(s, bot, id) ==> Verified(s, GrantedRef(s, bot, id).digest, GrantedRef(s, bot, id).size)
  }

  function OpenReaders(readers: seq<Reader>, d: Digest): nat {
    if readers == [] then 0
    else OpenReaders(readers[1..], d) + (if readers[0].isOpen && readers[0].digest == d then 1 else 0)
  }

  function PinCount(s: Store, d: Digest): int {
    if d in s.pins then s.pins[d] else 0
  }

  /** The pin counts are the open readers, and what an open reader reads is there. */
  ghost predicate Pinned(s: Store) {
    && (forall d :: PinCount(s, d) == OpenReaders(s.readers, d))
    && (forall i :: 0 <= i < |s.readers| && s.readers[i].isOpen ==> s.readers[i].digest in s.objects)
  }

  ghost predicate WithinCapacity(s: Store) {
    s.limits.maxBytes > 0 ==> Stored(s.objects) <= s.limits.maxBytes
  }

  ghost predicate Integrity(s: Store) {
    Sized(s) && ObjectsSound(s) && Complete(s) && Pinned(s) && WithinCapacity(s)
    && forall bot :: bot in s.bots ==> Readable(s.bots[bot])
  }

  ghost function Usage(s: Store, bot: string): nat
    requires bot in s.bots
  {
    Total(Digests(s.bots[bot]))
  }

  // ---- Put ----

  function Limit(s: Store, maxBytes: int): int {
    if s.limits.tempBytes > 0 && (maxBytes <= 0 || s.limits.tempBytes < maxBytes) then s.limits.tempBytes else maxBytes
  }

  ghost predicate QuotaExceeded(s: Store, bot: string, content: Bytes, quota: int)
    requires bot in s.bots
  {
    Digest(content) !in Digests(s.bots[bot]) && quota > 0 && |content| > quota - Usage(s, bot)
  }

  ghost predicate CapacityExceeded(s: Store, content: Bytes) {
    s.limits.maxBytes > 0 && |content| > s.limits.maxBytes - Stored(s.objects)
  }

  /** The checks of put in their order, before anything is published. */
  ghost function PutRefusal(s: Store, bot: string, id: string, content: Bytes, o: WriteOptions): Option<Error> {
    var d := Digest(content);
    if !ValidID(id) then Some(InvalidReference)
    else if bot !in s.bots then Some(MissingDirectory)
    else if id in s.bots[bot] then
      if s.bots[bot][id].Malformed? then Some(InvalidReference)
      else if Verified(s, s.bots[bot][id].ref.digest, s.bots[bot][id].ref.size) then None else Some(Damaged)
    else if !Readable(s.bots[bot]) then Some(InvalidReference)
    else if Limit(s, o.maxBytes) > 0 && |content| > Limit(s, o.maxBytes) then Some(OverCapacity)
    else if o.expectedSize >= 0 && |content| != o.expectedSize then Some(SizeMismatch)
    else if o.expectedDigest.Some? && o.expectedDigest.value != d then Some(ChecksumMismatch)
    else if QuotaExceeded(s, bot, content, o.quotaBytes) then Some(OverQuota)
    else if d in s.objects then (if Verified(s, d, |content|) then None else Some(Damaged))
    else if CapacityExceeded(s, content) then Some(OverCapacity)
    else None
  }

  /** The object appears under its digest, complete, before any grant names it. */
  function Publish(s: Store, content: Bytes): Store {
    if Digest(content) in s.objects then s else s.(objects := s.objects[Digest(content) := content])
  }

  function WriteGrant(s: Store, bot: string, id: string, ref: Ref): Store
    requires bot in s.bots
  {
    s.(bots := s.bots[bot := s.bots[bot][id := Grant(ref)]])
  }

  ghost function Put(s: Store, bot: string, id: string, content: Bytes, o: WriteOptions): Reply {
    var refusal := PutRefusal(s, bot, id, content, o);
    if refusal.Some? then Reply(s, Refused(refusal.value))
    else if id in s.bots[bot] then Reply(s, Done(s.bots[bot][id].ref))
    else
      var ref := Ref(Digest(content), |content|, o.data);
      Reply(WriteGrant(Publish(s, content), bot, id, ref), Done(ref))
  }

  /** A crash between publication and grant leaves an unreachable object. */
  ghost function CrashedPut(s: Store, bot: string, id: string, content: Bytes, o: WriteOptions): Store {
    if PutRefusal(s, bot, id, content, o).None? && id !in s.bots[bot] then Publish(s, content) else s
  }

  // ---- Readers ----

  function Open(s: Store, bot: string, id: string): Reply {
    if bot !in s.bots || id !in s.bots[bot] || !ValidID(id) then Reply(s, Refused(NotFound))
    else if s.bots[bot][id].Malformed? then Reply(s, Refused(InvalidReference))
    else
      var ref := s.bots[bot][id].ref;
      if !Verified(s, ref.digest, ref.size) then Reply(s, Refused(Damaged))
      else Reply(s.(pins := s.pins[ref.digest := PinCount(s, ref.digest) + 1], readers := s.readers + [Reader(ref.digest, true)]), Done(ref))
  }

  /** Close unpins once, however often it is called. */
  function Close(s: Store, reader: nat): Store {
    if reader >= |s.readers| || !s.readers[reader].isOpen then s
    else
      var d := s.readers[reader].digest;
      s.(pins := s.pins[d := PinCount(s, d) - 1], readers := s.readers[reader := Reader(d, false)])
  }

  /** A restarted daemon has no readers. */
  function Restart(s: Store): Store {
    s.(pins := map[], readers := [])
  }

  function Delete(s: Store, bot: string, id: string): Reply {
    if bot !in s.bots || id !in s.bots[bot] || !ValidID(id) then Reply(s, Refused(NotFound))
    else if s.bots[bot][id].Malformed? then Reply(s, Refused(InvalidReference))
    else Reply(s.(bots := s.bots[bot := s.bots[bot] - {id}]), Done(s.bots[bot][id].ref))
  }

  /** The transfer's metadata in the reference file is replaced; `valid` says whether it is JSON. */
  function Update(s: Store, bot: string, id: string, data: string, valid: bool): Reply {
    if !valid then Reply(s, Refused(InvalidMetadata))
    else if bot !in s.bots || id !in s.bots[bot] || !ValidID(id) then Reply(s, Refused(NotFound))
    else if s.bots[bot][id].Malformed? then Reply(s, Refused(InvalidReference))
    else
      var ref := s.bots[bot][id].ref.(data := data);
      Reply(WriteGrant(s, bot, id, ref), Done(ref))
  }

  // ---- Collection ----

  predicate EntryOk(e: Entry) {
    ValidID(e.bot) && (e.desired == "running" || e.desired == "stopped") && (e.archived ==> e.desired == "stopped")
  }

  /** The guard before collection: every registered Bot still has its reference directory. */
  predicate CatalogOk(s: Store) {
    && s.catalog.Catalog? && s.catalog.version == 3 && s.catalog.entries.Some?
    && var entries := s.catalog.entries.value;
       && (forall i :: 0 <= i < |entries| ==> EntryOk(entries[i]) && entries[i].bot in s.bots)
       && (forall i, j :: 0 <= i < j < |entries| ==> entries[i].bot != entries[j].bot)
  }

  /** The mark phase succeeds: every grant of every Bot is readable and verified. */
  ghost predicate Markable(s: Store) {
    CatalogOk(s) && Complete(s) && forall bot :: bot in s.bots ==> ValidID(bot) && Readable(s.bots[bot])
  }

  function Dead(s: Store): set<Digest> {
    set d | d in s.objects && d !in Live(s) && PinCount(s, d) == 0
  }

  /** A sweep that removed some objects; it is complete when it removed all dead ones. */
  function Swept(s: Store, removed: set<Digest>): Store {
    s.(objects := s.objects - removed)
  }

  // ---- Export and import ----

  datatype Bundle = Bundle(objects: map<Digest, Bytes>, refs: map<string, GrantFile>)

  predicate Exportable(s: Store, bot: string) {
    bot in s.bots && Readable(s.bots[bot])
    && forall id :: id in s.bots[bot] ==> Verified(s, s.bots[bot][id].ref.digest, s.bots[bot][id].ref.size)
  }

  function Export(s: Store, bot: string): Bundle
    requires Exportable(s, bot)
  {
    Bundle(map d | d in Digests(s.bots[bot]) :: d.content, s.bots[bot])
  }

  predicate InBundle(b: Bundle, ref: Ref) {
    ref.digest in b.objects && b.objects[ref.digest] == ref.digest.content && |ref.digest.content| == ref.size
  }

  /** The directory of an imported Bot is created when it does not exist. */
  function WithDirectory(s: Store, bot: string): Store {
    if bot in s.bots then s else s.(bots := s.bots[bot := map[]])
  }

  /** The checks on one exported reference, before any grant is created. */
  function EntryRefusal(s: Store, bot: string, b: Bundle, id: string): Option<Error>
    requires bot in s.bots && id in b.refs
  {
    if !ValidID(id) || b.refs[id].Malformed? then Some(InvalidReference)
    else
      var ref := b.refs[id].ref;
      if !InBundle(b, ref) then Some(Damaged)
      else if id in s.bots[bot] && (s.bots[bot][id].Malformed? || s.bots[bot][id].ref != ref) then Some(Conflict)
      else None
  }

  function FirstRefusal(s: Store, bot: string, b: Bundle, order: seq<string>): Option<Error>
    requires bot in s.bots && forall i :: 0 <= i < |order| ==> order[i] in b.refs
  {
    if order == [] then None
    else
      var earlier := FirstRefusal(s, bot, b, order[..|order| - 1]);
      if earlier.Some? then earlier else EntryRefusal(s, bot, b, order[|order| - 1])
  }

  /** restoreObject: a grant whose object is missing gets it back. */
  ghost function Restore(s: Store, ref: Ref): Reply {
    if Verified(s, ref.digest, ref.size) then Reply(s, Done(ref))
    else if ref.digest in s.objects then Reply(s, Refused(Damaged))
    else if s.limits.tempBytes > 0 && ref.size > s.limits.tempBytes then Reply(s, Refused(OverCapacity))
    else if CapacityExceeded(s, ref.digest.content) then Reply(s, Refused(OverCapacity))
    else Reply(Publish(s, ref.digest.content), Done(ref))
  }

  ghost function ImportOne(s: Store, bot: string, id: string, ref: Ref, quota: int): Reply
    requires bot in s.bots
  {
    if id in s.bots[bot] then Restore(s, ref)
    else Put(s, bot, id, ref.digest.content, WriteOptions(0, quota, ref.size, Some(ref.digest), ref.data))
  }

  /** The import loop over the checked references, stopping at the first error. */
  ghost function ImportLoop(s: Store, bot: string, b: Bundle, quota: int, order: seq<string>): ImportReply
    requires bot in s.bots && forall i :: 0 <= i < |order| ==> order[i] in b.refs && b.refs[order[i]].Grant?
    ensures bot in ImportLoop(s, bot, b, quota, order).store.bots
    decreases |order|
  {
    if order == [] then ImportReply(s, None)
    else
      var before := ImportLoop(s, bot, b, quota, order[..|order| - 1]);
      if before.error.Some? then before
      else
        var one := ImportOne(before.store, bot, order[|order| - 1], b.refs[order[|order| - 1]].ref, quota);
        ImportReply(one.store, if one.result.Refused? then Some(one.result.error) else None)
  }

  /** The order in which the bundle's directory lists its references. */
  predicate Lists(order: seq<string>, b: Bundle) {
    (forall i :: 0 <= i < |order| ==> order[i] in b.refs) && (forall id :: id in b.refs ==> id in order)
    && (forall i, j :: 0 <= i < j < |order| ==> order[i] != order[j])
  }

  /** The distinct digests the Bot will hold afterwards. */
  function Combined(s: Store, bot: string, b: Bundle): set<Digest>
    requires bot in s.bots
  {
    Digests(s.bots[bot]) + Digests(b.refs)
  }

  ghost function Import(s: Store, bot: string, b: Bundle, quota: int, order: seq<string>): ImportReply
    requires Lists(order, b)
  {
    if !ValidID(bot) then ImportReply(s, Some(InvalidReference))
    else
      var t := WithDirectory(s, bot);
      if !Readable(t.bots[bot]) then ImportReply(t, Some(InvalidReference))
      else
        var refusal := FirstRefusal(t, bot, b, order);
        if refusal.Some? then ImportReply(t, Some(refusal.value))
        else if quota > 0 && Total(Combined(t, bot, b)) > quota then ImportReply(t, Some(OverQuota))
        else
          AcceptedEntries(t, bot, b, order);
          ImportLoop(t, bot, b, quota, order)
  }

  lemma {:induction false} AcceptedEntries(s: Store, bot: string, b: Bundle, order: seq<string>)
    requires bot in s.bots && forall i :: 0 <= i < |order| ==> order[i] in b.refs
    ensures FirstRefusal(s, bot, b, order).None? <==> forall i :: 0 <= i < |order| ==> EntryRefusal(s, bot, b, order[i]).None?
    ensures FirstRefusal(s, bot, b, order).None? ==> forall i :: 0 <= i < |order| ==> b.refs[order[i]].Grant?
  {
    if order != [] {
      AcceptedEntries(s, bot, b, order[..|order| - 1]);
    }
  }
}
