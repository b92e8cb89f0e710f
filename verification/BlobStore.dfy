/** The content store as the object the daemon shares: each method is one region under its mutex
    and is proved to compute the operation of module ContentStore. */
module BlobStores {
  import opened Wrappers
  import opened ContentStore
  import opened ContentTheorems
  import opened ContentGrants
  import opened ContentImport
  import opened ContentExport

  function DigestsOf(refs: seq<Ref>): set<Digest> {
    set i | 0 <= i < |refs| :: refs[i].digest
  }

  /** The recorded size of the references that name a digest first. */
  function Recorded(refs: seq<Ref>): nat {
    if refs == [] then 0
    else
      var front, last := refs[..|refs| - 1], refs[|refs| - 1];
      Recorded(front) + if last.digest in DigestsOf(front) then 0 else last.size
  }

  lemma OneMoreRef(refs: seq<Ref>, i: nat)
    requires i < |refs|
    ensures DigestsOf(refs[..i + 1]) == DigestsOf(refs[..i]) + {refs[i].digest}
    ensures Recorded(refs[..i + 1]) == Recorded(refs[..i]) + if refs[i].digest in DigestsOf(refs[..i]) then 0 else refs[i].size
  {
    assert refs[..i + 1][..i] == refs[..i] && refs[..i + 1] == refs[..i] + [refs[i]];
    forall d | d in DigestsOf(refs[..i]) + {refs[i].digest} ensures d in DigestsOf(refs[..i + 1]) {
      if d in DigestsOf(refs[..i]) {
        var j :| 0 <= j < i && refs[..i][j].digest == d;
        assert refs[..i + 1][j].digest == d;
      } else {
        assert refs[..i + 1][i].digest == d;
      }
    }
  }

  predicate SizedRefs(refs: seq<Ref>) {
    forall i :: 0 <= i < |refs| ==> refs[i].size == |refs[i].digest.content|
  }

  /** Adds up the recorded sizes, each digest once: the bytes that the digests name, when the sizes
      are theirs. */
  method DistinctBytes(refs: seq<Ref>) returns (seen: set<Digest>, logical: nat)
    ensures seen == DigestsOf(refs) && logical == Recorded(refs)
    ensures SizedRefs(refs) ==> logical == Total(seen)
  {
    seen, logical := {}, 0;
    for i := 0 to |refs|
      invariant seen == DigestsOf(refs[..i]) && logical == Recorded(refs[..i])
      invariant SizedRefs(refs) ==> logical == Total(seen)
    {
      OneMoreRef(refs, i);
      hide DigestsOf;
      hide Recorded;
      TotalInsert(seen, refs[i].digest);
      if refs[i].digest !in seen {
        logical := logical + refs[i].size;
      }
      seen := seen + {refs[i].digest};
    }
    assert refs[..|refs|] == refs;
  }

  /** The size of a directory of objects, sound or damaged. */
  method TreeBytes(objects: map<Digest, Bytes>) returns (n: nat)
    ensures n == Stored(objects)
  {
    n := 0;
    var todo := objects.Keys;
    while todo != {}
      invariant todo <= objects.Keys && n == Stored(objects - todo)
      decreases todo
    {
      var d :| d in todo;
      assert (objects - todo)[d := objects[d]] == objects - (todo - {d});
      StoredInsert(objects - todo, d, objects[d]);
      n := n + |objects[d]|;
      todo := todo - {d};
    }
    assert objects - todo == objects;
  }

  predicate Names(grants: map<string, GrantFile>, ref: Ref) {
    exists id :: id in grants && grants[id] == Grant(ref)
  }

  lemma GrantNamed(grants: map<string, GrantFile>, id: string)
    requires id in grants && grants[id].Grant?
    ensures Names(grants, grants[id].ref)
  {
    assert grants[id] == Grant(grants[id].ref);
  }

  lemma ListedDigests(grants: map<string, GrantFile>, refs: seq<Ref>)
    requires forall id :: id in grants ==> grants[id].Grant? && grants[id].ref in refs
    requires forall i :: 0 <= i < |refs| ==> Names(grants, refs[i])
    ensures DigestsOf(refs) == Digests(grants)
  {
    forall d | d in Digests(grants) ensures d in DigestsOf(refs) {
      var id :| id in grants && grants[id].Grant? && grants[id].ref.digest == d;
      var i :| 0 <= i < |refs| && refs[i] == grants[id].ref;
      assert refs[i].digest == d;
    }
  }

  /** The grants of one Bot as a list, unless one of them is malformed. */
  method References(grants: map<string, GrantFile>) returns (refs: Option<seq<Ref>>)
    ensures refs.Some? <==> Readable(grants)
    ensures refs.Some? ==> DigestsOf(refs.value) == Digests(grants)
    ensures refs.Some? ==> forall i :: 0 <= i < |refs.value| ==> Names(grants, refs.value[i])
    ensures refs.Some? ==> forall id :: id in grants ==> grants[id].ref in refs.value
  {
    var list: seq<Ref> := [];
    var todo := grants.Keys;
    while todo != {}
      invariant todo <= grants.Keys
      invariant forall id :: id in grants && id !in todo ==> grants[id].Grant? && ValidID(id) && grants[id].ref in list
      invariant forall i :: 0 <= i < |list| ==> Names(grants, list[i])
      decreases todo
    {
      var id :| id in todo;
      if !ValidID(id) || grants[id].Malformed? {
        return None;
      }
      GrantNamed(grants, id);
      list := list + [grants[id].ref];
      todo := todo - {id};
    }
    refs := Some(list);
    ListedDigests(grants, list);
  }

  lemma ReferencesSized(s: Store, bot: string, refs: seq<Ref>)
    requires Sized(s) && bot in s.bots && forall i :: 0 <= i < |refs| ==> Names(s.bots[bot], refs[i])
    ensures SizedRefs(refs)
  {
    forall i | 0 <= i < |refs| ensures refs[i].size == |refs[i].digest.content| {
      assert Names(s.bots[bot], refs[i]);
      var key :| key in s.bots[bot] && s.bots[bot][key] == Grant(refs[i]);
      assert Granted(s, bot, key);
    }
  }

  class BlobStore {
    const limits: Limits
    var objects: map<Digest, Bytes>
    var bots: map<string, map<string, GrantFile>>
    var pins: map<Digest, int>
    var readers: seq<Reader>
    var catalog: Catalog

    ghost function View(): Store
      reads this
    {
      Store(limits, objects, bots, pins, readers, catalog)
    }

    /** Every grant records the size that its digest has. Objects may be lost or damaged. */
    ghost predicate Valid()
      reads this
    {
      Sized(View())
    }

    constructor (limits: Limits, catalog: Catalog)
      ensures Integrity(View()) && this.limits == limits && bots == map[] && objects == map[] && this.catalog == catalog
    {
      this.limits, this.catalog := limits, catalog;
      objects, bots, pins, readers := map[], map[], map[], [];
      new;
      assert Stored(map[]) == 0;
    }

    method VerifyObject(digest: Digest, size: nat) returns (ok: bool)
      ensures ok == Verified(View(), digest, size)
    {
      ok := digest in objects && |objects[digest]| == size && Digest(objects[digest]) == digest;
    }

    /** Moves complete bytes to their digest's path unless an object is there. */
    method PublishObject(content: Bytes)
      modifies `objects
      ensures View() == Publish(old(View()), content)
    {
      if Digest(content) !in objects {
        objects := objects[Digest(content) := content];
      }
    }

    method Put(bot: string, id: string, content: Bytes, o: WriteOptions) returns (r: Result)
      requires Valid()
      modifies `objects, `bots
      ensures Reply(View(), r) == ContentStore.Put(old(View()), bot, id, content, o)
      ensures if old(MayStore(View(), bot, id, content, o)) then
                && r == Done(Ref(Digest(content), |content|, o.data)) && objects == old(objects)[Digest(content) := content]
                && At(View(), bot, id) == Some(Grant(r.ref)) && OtherGrantsStay(old(View()), View(), bot, id)
              else View() == old(View()) && (r.Done? ==> At(View(), bot, id) == Some(Grant(r.ref)))
      ensures Valid() && (old(Integrity(View())) ==> Integrity(View()))
    {
      hide Integrity;
      hide Sized;
      hide Verified;
      hide QuotaExceeded;
      hide CapacityExceeded;
      hide MayStore;
      hide OtherGrantsStay;
      PutEffect(View(), bot, id, content, o);
      if Integrity(View()) {
        PutKeeps(View(), bot, id, content, o);
      }
      PutStaysSized(View(), bot, id, content, o);
      if !ValidID(id) {
        return Refused(InvalidReference);
      }
      if bot !in bots {
        return Refused(MissingDirectory);
      }
      if id in bots[bot] {
        if bots[bot][id].Malformed? {
          return Refused(InvalidReference);
        }
        var existing := bots[bot][id].ref;
        var intact := VerifyObject(existing.digest, existing.size);
        return if intact then Done(existing) else Refused(Damaged);
      }
      var refs := References(bots[bot]);
      if refs.None? {
        return Refused(InvalidReference);
      }
      var limit := o.maxBytes;
      if limits.tempBytes > 0 && (limit <= 0 || limits.tempBytes < limit) {
        limit := limits.tempBytes;
      }
      if limit > 0 && |content| > limit {
        return Refused(OverCapacity);
      }
      if o.expectedSize >= 0 && |content| != o.expectedSize {
        return Refused(SizeMismatch);
      }
      var digest := Digest(content);
      if o.expectedDigest.Some? && o.expectedDigest.value != digest {
        return Refused(ChecksumMismatch);
      }
      var fits := WithinQuota(bot, refs.value, content, o.quotaBytes);
      if !fits {
        return Refused(OverQuota);
      }
      var error := StoreObject(content);
      if error.Some? {
        return Refused(error.value);
      }
      var ref := Ref(digest, |content|, o.data);
      bots := bots[bot := bots[bot][id := Grant(ref)]];
      r := Done(ref);
    }

    /** Whether the Bot's distinct digests leave room for the content. */
    method WithinQuota(bot: string, refs: seq<Ref>, content: Bytes, quota: int) returns (fits: bool)
      requires Valid() && bot in bots && DigestsOf(refs) == Digests(bots[bot])
      requires forall i :: 0 <= i < |refs| ==> Names(bots[bot], refs[i])
      ensures fits == !QuotaExceeded(View(), bot, content, quota)
    {
      ReferencesSized(View(), bot, refs);
      hide Sized;
      var seen, logical := DistinctBytes(refs);
      fits := !(Digest(content) !in seen && quota > 0 && |content| > quota - logical);
    }

    /** The object is there and whole, or is published within the physical budget. */
    method StoreObject(content: Bytes) returns (error: Option<Error>)
      modifies `objects
      ensures var s, d := old(View()), Digest(content);
              && error == (if d in s.objects then (if Verified(s, d, |content|) then None else Some(Damaged))
                           else if CapacityExceeded(s, content) then Some(OverCapacity) else None)
              && View() == if error.None? then Publish(s, content) else s
    {
      if Digest(content) in objects {
        var intact := VerifyObject(Digest(content), |content|);
        return if intact then None else Some(Damaged);
      }
      var physical := TreeBytes(objects);
      if limits.maxBytes > 0 && |content| > limits.maxBytes - physical {
        return Some(OverCapacity);
      }
      PublishObject(content);
      error := None;
    }

    method Open(bot: string, id: string) returns (r: Result, reader: nat)
      modifies `pins, `readers
      ensures Reply(View(), r) == ContentStore.Open(old(View()), bot, id)
      ensures r.Done? ==> reader < |readers| && readers[reader] == Reader(r.ref.digest, true)
      ensures r.Done? <==> ValidID(id) && Granted(old(View()), bot, id)
                           && Verified(old(View()), GrantedRef(old(View()), bot, id).digest, GrantedRef(old(View()), bot, id).size)
      ensures r.Done? ==> r.ref == GrantedRef(old(View()), bot, id) && readers == old(readers) + [Reader(r.ref.digest, true)]
                          && pins == old(pins)[r.ref.digest := PinCount(old(View()), r.ref.digest) + 1]
      ensures r.Refused? ==> unchanged(this)
      ensures old(Integrity(View())) ==> Integrity(View())
    {
      if Integrity(View()) {
        OpenKeeps(View(), bot, id);
      }
      hide Integrity;
      reader := |readers|;
      if bot !in bots || !ValidID(id) || id !in bots[bot] {
        return Refused(NotFound), reader;
      }
      if bots[bot][id].Malformed? {
        return Refused(InvalidReference), reader;
      }
      var ref := bots[bot][id].ref;
      var intact := VerifyObject(ref.digest, ref.size);
      if !intact {
        return Refused(Damaged), reader;
      }
      pins := pins[ref.digest := (if ref.digest in pins then pins[ref.digest] else 0) + 1];
      readers := readers + [Reader(ref.digest, true)];
      r := Done(ref);
    }

    /** A second Close of the same reader does nothing. */
    method CloseReader(reader: nat)
      requires reader < |readers|
      modifies `pins, `readers
      ensures View() == Close(old(View()), reader)
      ensures if old(readers[reader].isOpen) then
                var d := old(readers[reader].digest);
                readers == old(readers)[reader := Reader(d, false)] && pins == old(pins)[d := PinCount(old(View()), d) - 1]
              else unchanged(this)
      ensures old(Integrity(View())) ==> Integrity(View())
    {
      if Integrity(View()) {
        CloseKeeps(View(), reader);
      }
      hide Integrity;
      var r := readers[reader];
      if r.isOpen {
        readers := readers[reader := r.(isOpen := false)];
        pins := pins[r.digest := (if r.digest in pins then pins[r.digest] else 0) - 1];
      }
    }

    method Delete(bot: string, id: string) returns (r: Result)
      modifies `bots
      ensures Reply(View(), r) == ContentStore.Delete(old(View()), bot, id)
      ensures var at := At(old(View()), bot, id);
              if ValidID(id) && at.Some? && at.value.Grant? then
                r == Done(at.value.ref) && bots == old(bots)[bot := old(bots)[bot] - {id}]
              else unchanged(this) && r == Refused(if ValidID(id) && at.Some? then InvalidReference else NotFound)
      ensures old(Integrity(View())) ==> Integrity(View())
    {
      if Integrity(View()) {
        DeleteKeeps(View(), bot, id);
      }
      hide Integrity;
      if bot !in bots || !ValidID(id) || id !in bots[bot] {
        return Refused(NotFound);
      }
      if bots[bot][id].Malformed? {
        return Refused(InvalidReference);
      }
      r := Done(bots[bot][id].ref);
      bots := bots[bot := bots[bot] - {id}];
    }

    method UpdateData(bot: string, id: string, data: string, valid: bool) returns (r: Result)
      modifies `bots
      ensures Reply(View(), r) == ContentStore.Update(old(View()), bot, id, data, valid)
      ensures var at := At(old(View()), bot, id);
              if valid && ValidID(id) && at.Some? && at.value.Grant? then
                r == Done(at.value.ref.(data := data)) && bots == old(bots)[bot := old(bots)[bot][id := Grant(r.ref)]]
              else unchanged(this) && r.Refused?
      ensures old(Integrity(View())) ==> Integrity(View())
    {
      if Integrity(View()) {
        UpdateKeeps(View(), bot, id, data, valid);
      }
      hide Integrity;
      if !valid {
        return Refused(InvalidMetadata);
      }
      if bot !in bots || !ValidID(id) || id !in bots[bot] {
        return Refused(NotFound);
      }
      if bots[bot][id].Malformed? {
        return Refused(InvalidReference);
      }
      var ref := bots[bot][id].ref.(data := data);
      bots := bots[bot := bots[bot][id := Grant(ref)]];
      r := Done(ref);
    }

    /** Every registered Bot is well formed, registered once and has its reference directory. */
    method ValidateRegistered() returns (ok: bool)
      ensures ok == CatalogOk(View())
    {
      if catalog.Unreadable? || catalog.version != 3 || catalog.entries.None? {
        return false;
      }
      var entries := catalog.entries.value;
      var seen: set<string> := {};
      for i := 0 to |entries|
        invariant seen == set j | 0 <= j < i :: entries[j].bot
        invariant forall j :: 0 <= j < i ==> EntryOk(entries[j]) && entries[j].bot in bots
        invariant forall j, k :: 0 <= j < k < i ==> entries[j].bot != entries[k].bot
      {
        var e := entries[i];
        if !EntryOk(e) || e.bot in seen {
          return false;
        }
        seen := seen + {e.bot};
        if e.bot !in bots {
          return false;
        }
      }
      ok := true;
    }

    /** Every grant of the Bot is readable and its object is whole. */
    method VerifyGrants(bot: string) returns (ok: bool)
      requires bot in bots
      ensures ok == Exportable(View(), bot)
    {
      var refs := References(bots[bot]);
      if refs.None? {
        return false;
      }
      for i := 0 to |refs.value|
        invariant forall j :: 0 <= j < i ==> Verified(View(), refs.value[j].digest, refs.value[j].size)
      {
        var intact := VerifyObject(refs.value[i].digest, refs.value[i].size);
        if !intact {
          assert Names(bots[bot], refs.value[i]);
          return false;
        }
      }
      ok := true;
    }

    /** One Bot's part of the mark phase. */
    method MarkBot(bot: string) returns (live: Option<set<Digest>>)
      requires bot in bots
      ensures live.Some? <==> ValidID(bot) && Exportable(View(), bot)
      ensures live.Some? ==> live.value == Digests(bots[bot])
    {
      if !ValidID(bot) {
        return None;
      }
      var verified := VerifyGrants(bot);
      if !verified {
        return None;
      }
      live := Some(Digests(bots[bot]));
    }

    method Mark() returns (live: Option<set<Digest>>)
      ensures live.Some? <==> Markable(View())
      ensures live.Some? ==> live.value == Live(View())
    {
      var registered := ValidateRegistered();
      if !registered {
        return None;
      }
      hide CatalogOk;
      var marked: set<Digest> := {};
      var todo := bots.Keys;
      while todo != {}
        invariant todo <= bots.Keys
        invariant forall bot :: bot in bots.Keys - todo ==> ValidID(bot) && Exportable(View(), bot)
        invariant marked == set bot, id | bot in bots && bot !in todo && id in bots[bot] && bots[bot][id].Grant? :: bots[bot][id].ref.digest
        decreases todo
      {
        var bot :| bot in todo;
        var one := MarkBot(bot);
        if one.None? {
          if Markable(View()) {
            MarkableExports(View(), bot);
          }
          return None;
        }
        marked := marked + one.value;
        todo := todo - {bot};
      }
      ExportsMarkable(View());
      live := Some(marked);
    }

    /** Removes what is neither live nor pinned, until a removal fails. */
    method Sweep(live: set<Digest>, stuck: set<Digest>) returns (ok: bool, ghost removed: set<Digest>)
      requires live == Live(View())
      modifies `objects
      ensures View() == Swept(old(View()), removed) && removed <= Dead(old(View()))
      ensures ok ==> removed == Dead(old(View()))
      ensures Dead(old(View())) !! stuck ==> ok
    {
      ghost var start := View();
      removed := {};
      assert Swept(start, {}) == start;
      var todo := objects.Keys;
      while todo != {}
        invariant todo <= start.objects.Keys && View() == Swept(start, removed) && removed <= Dead(start) - todo
        invariant Dead(start) - todo <= removed
        decreases todo
      {
        var d :| d in todo;
        if d !in live && (d !in pins || pins[d] == 0) {
          if d in stuck {
            return false, removed;
          }
          objects := objects - {d};
          removed := removed + {d};
        }
        todo := todo - {d};
      }
      ok := true;
    }

    /** Mark and sweep. The removal of an object in `stuck` fails and ends the sweep; `removed`
        is what had been removed by then. */
    method Collect(stuck: set<Digest>) returns (ok: bool, ghost removed: set<Digest>)
      modifies `objects
      ensures View() == Swept(old(View()), removed) && removed <= Dead(old(View()))
      ensures !Markable(old(View())) ==> !ok && View() == old(View())
      ensures ok ==> forall d :: d in objects <==> d in old(objects) && (d in Live(old(View())) || PinCount(old(View()), d) != 0)
      ensures Markable(old(View())) && Dead(old(View())) !! stuck ==> ok
      ensures old(Integrity(View())) ==> Integrity(View())
    {
      hide Markable;
      hide Integrity;
      ghost var start := View();
      var live := Mark();
      if live.None? {
        assert Swept(start, {}) == start;
        return false, {};
      }
      ok, removed := Sweep(live.value, stuck);
      if Integrity(start) {
        SweepKeeps(start, removed);
      }
    }

    /** Copies the Bot's objects, each once, and its grants into a new bundle. */
    method ExportBot(bot: string) returns (b: Option<Bundle>)
      ensures b.Some? <==> Exportable(View(), bot)
      ensures b.Some? ==> b.value == Export(View(), bot)
    {
      if bot !in bots {
        return None;
      }
      var verified := VerifyGrants(bot);
      if !verified {
        return None;
      }
      var files: map<Digest, Bytes> := map[];
      var names: map<string, GrantFile> := map[];
      var todo := bots[bot].Keys;
      while todo != {}
        invariant todo <= bots[bot].Keys
        invariant names == map id | id in bots[bot] && id !in todo :: bots[bot][id]
        invariant files == map d | d in Digests(names) :: d.content
        decreases todo
      {
        hide Exportable;
        hide Digests;
        var id :| id in todo;
        files, names := CopyGrant(bot, id, files, names);
        todo := todo - {id};
      }
      assert names == bots[bot];
      b := Some(Bundle(files, names));
    }

    /** The grant and, unless it is there, its object join the bundle. */
    method CopyGrant(bot: string, id: string, files: map<Digest, Bytes>, names: map<string, GrantFile>)
      returns (newFiles: map<Digest, Bytes>, newNames: map<string, GrantFile>)
      requires Exportable(View(), bot) && id in bots[bot] && id !in names
      requires files == map d | d in Digests(names) :: d.content
      ensures newNames == names[id := bots[bot][id]]
      ensures newFiles == map d | d in Digests(newNames) :: d.content
    {
      ExportedGrant(View(), bot, id);
      hide Exportable;
      var ref := bots[bot][id].ref;
      DigestsWrite(names, id, ref);
      hide Digests;
      newFiles := if ref.digest in files then files else files[ref.digest := objects[ref.digest]];
      newNames := names[id := bots[bot][id]];
    }

    lemma ExportedGrant(s: Store, bot: string, id: string)
      requires Exportable(s, bot) && id in s.bots[bot]
      ensures s.bots[bot][id].Grant?
      ensures var d := s.bots[bot][id].ref.digest; d in s.objects && s.objects[d] == d.content
    {
    }

    /** A grant that is already there gets its object back if that was lost. */
    method RestoreObject(ref: Ref) returns (r: Result)
      requires Valid() && ref.size == |ref.digest.content|
      modifies `objects
      ensures Valid() && Reply(View(), r) == Restore(old(View()), ref)
    {
      var intact := VerifyObject(ref.digest, ref.size);
      if intact {
        return Done(ref);
      }
      if ref.digest in objects {
        return Refused(Damaged);
      }
      if limits.tempBytes > 0 && ref.size > limits.tempBytes {
        return Refused(OverCapacity);
      }
      var physical := TreeBytes(objects);
      if limits.maxBytes > 0 && ref.size > limits.maxBytes - physical {
        return Refused(OverCapacity);
      }
      PublishObject(ref.digest.content);
      PublishStaysSized(old(View()), ref.digest.content);
      r := Done(ref);
    }

    method ImportEntry(bot: string, id: string, ref: Ref, quota: int) returns (r: Result)
      requires Valid() && bot in bots && ref.size == |ref.digest.content|
      modifies `objects, `bots
      ensures Valid() && Reply(View(), r) == ImportOne(old(View()), bot, id, ref, quota)
    {
      if id in bots[bot] {
        r := RestoreObject(ref);
      } else {
        r := Put(bot, id, ref.digest.content, WriteOptions(0, quota, ref.size, Some(ref.digest), ref.data));
      }
    }

    method CheckEntry(bot: string, b: Bundle, id: string) returns (error: Option<Error>)
      requires bot in bots && id in b.refs
      ensures error == EntryRefusal(View(), bot, b, id)
    {
      if !ValidID(id) || b.refs[id].Malformed? {
        return Some(InvalidReference);
      }
      var ref := b.refs[id].ref;
      if ref.digest !in b.objects || Digest(b.objects[ref.digest]) != ref.digest || |b.objects[ref.digest]| != ref.size {
        return Some(Damaged);
      }
      if id in bots[bot] && bots[bot][id] != Grant(ref) {
        return Some(Conflict);
      }
      error := None;
    }

    /** The first error of the bundle's entries, or the distinct bytes the Bot will hold. */
    method CheckBundle(bot: string, b: Bundle, order: seq<string>) returns (error: Option<Error>, logical: nat)
      requires Valid() && bot in bots && Readable(bots[bot]) && Lists(order, b)
      ensures error == FirstRefusal(View(), bot, b, order)
      ensures error.None? ==> logical == Total(Combined(View(), bot, b))
    {
      hide Readable;
      hide Digests;
      hide DigestsOf;
      hide Recorded;
      hide Part;
      var refs := References(bots[bot]);
      ReferencesSized(View(), bot, refs.value);
      hide Sized;
      var seen: set<Digest>;
      seen, logical := DistinctBytes(refs.value);
      error := None;
      NoEntries(View(), bot, b, order);
      for i := 0 to |order|
        invariant FirstRefusal(View(), bot, b, order[..i]).None?
        invariant seen == Digests(bots[bot]) + Digests(Part(b, order[..i])) && logical == Total(seen)
      {
        NextRefusal(View(), bot, b, order, i);
        hide FirstRefusal;
        hide EntryRefusal;
        hide Lists;
        error := CheckEntry(bot, b, order[i]);
        if error.Some? {
          return;
        }
        var ref := b.refs[order[i]].ref;
        TotalInsert(seen, ref.digest);
        UnionGrows(Digests(bots[bot]), Digests(Part(b, order[..i])), ref.digest);
        if ref.digest !in seen {
          logical := logical + ref.size;
        }
        seen := seen + {ref.digest};
      }
      error := None;
      assert order[..|order|] == order;
      WholePart(b, order);
    }

    lemma NoEntries(s: Store, bot: string, b: Bundle, order: seq<string>)
      requires bot in s.bots
      ensures Digests(Part(b, order[..0])) == {} && FirstRefusal(s, bot, b, order[..0]).None?
    {
      assert Part(b, order[..0]) == map[];
      assert Digests(map[]) == {};
    }

    /** The first refusal among one more entry. */
    lemma NextRefusal(s: Store, bot: string, b: Bundle, order: seq<string>, i: nat)
      requires bot in s.bots && Lists(order, b) && i < |order| && FirstRefusal(s, bot, b, order[..i]).None?
      ensures order[i] in b.refs
      ensures var refusal := EntryRefusal(s, bot, b, order[i]);
              && FirstRefusal(s, bot, b, order[..i + 1]) == refusal && (refusal.Some? ==> FirstRefusal(s, bot, b, order) == refusal)
              && (refusal.None? ==>
                    && b.refs[order[i]].Grant? && b.refs[order[i]].ref.size == |b.refs[order[i]].ref.digest.content|
                    && Digests(Part(b, order[..i + 1])) == Digests(Part(b, order[..i])) + {b.refs[order[i]].ref.digest})
    {
      hide Part;
      hide Digests;
      assert order[..i + 1][..i] == order[..i];
      if EntryRefusal(s, bot, b, order[i]).Some? {
        RefusalSticks(s, bot, b, order, i + 1);
      } else {
        PartExtends(b, order, i);
      }
    }

    method EnsureDirectory(bot: string)
      requires Valid()
      modifies `bots
      ensures Valid() && View() == WithDirectory(old(View()), bot)
    {
      ghost var start := View();
      if bot !in bots {
        bots := bots[bot := map[]];
        forall other, id | Granted(View(), other, id) ensures Granted(start, other, id) {
        }
      }
    }

    /** Imports the checked entries one after another. */
    method ImportEntries(bot: string, b: Bundle, quota: int, order: seq<string>) returns (error: Option<Error>)
      requires Valid() && bot in bots && Accepted(View(), bot, b, order)
      modifies `objects, `bots
      ensures Valid() && ImportReply(View(), error) == ImportLoop(old(View()), bot, b, quota, order)
    {
      hide ImportOne;
      hide EntryRefusal;
      hide Sized;
      ghost var start := View();
      AcceptedGrants(start, bot, b, order);
      error := None;
      for i := 0 to |order|
        invariant Valid() && bot in bots && error.None?
        invariant ImportLoop(start, bot, b, quota, order[..i]) == ImportReply(View(), None)
      {
        NextImport(start, bot, b, quota, order, i);
        hide ImportLoop;
        hide Accepted;
        var r := ImportEntry(bot, order[i], b.refs[order[i]].ref, quota);
        if r.Refused? {
          error := Some(r.error);
          return;
        }
      }
      assert order[..|order|] == order;
    }

    /** The loop with one more entry; an error is the end of it. */
    lemma NextImport(s: Store, bot: string, b: Bundle, quota: int, order: seq<string>, i: nat)
      requires bot in s.bots && Accepted(s, bot, b, order) && i < |order|
      requires forall j :: 0 <= j < |order| ==> order[j] in b.refs && b.refs[order[j]].Grant?
      requires ImportLoop(s, bot, b, quota, order[..i]).error.None?
      ensures var ref := b.refs[order[i]].ref;
              var one := ImportOne(ImportLoop(s, bot, b, quota, order[..i]).store, bot, order[i], ref, quota);
              var next := ImportReply(one.store, if one.result.Refused? then Some(one.result.error) else None);
              && ref.size == |ref.digest.content| && bot in one.store.bots
              && ImportLoop(s, bot, b, quota, order[..i + 1]) == next
              && (next.error.Some? ==> ImportLoop(s, bot, b, quota, order) == next)
    {
      assert EntryRefusal(s, bot, b, order[i]).None?;
      assert order[..i + 1][..i] == order[..i];
      hide ImportOne;
      if ImportLoop(s, bot, b, quota, order[..i + 1]).error.Some? {
        LoopErrorSticks(s, bot, b, quota, order, i + 1);
      }
    }

    /** `order` is the order in which the bundle's directory is read. */
    method ImportBot(bot: string, b: Bundle, quota: int, order: seq<string>) returns (error: Option<Error>)
      requires Valid() && Lists(order, b)
      modifies `objects, `bots
      ensures Valid() && ImportReply(View(), error) == Import(old(View()), bot, b, quota, order)
    {
      hide ImportLoop;
      hide FirstRefusal;
      hide Combined;
      hide Sized;
      if !ValidID(bot) {
        return Some(InvalidReference);
      }
      EnsureDirectory(bot);
      var refs := References(bots[bot]);
      if refs.None? {
        return Some(InvalidReference);
      }
      var logical: nat;
      error, logical := CheckBundle(bot, b, order);
      if error.Some? {
        return;
      }
      if quota > 0 && logical > quota {
        return Some(OverQuota);
      }
      AcceptedEntries(View(), bot, b, order);
      error := ImportEntries(bot, b, quota, order);
    }
  }

  lemma PublishStaysSized(s: Store, content: Bytes)
    requires Sized(s)
    ensures Sized(Publish(s, content))
  {
    forall bot, id | Granted(Publish(s, content), bot, id) ensures Granted(s, bot, id) {
    }
  }

  lemma {:induction false} RefusalSticks(s: Store, bot: string, b: Bundle, order: seq<string>, i: nat)
    requires bot in s.bots && (forall j :: 0 <= j < |order| ==> order[j] in b.refs) && i <= |order|
    requires FirstRefusal(s, bot, b, order[..i]).Some?
    ensures FirstRefusal(s, bot, b, order) == FirstRefusal(s, bot, b, order[..i])
  {
    if i == |order| {
      assert order[..i] == order;
    } else {
      assert order[..|order| - 1][..i] == order[..i];
      RefusalSticks(s, bot, b, order[..|order| - 1], i);
    }
  }

  lemma {:induction false} LoopErrorSticks(s: Store, bot: string, b: Bundle, quota: int, order: seq<string>, i: nat)
    requires bot in s.bots && (forall j :: 0 <= j < |order| ==> order[j] in b.refs && b.refs[order[j]].Grant?) && i <= |order|
    requires ImportLoop(s, bot, b, quota, order[..i]).error.Some?
    ensures ImportLoop(s, bot, b, quota, order) == ImportLoop(s, bot, b, quota, order[..i])
  {
    if i == |order| {
      assert order[..i] == order;
    } else {
      assert order[..|order| - 1][..i] == order[..i];
      LoopErrorSticks(s, bot, b, quota, order[..|order| - 1], i);
    }
  }

  lemma PartExtends(b: Bundle, order: seq<string>, i: nat)
    requires i < |order| && Lists(order, b) && b.refs[order[i]].Grant?
    ensures Digests(Part(b, order[..i + 1])) == Digests(Part(b, order[..i])) + {b.refs[order[i]].ref.digest}
  {
    assert Part(b, order[..i + 1]) == Part(b, order[..i])[order[i] := b.refs[order[i]]];
    DigestsWrite(Part(b, order[..i]), order[i], b.refs[order[i]].ref);
  }

  lemma PutStaysSized(s: Store, bot: string, id: string, content: Bytes, o: WriteOptions)
    requires Sized(s)
    ensures Sized(ContentStore.Put(s, bot, id, content, o).store)
  {
    var t := ContentStore.Put(s, bot, id, content, o).store;
    forall b, i | Granted(t, b, i) ensures GrantedRef(t, b, i).size == |GrantedRef(t, b, i).digest.content| {
      if b != bot || i != id {
        assert Granted(s, b, i);
      } else if id in s.bots[bot] {
        assert Granted(s, b, i);
      }
    }
  }

  lemma MarkableExports(s: Store, bot: string)
    requires bot in s.bots && Markable(s)
    ensures ValidID(bot) && Exportable(s, bot)
  {
    forall id | id in s.bots[bot] ensures Verified(s, s.bots[bot][id].ref.digest, s.bots[bot][id].ref.size) {
      assert Granted(s, bot, id);
    }
  }

  lemma ExportsMarkable(s: Store)
    requires CatalogOk(s) && forall bot :: bot in s.bots ==> ValidID(bot) && Exportable(s, bot)
    ensures Markable(s)
  {
  }
}
