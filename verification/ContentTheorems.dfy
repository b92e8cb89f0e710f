/** Guarantees of the content store over every run of its operations, with crashes, partial sweeps
    and partial imports. */
module ContentTheorems {
  import opened Wrappers
  import opened ContentStore

  // ---- Integrity of single changes ----

  lemma PublishKeeps(s: Store, content: Bytes)
    requires Integrity(s) && (Digest(content) in s.objects || !CapacityExceeded(s, content))
    ensures Integrity(Publish(s, content)) && Verified(Publish(s, content), Digest(content), |content|)
  {
    var t := Publish(s, content);
    if Digest(content) !in s.objects {
      StoredInsert(s.objects, Digest(content), content);
    }
    forall bot, id | Granted(t, bot, id)
      ensures Verified(t, GrantedRef(t, bot, id).digest, GrantedRef(t, bot, id).size)
      ensures GrantedRef(t, bot, id).size == |GrantedRef(t, bot, id).digest.content|
    {
      assert Granted(s, bot, id);
    }
    forall d ensures PinCount(t, d) == OpenReaders(t.readers, d) {
      assert PinCount(s, d) == OpenReaders(s.readers, d);
    }
  }

  /** Only the grants of the store differ. */
  lemma GrantsKeep(s: Store, t: Store)
    requires Integrity(s) && t == s.(bots := t.bots)
    requires forall bot, id :: Granted(t, bot, id) ==> Verified(s, GrantedRef(t, bot, id).digest, GrantedRef(t, bot, id).size)
    requires forall bot :: bot in t.bots ==> Readable(t.bots[bot])
    ensures Integrity(t)
  {
    forall bot, id | Granted(t, bot, id)
      ensures Verified(t, GrantedRef(t, bot, id).digest, GrantedRef(t, bot, id).size)
    {
      assert Verified(s, GrantedRef(t, bot, id).digest, GrantedRef(t, bot, id).size);
    }
    forall d ensures PinCount(t, d) == OpenReaders(t.readers, d) {
      assert PinCount(s, d) == OpenReaders(s.readers, d);
    }
  }

  lemma WriteGrantKeeps(s: Store, bot: string, id: string, ref: Ref)
    requires Integrity(s) && bot in s.bots && ValidID(id) && Verified(s, ref.digest, ref.size)
    ensures Integrity(WriteGrant(s, bot, id, ref))
  {
    var t := WriteGrant(s, bot, id, ref);
    forall b, i | Granted(t, b, i) ensures Verified(s, GrantedRef(t, b, i).digest, GrantedRef(t, b, i).size) {
      if b != bot || i != id {
        assert Granted(s, b, i) && GrantedRef(t, b, i) == GrantedRef(s, b, i);
      }
    }
    GrantsKeep(s, t);
  }

  lemma PutKeeps(s: Store, bot: string, id: string, content: Bytes, o: WriteOptions)
    requires Integrity(s)
    ensures Integrity(Put(s, bot, id, content, o).store) && Integrity(CrashedPut(s, bot, id, content, o))
  {
    if PutRefusal(s, bot, id, content, o).None? && id !in s.bots[bot] {
      PublishKeeps(s, content);
      hide Integrity;
      WriteGrantKeeps(Publish(s, content), bot, id, Ref(Digest(content), |content|, o.data));
    }
  }

  lemma {:induction false} OpenReadersAppend(readers: seq<Reader>, r: Reader, d: Digest)
    ensures OpenReaders(readers + [r], d) == OpenReaders(readers, d) + (if r.isOpen && r.digest == d then 1 else 0)
  {
    if readers != [] {
      assert (readers + [r])[1..] == readers[1..] + [r];
      OpenReadersAppend(readers[1..], r, d);
    } else {
      assert OpenReaders([r], d) == OpenReaders([r][1..], d) + (if r.isOpen && r.digest == d then 1 else 0);
    }
  }

  lemma {:induction false} OpenReadersClose(readers: seq<Reader>, i: nat, d: Digest)
    requires i < |readers| && readers[i].isOpen
    ensures OpenReaders(readers[i := Reader(readers[i].digest, false)], d)
            == OpenReaders(readers, d) - (if readers[i].digest == d then 1 else 0)
  {
    var after := readers[i := Reader(readers[i].digest, false)];
    if i > 0 {
      assert after[1..] == readers[1..][i - 1 := Reader(readers[i].digest, false)];
      OpenReadersClose(readers[1..], i - 1, d);
    } else {
      assert after[1..] == readers[1..];
    }
  }

  lemma {:induction false} OpenReaderCounts(readers: seq<Reader>, i: nat)
    requires i < |readers| && readers[i].isOpen
    ensures OpenReaders(readers, readers[i].digest) > 0
  {
    if i > 0 {
      OpenReaderCounts(readers[1..], i - 1);
    }
  }

  /** Only readers and pins of the store differ. */
  lemma ReadersKeep(s: Store, t: Store)
    requires Integrity(s) && t == s.(pins := t.pins, readers := t.readers) && Pinned(t)
    ensures Integrity(t)
  {
    forall bot, id | Granted(t, bot, id)
      ensures Verified(t, GrantedRef(t, bot, id).digest, GrantedRef(t, bot, id).size)
      ensures GrantedRef(t, bot, id).size == |GrantedRef(t, bot, id).digest.content|
    {
      assert Granted(s, bot, id);
    }
  }

  lemma OpenKeeps(s: Store, bot: string, id: string)
    requires Integrity(s)
    ensures Integrity(Open(s, bot, id).store)
  {
    var r := Open(s, bot, id);
    if r.result.Done? {
      forall d ensures PinCount(r.store, d) == OpenReaders(r.store.readers, d) {
        OpenReadersAppend(s.readers, Reader(r.result.ref.digest, true), d);
        assert PinCount(s, d) == OpenReaders(s.readers, d);
      }
      ReadersKeep(s, r.store);
    }
  }

  lemma CloseKeeps(s: Store, reader: nat)
    requires Integrity(s)
    ensures Integrity(Close(s, reader))
  {
    if reader < |s.readers| && s.readers[reader].isOpen {
      var t := Close(s, reader);
      forall d ensures PinCount(t, d) == OpenReaders(t.readers, d) {
        OpenReadersClose(s.readers, reader, d);
        assert PinCount(s, d) == OpenReaders(s.readers, d);
      }
      ReadersKeep(s, t);
    }
  }

  lemma RestartKeeps(s: Store)
    requires Integrity(s)
    ensures Integrity(Restart(s))
  {
    ReadersKeep(s, Restart(s));
  }

  lemma DeleteKeeps(s: Store, bot: string, id: string)
    requires Integrity(s)
    ensures Integrity(Delete(s, bot, id).store)
  {
    var r := Delete(s, bot, id);
    if r.result.Done? {
      forall b, i | Granted(r.store, b, i) ensures Verified(s, GrantedRef(r.store, b, i).digest, GrantedRef(r.store, b, i).size) {
        assert Granted(s, b, i);
      }
      GrantsKeep(s, r.store);
    }
  }

  lemma UpdateKeeps(s: Store, bot: string, id: string, data: string, valid: bool)
    requires Integrity(s)
    ensures Integrity(Update(s, bot, id, data, valid).store)
  {
    var r := Update(s, bot, id, data, valid);
    if r.result.Done? {
      assert Granted(s, bot, id);
      WriteGrantKeeps(s, bot, id, r.result.ref);
    }
  }

  /** A sweep, complete or cut off, takes no object that is granted or being read. */
  lemma SweepKeeps(s: Store, removed: set<Digest>)
    requires Integrity(s) && removed <= Dead(s)
    ensures Integrity(Swept(s, removed))
  {
    var t := Swept(s, removed);
    StoredMonotone(s.objects, removed);
    forall bot, id | Granted(t, bot, id)
      ensures Verified(t, GrantedRef(t, bot, id).digest, GrantedRef(t, bot, id).size)
      ensures GrantedRef(t, bot, id).size == |GrantedRef(t, bot, id).digest.content|
    {
      assert Granted(s, bot, id);
      assert GrantedRef(s, bot, id).digest in Live(s);
    }
    forall i | 0 <= i < |t.readers| && t.readers[i].isOpen ensures t.readers[i].digest in t.objects {
      OpenReaderCounts(s.readers, i);
      assert PinCount(s, s.readers[i].digest) > 0;
    }
    forall d ensures PinCount(t, d) == OpenReaders(t.readers, d) {
      assert PinCount(s, d) == OpenReaders(s.readers, d);
    }
  }

  /** Whatever has been lost or damaged: what put, open and the restoring of an object answer for is
      whole. */
  lemma NeverHandsOutDamage(s: Store, bot: string, id: string, content: Bytes, o: WriteOptions, ref: Ref)
    requires ref.size == |ref.digest.content|
    ensures var p := Put(s, bot, id, content, o);
            p.result.Done? ==> Verified(p.store, p.result.ref.digest, p.result.ref.size)
    ensures var p := Open(s, bot, id);
            p.result.Done? ==> Verified(p.store, p.result.ref.digest, p.result.ref.size)
    ensures Restore(s, ref).result.Done? ==> Verified(Restore(s, ref).store, ref.digest, ref.size)
  {
  }

  // ---- Import ----

  lemma RestoreKeeps(s: Store, ref: Ref)
    requires Integrity(s) && ref.size == |ref.digest.content|
    ensures Integrity(Restore(s, ref).store)
  {
    if Restore(s, ref).result.Done? && !Verified(s, ref.digest, ref.size) {
      PublishKeeps(s, ref.digest.content);
    }
  }

  predicate Accepted(s: Store, bot: string, b: Bundle, order: seq<string>)
    requires bot in s.bots
  {
    forall i :: 0 <= i < |order| ==> order[i] in b.refs && EntryRefusal(s, bot, b, order[i]).None?
  }

  lemma {:induction false} ImportLoopKeeps(s: Store, bot: string, b: Bundle, quota: int, order: seq<string>)
    requires Integrity(s) && bot in s.bots && Accepted(s, bot, b, order)
    ensures Integrity(ImportLoop(s, bot, b, quota, order).store)
    decreases |order|
  {
    if order != [] {
      var id := order[|order| - 1];
      ImportLoopKeeps(s, bot, b, quota, order[..|order| - 1]);
      var before := ImportLoop(s, bot, b, quota, order[..|order| - 1]);
      if before.error.None? {
        var ref := b.refs[id].ref;
        assert EntryRefusal(s, bot, b, id).None?;
        hide ImportLoop;
        RestoreKeeps(before.store, ref);
        PutKeeps(before.store, bot, id, ref.digest.content, WriteOptions(0, quota, ref.size, Some(ref.digest), ref.data));
      }
    }
  }

  lemma DirectoryKeeps(s: Store, bot: string)
    requires Integrity(s)
    ensures Integrity(WithDirectory(s, bot))
  {
    var t := WithDirectory(s, bot);
    forall b, i | Granted(t, b, i) ensures Verified(s, GrantedRef(t, b, i).digest, GrantedRef(t, b, i).size) {
      assert Granted(s, b, i);
    }
    GrantsKeep(s, t);
  }

  // ---- Runs ----

  datatype Action =
    | DoPut(bot: string, id: string, content: Bytes, o: WriteOptions)
    | DoCrashedPut(bot: string, id: string, content: Bytes, o: WriteOptions)
    | DoOpen(bot: string, id: string)
    | DoClose(reader: nat)
    | DoRestart
    | DoDelete(bot: string, id: string)
    | DoUpdate(bot: string, id: string, data: string, valid: bool)
    | DoSweep(removed: set<Digest>)
    | DoImport(bot: string, bundle: Bundle, quota: int, order: seq<string>, entries: nat)

  /** An import, or the part of it that a crash let through. */
  ghost function ImportSome(s: Store, bot: string, b: Bundle, quota: int, order: seq<string>, entries: nat): Store
    requires Lists(order, b)
  {
    var t := WithDirectory(s, bot);
    AcceptedEntries(t, bot, b, order);
    if ValidID(bot) && Readable(t.bots[bot]) && FirstRefusal(t, bot, b, order).None?
       && (quota > 0 ==> Total(Combined(t, bot, b)) <= quota) && entries < |order|
    then ImportLoop(t, bot, b, quota, order[..entries]).store
    else Import(s, bot, b, quota, order).store
  }

  ghost function Step(s: Store, a: Action): Store {
    match a
    case DoPut(bot, id, content, o) => Put(s, bot, id, content, o).store
    case DoCrashedPut(bot, id, content, o) => CrashedPut(s, bot, id, content, o)
    case DoOpen(bot, id) => Open(s, bot, id).store
    case DoClose(reader) => Close(s, reader)
    case DoRestart => Restart(s)
    case DoDelete(bot, id) => Delete(s, bot, id).store
    case DoUpdate(bot, id, data, valid) => Update(s, bot, id, data, valid).store
    case DoSweep(removed) => if Markable(s) && removed <= Dead(s) then Swept(s, removed) else s
    case DoImport(bot, b, quota, order, entries) => if Lists(order, b) then ImportSome(s, bot, b, quota, order, entries) else s
  }

  ghost function Run(s: Store, actions: seq<Action>): Store {
    if actions == [] then s else Step(Run(s, actions[..|actions| - 1]), actions[|actions| - 1])
  }

  lemma ImportSomeKeeps(s: Store, bot: string, b: Bundle, quota: int, order: seq<string>, entries: nat)
    requires Integrity(s) && Lists(order, b)
    ensures Integrity(ImportSome(s, bot, b, quota, order, entries))
  {
    hide Integrity;
    hide ImportLoop;
    hide FirstRefusal;
    hide EntryRefusal;
    var t := WithDirectory(s, bot);
    DirectoryKeeps(s, bot);
    AcceptedEntries(t, bot, b, order);
    if FirstRefusal(t, bot, b, order).None? {
      ImportLoopKeeps(t, bot, b, quota, order);
      if entries < |order| {
        ImportLoopKeeps(t, bot, b, quota, order[..entries]);
      }
    }
  }

  lemma StepKeeps(s: Store, a: Action)
    requires Integrity(s)
    ensures Integrity(Step(s, a))
  {
    hide Integrity;
    match a
    case DoPut(bot, id, content, o) => PutKeeps(s, bot, id, content, o);
    case DoCrashedPut(bot, id, content, o) => PutKeeps(s, bot, id, content, o);
    case DoOpen(bot, id) => OpenKeeps(s, bot, id);
    case DoClose(reader) => CloseKeeps(s, reader);
    case DoRestart => RestartKeeps(s);
    case DoDelete(bot, id) => DeleteKeeps(s, bot, id);
    case DoUpdate(bot, id, data, valid) => UpdateKeeps(s, bot, id, data, valid);
    case DoSweep(removed) =>
      if Markable(s) && removed <= Dead(s) {
        SweepKeeps(s, removed);
      }
    case DoImport(bot, b, quota, order, entries) =>
      if Lists(order, b) {
        ImportSomeKeeps(s, bot, b, quota, order, entries);
      }
  }

  /** In every run, every grant's object is present with its digest and size, what an open reader
      reads is present, pins count the open readers, and the physical budget holds. */
  lemma {:induction false} RunKeepsIntegrity(s: Store, actions: seq<Action>)
    requires Integrity(s)
    ensures Integrity(Run(s, actions))
  {
    if actions != [] {
      RunKeepsIntegrity(s, actions[..|actions| - 1]);
      hide Integrity;
      StepKeeps(Run(s, actions[..|actions| - 1]), actions[|actions| - 1]);
    }
  }

  /** Whatever else happens, collections included, an open reader's object is there with its bytes,
      and so is the object of every grant. */
  lemma NothingInUseIsRemoved(s: Store, actions: seq<Action>, reader: nat, bot: string, id: string)
    requires Integrity(s)
    ensures var t := Run(s, actions);
            && (reader < |t.readers| && t.readers[reader].isOpen ==>
                  t.readers[reader].digest in t.objects && t.objects[t.readers[reader].digest] == t.readers[reader].digest.content)
            && (Granted(t, bot, id) ==> Verified(t, GrantedRef(t, bot, id).digest, GrantedRef(t, bot, id).size))
  {
    RunKeepsIntegrity(s, actions);
    hide Run;
  }
}
