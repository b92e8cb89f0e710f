/** What each operation of the content store does to grants, objects, pins and readers, in terms of its
    inputs, and how long a grant lasts (internal/blob/store.go). */
module ContentGrants {
  import opened Wrappers
  import opened ContentStore
  import opened ContentTheorems

  /** The reference file of a Bot under an ID. */
  function At(s: Store, bot: string, id: string): Option<GrantFile> {
    if bot in s.bots && id in s.bots[bot] then Some(s.bots[bot][id]) else None
  }

  /** Only the reference file of this Bot under this ID differs. */
  ghost predicate OtherGrantsStay(s: Store, t: Store, bot: string, id: string) {
    t.bots.Keys == s.bots.Keys && forall b, i :: b != bot || i != id ==> At(t, b, i) == At(s, b, i)
  }

  // ---- Single operations ----

  /** A delete takes the one grant away and answers its reference, and touches nothing else; it is
      refused, with the store as it was, exactly if there is no such well-formed grant. */
  lemma DeleteEffect(s: Store, bot: string, id: string)
    ensures var r, at := Delete(s, bot, id), At(s, bot, id);
            if !ValidID(id) || at.None? then r == Reply(s, Refused(NotFound))
            else if at.value.Malformed? then r == Reply(s, Refused(InvalidReference))
            else
              && r.result == Done(at.value.ref)
              && At(r.store, bot, id).None? && OtherGrantsStay(s, r.store, bot, id)
              && r.store.objects == s.objects && r.store.pins == s.pins && r.store.readers == s.readers
              && r.store.catalog == s.catalog && r.store.limits == s.limits
  {
  }

  /** An update replaces the metadata of the one grant and nothing else; it is refused, with the store as
      it was, exactly if the metadata is not valid or there is no such well-formed grant. */
  lemma UpdateEffect(s: Store, bot: string, id: string, data: string, valid: bool)
    ensures var r, at := Update(s, bot, id, data, valid), At(s, bot, id);
            if valid && ValidID(id) && at.Some? && at.value.Grant? then
              var ref := Ref(at.value.ref.digest, at.value.ref.size, data);
              && r.result == Done(ref) && At(r.store, bot, id) == Some(Grant(ref)) && OtherGrantsStay(s, r.store, bot, id)
              && r.store.objects == s.objects && r.store.pins == s.pins && r.store.readers == s.readers
              && r.store.catalog == s.catalog && r.store.limits == s.limits
            else r.store == s && r.result.Refused?
  {
    hide ValidID;
  }

  /** The content may become a new grant: the ID and the Bot are good, the size, the expectations and
      the Bot's quota are met, and its object is there, whole, or fits. */
  ghost predicate MayStore(s: Store, bot: string, id: string, content: Bytes, o: WriteOptions) {
    && ValidID(id) && bot in s.bots && id !in s.bots[bot] && Readable(s.bots[bot])
    && (o.maxBytes > 0 ==> |content| <= o.maxBytes) && (s.limits.tempBytes > 0 ==> |content| <= s.limits.tempBytes)
    && (o.expectedSize >= 0 ==> |content| == o.expectedSize)
    && (o.expectedDigest.Some? ==> o.expectedDigest.value == Digest(content))
    && (o.quotaBytes > 0 && Digest(content) !in Digests(s.bots[bot]) ==>
          Total(Digests(s.bots[bot])) + |content| <= o.quotaBytes)
    && (if Digest(content) in s.objects then s.objects[Digest(content)] == content
        else s.limits.maxBytes > 0 ==> Stored(s.objects) + |content| <= s.limits.maxBytes)
  }

  /** A put stores the content under its digest, unless it is there, and grants it to that Bot under
      that ID, exactly if it may; a grant that is there already is answered from its whole object; and
      any other put changes nothing. */
  lemma PutEffect(s: Store, bot: string, id: string, content: Bytes, o: WriteOptions)
    ensures var r, ref := Put(s, bot, id, content, o), Ref(Digest(content), |content|, o.data);
            if MayStore(s, bot, id, content, o) then
              && At(s, bot, id).None? && r.result == Done(ref) && At(r.store, bot, id) == Some(Grant(ref)) && OtherGrantsStay(s, r.store, bot, id)
              && r.store.objects == s.objects[Digest(content) := content]
              && r.store.pins == s.pins && r.store.readers == s.readers && r.store.catalog == s.catalog && r.store.limits == s.limits
            else
              && r.store == s
              && (r.result.Done? <==> && ValidID(id) && Granted(s, bot, id)
                                      && Verified(s, GrantedRef(s, bot, id).digest, GrantedRef(s, bot, id).size))
              && (r.result.Done? ==> r.result.ref == GrantedRef(s, bot, id))
  {
    hide ValidID;
    if Digest(content) in s.objects && s.objects[Digest(content)] == content {
      assert s.objects[Digest(content) := content] == s.objects;
    }
  }

  /** Each refusal of a put says what stood against it. */
  lemma PutRefusedFor(s: Store, bot: string, id: string, content: Bytes, o: WriteOptions)
    requires Put(s, bot, id, content, o).result.Refused?
    ensures var d := Digest(content);
            match Put(s, bot, id, content, o).result.error
            case InvalidReference => !ValidID(id) || (bot in s.bots && !Readable(s.bots[bot]))
            case MissingDirectory => bot !in s.bots
            case OverQuota =>
              bot in s.bots && d !in Digests(s.bots[bot]) && 0 < o.quotaBytes < Total(Digests(s.bots[bot])) + |content|
            case SizeMismatch => o.expectedSize >= 0 && |content| != o.expectedSize
            case ChecksumMismatch => o.expectedDigest.Some? && o.expectedDigest.value != d
            case OverCapacity =>
              || (o.maxBytes > 0 && |content| > o.maxBytes) || (s.limits.tempBytes > 0 && |content| > s.limits.tempBytes)
              || (d !in s.objects && s.limits.maxBytes > 0 && Stored(s.objects) + |content| > s.limits.maxBytes)
            case Damaged =>
              || (d in s.objects && s.objects[d] != content)
              || (Granted(s, bot, id) && !Verified(s, GrantedRef(s, bot, id).digest, GrantedRef(s, bot, id).size))
            case _ => false
  {
    hide ValidID;
  }

  /** An open gives a reader of the granted object, pinned once more, exactly if that is whole. */
  lemma OpenEffect(s: Store, bot: string, id: string)
    ensures var r, at := Open(s, bot, id), At(s, bot, id);
            if ValidID(id) && at.Some? && at.value.Grant? && Verified(s, at.value.ref.digest, at.value.ref.size) then
              var d := at.value.ref.digest;
              && r.result == Done(at.value.ref) && r.store.readers == s.readers + [Reader(d, true)]
              && PinCount(r.store, d) == PinCount(s, d) + 1 && (forall e :: e != d ==> PinCount(r.store, e) == PinCount(s, e))
              && r.store.bots == s.bots && r.store.objects == s.objects && r.store.catalog == s.catalog && r.store.limits == s.limits
            else
              && r.store == s
              && r.result == Refused(if !ValidID(id) || at.None? then NotFound else if at.value.Malformed? then InvalidReference else Damaged)
  {
    hide ValidID;
  }

  /** The first close of a reader takes back its pin, and every other one changes nothing. */
  lemma CloseEffect(s: Store, reader: nat)
    ensures var t := Close(s, reader);
            if reader < |s.readers| && s.readers[reader].isOpen then
              var d := s.readers[reader].digest;
              && t.readers == s.readers[reader := Reader(d, false)]
              && PinCount(t, d) == PinCount(s, d) - 1 && (forall e :: e != d ==> PinCount(t, e) == PinCount(s, e))
              && t.bots == s.bots && t.objects == s.objects && t.catalog == s.catalog && t.limits == s.limits
            else t == s
  {
  }

  /** The object of a grant that is there is answered if it is whole, put back if it is missing and
      fits, and nothing is changed otherwise. */
  lemma RestoreEffect(s: Store, ref: Ref)
    requires ref.size == |ref.digest.content|
    ensures var r, d := Restore(s, ref), ref.digest;
            var whole := d in s.objects && s.objects[d] == d.content;
            var fits := && (s.limits.tempBytes > 0 ==> ref.size <= s.limits.tempBytes)
                        && (s.limits.maxBytes > 0 ==> Stored(s.objects) + ref.size <= s.limits.maxBytes);
            if whole then r == Reply(s, Done(ref))
            else if d in s.objects then r == Reply(s, Refused(Damaged))
            else if fits then r == Reply(s.(objects := s.objects[d := d.content]), Done(ref))
            else r == Reply(s, Refused(OverCapacity))
  {
    assert Digest(ref.digest.content) == ref.digest;
  }

  /** An entry of a bundle is acceptable exactly if its ID is good, it is a reference whose object is in
      the bundle with its bytes, and the Bot has no other grant under that ID. */
  lemma EntryAccepted(s: Store, bot: string, b: Bundle, id: string)
    requires bot in s.bots && id in b.refs
    ensures EntryRefusal(s, bot, b, id).None? <==>
              && ValidID(id) && b.refs[id].Grant? && var d := b.refs[id].ref.digest;
              && d in b.objects && b.objects[d] == d.content && b.refs[id].ref.size == |d.content|
              && (At(s, bot, id) == None || At(s, bot, id) == Some(b.refs[id]))
  {
    hide ValidID;
  }

  lemma {:induction false} HeldEntries(s: Store, bot: string, b: Bundle, quota: int, order: seq<string>)
    requires bot in s.bots
    requires forall i :: 0 <= i < |order| ==>
               && order[i] in b.refs && b.refs[order[i]].Grant? && At(s, bot, order[i]) == Some(b.refs[order[i]])
               && Verified(s, b.refs[order[i]].ref.digest, b.refs[order[i]].ref.size)
    ensures ImportLoop(s, bot, b, quota, order) == ImportReply(s, None)
    decreases |order|
  {
    hide Verified;
    hide Put;
    if order != [] {
      HeldEntries(s, bot, b, quota, order[..|order| - 1]);
    }
  }

  /** Importing a Bot's own export, which its store holds whole, succeeds within the quota and changes
      nothing. */
  lemma ReimportChangesNothing(s: Store, bot: string, quota: int, order: seq<string>)
    requires Integrity(s) && bot in s.bots && ValidID(bot)
    ensures Exportable(s, bot)
    ensures var b := Export(s, bot);
            Lists(order, b) && (quota > 0 ==> Total(Digests(s.bots[bot])) <= quota) ==> Import(s, bot, b, quota, order) == ImportReply(s, None)
  {
    forall id | id in s.bots[bot] ensures Verified(s, s.bots[bot][id].ref.digest, s.bots[bot][id].ref.size) {
      assert Granted(s, bot, id);
    }
    var b := Export(s, bot);
    if Lists(order, b) && (quota > 0 ==> Total(Digests(s.bots[bot])) <= quota) {
      OwnEntries(s, bot, order);
      HeldEntries(s, bot, b, quota, order);
      AcceptedEntries(s, bot, b, order);
      assert Combined(s, bot, b) == Digests(s.bots[bot]);
      hide ImportLoop;
      hide FirstRefusal;
      hide EntryRefusal;
    }
  }

  lemma OwnEntries(s: Store, bot: string, order: seq<string>)
    requires Exportable(s, bot) && Lists(order, Export(s, bot))
    ensures forall i :: 0 <= i < |order| ==>
      && order[i] in s.bots[bot] && s.bots[bot][order[i]].Grant? && EntryRefusal(s, bot, Export(s, bot), order[i]).None?
      && Verified(s, s.bots[bot][order[i]].ref.digest, s.bots[bot][order[i]].ref.size)
  {
    hide ValidID;
    forall i | 0 <= i < |order| ensures EntryRefusal(s, bot, Export(s, bot), order[i]).None? {
      assert s.bots[bot][order[i]].ref.digest in Digests(s.bots[bot]);
    }
  }

  // ---- How long a grant lasts ----

  /** A grant is as before, or new for this import entry. */
  predicate AsImported(before: Option<GrantFile>, after: Option<GrantFile>, listed: bool, file: GrantFile) {
    after == before || (before.None? && listed && after == Some(file))
  }

  lemma ImportOneGrants(s: Store, bot: string, id: string, ref: Ref, quota: int, other: string, x: string)
    requires bot in s.bots
    ensures AsImported(At(s, other, x), At(ImportOne(s, bot, id, ref, quota).store, other, x), other == bot && x == id, Grant(ref))
  {
    var o := WriteOptions(0, quota, ref.size, Some(ref.digest), ref.data);
    if id !in s.bots[bot] {
      PutEffect(s, bot, id, ref.digest.content, o);
      assert Digest(ref.digest.content) == ref.digest;
    }
    hide Put;
    hide Total;
    hide Stored;
    hide Readable;
  }

  lemma {:induction false} LoopGrants(s: Store, bot: string, b: Bundle, quota: int, order: seq<string>, other: string, x: string)
    requires bot in s.bots && forall i :: 0 <= i < |order| ==> order[i] in b.refs && b.refs[order[i]].Grant?
    ensures x in order ==> x in b.refs
    ensures AsImported(At(s, other, x), At(ImportLoop(s, bot, b, quota, order).store, other, x),
                       other == bot && x in order, if x in b.refs then b.refs[x] else Malformed)
    decreases |order|
  {
    if order != [] {
      var front, last := order[..|order| - 1], order[|order| - 1];
      LoopGrants(s, bot, b, quota, front, other, x);
      ImportOneGrants(ImportLoop(s, bot, b, quota, front).store, bot, last, b.refs[last].ref, quota, other, x);
      hide ImportOne;
    }
  }

  lemma ImportGrants(s: Store, bot: string, b: Bundle, quota: int, order: seq<string>, entries: nat, other: string, x: string)
    requires Lists(order, b)
    ensures AsImported(At(s, other, x), At(ImportSome(s, bot, b, quota, order, entries), other, x),
                       other == bot && x in b.refs, if x in b.refs then b.refs[x] else Malformed)
  {
    hide FirstRefusal;
    hide EntryRefusal;
    var t := WithDirectory(s, bot);
    AcceptedEntries(t, bot, b, order);
    assert At(t, other, x) == At(s, other, x);
    if FirstRefusal(t, bot, b, order).None? {
      LoopGrants(t, bot, b, quota, order, other, x);
      if entries < |order| {
        LoopGrants(t, bot, b, quota, order[..entries], other, x);
      }
    }
    hide ImportLoop;
    hide WithDirectory;
  }

  /** The same reference up to its metadata. */
  predicate SameObject(f: GrantFile, g: GrantFile) {
    f == g || (f.Grant? && g.Grant? && g.ref == f.ref.(data := g.ref.data))
  }

  predicate Updates(a: Action, bot: string, id: string) {
    a.DoUpdate? && a.bot == bot && a.id == id
  }

  /** What any step makes of one reference file: it goes only by its own deletion, only its metadata
      changes, by its own update, and it comes only by a put of that content or from an imported
      bundle. */
  lemma StepGrants(s: Store, a: Action, bot: string, id: string)
    ensures var before, after := At(s, bot, id), At(Step(s, a), bot, id);
            if a == DoDelete(bot, id) && ValidID(id) && before.Some? && before.value.Grant? then after.None?
            else
              || after == before
              || (&& before.Some? && Updates(a, bot, id) && a.valid && before.value.Grant?
                  && after == Some(Grant(before.value.ref.(data := a.data))))
              || (&& before.None? && a.DoPut? && a.bot == bot && a.id == id && MayStore(s, bot, id, a.content, a.o)
                  && after == Some(Grant(Ref(Digest(a.content), |a.content|, a.o.data))))
              || (before.None? && a.DoImport? && a.bot == bot && id in a.bundle.refs && after == Some(a.bundle.refs[id]))
  {
    hide ValidID;
    hide MayStore;
    hide Put;
    hide PutRefusal;
    hide ImportSome;
    hide Update;
    match a
    case DoPut(b, i, content, o) => PutEffect(s, b, i, content, o);
    case DoImport(b, bundle, quota, order, entries) =>
      if Lists(order, bundle) {
        ImportGrants(s, b, bundle, quota, order, entries, bot, id);
      }
    case DoDelete(b, i) => DeleteEffect(s, b, i);
    case DoUpdate(b, i, data, valid) => UpdateEffect(s, b, i, data, valid);
    case _ =>
  }

  /** Over every run, with other Bots' calls, collections, imports and restarts, a Bot's grant stays
      until a deletion of that Bot and ID, for the same object, and its metadata until its update. */
  lemma {:induction false} GrantLasts(s: Store, actions: seq<Action>, bot: string, id: string)
    requires At(s, bot, id).Some? && DoDelete(bot, id) !in actions
    ensures At(Run(s, actions), bot, id).Some? && SameObject(At(s, bot, id).value, At(Run(s, actions), bot, id).value)
    ensures (forall i :: 0 <= i < |actions| ==> !Updates(actions[i], bot, id)) ==> At(Run(s, actions), bot, id) == At(s, bot, id)
  {
    hide Step;
    hide MayStore;
    if actions != [] {
      GrantLasts(s, actions[..|actions| - 1], bot, id);
      StepGrants(Run(s, actions[..|actions| - 1]), actions[|actions| - 1], bot, id);
    }
  }

  // ---- How long an object lasts ----

  /** Objects only come, of these digests, each with the bytes of its digest. */
  predicate OnlyAdds(s: Store, t: Store, digests: set<Digest>) {
    && (forall d :: d in s.objects ==> d in t.objects && t.objects[d] == s.objects[d])
    && (forall d :: d in t.objects && d !in s.objects ==> d in digests && t.objects[d] == d.content)
  }

  lemma PutAdds(s: Store, bot: string, id: string, content: Bytes, o: WriteOptions)
    ensures OnlyAdds(s, Put(s, bot, id, content, o).store, {Digest(content)})
    ensures OnlyAdds(s, CrashedPut(s, bot, id, content, o), {Digest(content)})
  {
    hide PutRefusal;
  }

  lemma ImportOneAdds(s: Store, bot: string, id: string, ref: Ref, quota: int)
    requires bot in s.bots
    ensures OnlyAdds(s, ImportOne(s, bot, id, ref, quota).store, {ref.digest})
  {
    hide PutRefusal;
    hide CapacityExceeded;
    assert Digest(ref.digest.content) == ref.digest;
  }

  lemma {:induction false} LoopAdds(s: Store, bot: string, b: Bundle, quota: int, order: seq<string>)
    requires bot in s.bots && forall i :: 0 <= i < |order| ==> order[i] in b.refs && b.refs[order[i]].Grant?
    ensures OnlyAdds(s, ImportLoop(s, bot, b, quota, order).store, Digests(b.refs))
    decreases |order|
  {
    if order != [] {
      var front, last := order[..|order| - 1], order[|order| - 1];
      LoopAdds(s, bot, b, quota, front);
      ImportOneAdds(ImportLoop(s, bot, b, quota, front).store, bot, last, b.refs[last].ref, quota);
      hide ImportOne;
    }
  }

  lemma DirectoryAdds(s: Store, bot: string, t: Store, digests: set<Digest>)
    ensures OnlyAdds(s, s, digests) && OnlyAdds(s, WithDirectory(s, bot), digests)
    ensures OnlyAdds(WithDirectory(s, bot), t, digests) ==> OnlyAdds(s, t, digests)
  {
  }

  lemma ImportAdds(s: Store, bot: string, b: Bundle, quota: int, order: seq<string>, entries: nat)
    requires Lists(order, b)
    ensures OnlyAdds(s, ImportSome(s, bot, b, quota, order, entries), Digests(b.refs))
  {
    hide FirstRefusal;
    hide EntryRefusal;
    hide Digests;
    hide OnlyAdds;
    hide Combined;
    var t := WithDirectory(s, bot);
    AcceptedEntries(t, bot, b, order);
    DirectoryAdds(s, bot, t, Digests(b.refs));
    if FirstRefusal(t, bot, b, order).None? {
      LoopAdds(t, bot, b, quota, order);
      DirectoryAdds(s, bot, ImportLoop(t, bot, b, quota, order).store, Digests(b.refs));
      if entries < |order| {
        LoopAdds(t, bot, b, quota, order[..entries]);
        DirectoryAdds(s, bot, ImportLoop(t, bot, b, quota, order[..entries]).store, Digests(b.refs));
      }
    }
    hide ImportLoop;
    hide WithDirectory;
  }

  /** What any step makes of the objects: each goes only by a collection that found it neither granted
      nor pinned, never changes, and comes only with the bytes of its digest. */
  lemma StepObjects(s: Store, a: Action, d: Digest)
    ensures var t := Step(s, a);
            if a.DoSweep? && Markable(s) && a.removed <= Dead(s) && d in a.removed
            then d !in t.objects && d !in Live(s) && PinCount(s, d) == 0
            else if d in s.objects then d in t.objects && t.objects[d] == s.objects[d]
            else d in t.objects ==>
              && t.objects[d] == d.content
              && (((a.DoPut? || a.DoCrashedPut?) && Digest(a.content) == d) || (a.DoImport? && d in Digests(a.bundle.refs)))
  {
    hide PutRefusal;
    hide Put;
    hide ImportSome;
    hide Markable;
    hide Digests;
    match a
    case DoPut(bot, id, content, o) => PutAdds(s, bot, id, content, o);
    case DoCrashedPut(bot, id, content, o) => PutAdds(s, bot, id, content, o);
    case DoImport(bot, bundle, quota, order, entries) =>
      if Lists(order, bundle) {
        ImportAdds(s, bot, bundle, quota, order, entries);
      }
    case _ =>
  }

  /** What was put and not deleted can be opened, whatever else happened: the reader gets exactly the
      bytes that were put. */
  lemma PutThenOpen(s: Store, bot: string, id: string, content: Bytes, o: WriteOptions, actions: seq<Action>)
    requires Integrity(s) && MayStore(s, bot, id, content, o) && DoDelete(bot, id) !in actions
    ensures var r := Open(Run(Put(s, bot, id, content, o).store, actions), bot, id);
            && r.result.Done? && r.result.ref.digest == Digest(content) && r.result.ref.size == |content| && r.store.readers != []
            && var reader := r.store.readers[|r.store.readers| - 1];
               reader.isOpen && reader.digest in r.store.objects && r.store.objects[reader.digest] == content
  {
    hide Integrity;
    hide Run;
    hide Put;
    var t := Put(s, bot, id, content, o).store;
    PutEffect(s, bot, id, content, o);
    PutKeeps(s, bot, id, content, o);
    GrantLasts(t, actions, bot, id);
    var u := Run(t, actions);
    NothingInUseIsRemoved(t, actions, 0, bot, id);
    OpenEffect(u, bot, id);
    hide Open;
  }
}
