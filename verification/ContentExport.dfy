/** Exporting a Bot and importing it elsewhere: exactly when that succeeds, and what it restores. */
module ContentExport {
  import opened Wrappers
  import opened ContentStore
  import opened ContentImport

  /** The part of a Bot's grants that the first entries of the bundle name. */
  function Part(b: Bundle, order: seq<string>): map<string, GrantFile> {
    map id | id in b.refs && id in order :: b.refs[id]
  }

  predicate FitsTemp(limits: Limits, digests: set<Digest>) {
    limits.tempBytes > 0 ==> forall d :: d in digests ==> |d.content| <= limits.tempBytes
  }

  ghost predicate FitsCapacity(limits: Limits, digests: set<Digest>) {
    limits.maxBytes > 0 ==> Total(digests) <= limits.maxBytes
  }

  ghost predicate FitsQuota(quota: int, digests: set<Digest>) {
    quota > 0 ==> Total(digests) <= quota
  }

  /** A bundle as export writes it. */
  predicate WellFormed(b: Bundle) {
    forall id :: id in b.refs ==> ValidID(id) && b.refs[id].Grant? && InBundle(b, b.refs[id].ref)
  }

  lemma ExportWellFormed(s: Store, bot: string)
    requires Exportable(s, bot)
    ensures WellFormed(Export(s, bot)) && Export(s, bot).refs == s.bots[bot]
    ensures Digests(Export(s, bot).refs) == Export(s, bot).objects.Keys
  {
    var b := Export(s, bot);
    forall id | id in b.refs ensures InBundle(b, b.refs[id].ref) {
      assert b.refs[id].ref.digest in Digests(s.bots[bot]);
    }
  }

  lemma PartGrows(b: Bundle, order: seq<string>)
    requires order != [] && WellFormed(b) && (forall i :: 0 <= i < |order| ==> order[i] in b.refs) && order[|order| - 1] !in order[..|order| - 1]
    ensures var front := order[..|order| - 1]; var id := order[|order| - 1];
            && id !in Part(b, front) && Part(b, order) == Part(b, front)[id := b.refs[id]]
            && Digests(Part(b, order)) == Digests(Part(b, front)) + {b.refs[id].ref.digest}
  {
    var front := order[..|order| - 1];
    var id := order[|order| - 1];
    assert order == front + [id];
    assert Part(b, order) == Part(b, front)[id := b.refs[id]];
    DigestsWrite(Part(b, front), id, b.refs[id].ref);
  }

  /** The store after the first entries of the loop. */
  predicate Imported(s: Store, t: Store, bot: string, b: Bundle, order: seq<string>) {
    && bot in t.bots && t.bots[bot] == Part(b, order) && t.limits == s.limits
    && t.objects.Keys == s.objects.Keys + Digests(Part(b, order)) && ObjectsSound(t)
    && Readable(t.bots[bot])
  }

  ghost predicate Conditions(s: Store, b: Bundle, quota: int, order: seq<string>) {
    var digests := Digests(Part(b, order));
    FitsTemp(s.limits, digests) && FitsCapacity(s.limits, s.objects.Keys + digests) && FitsQuota(quota, digests)
  }

  /** One entry that the Bot does not have yet. */
  lemma EntryPut(t: Store, bot: string, id: string, ref: Ref, quota: int)
    requires bot in t.bots && id !in t.bots[bot] && ValidID(id) && Readable(t.bots[bot]) && ObjectsSound(t)
    requires ref.size == |ref.digest.content|
    ensures var r := ImportOne(t, bot, id, ref, quota);
            && (r.result.Done? <==> && (t.limits.tempBytes > 0 ==> ref.size <= t.limits.tempBytes)
                                    && !QuotaExceeded(t, bot, ref.digest.content, quota)
                                    && (ref.digest in t.objects || !CapacityExceeded(t, ref.digest.content)))
            && (r.result.Done? ==> r.store == WriteGrant(Publish(t, ref.digest.content), bot, id, ref))
  {
  }

  lemma StepShape(s: Store, t: Store, bot: string, b: Bundle, quota: int, order: seq<string>)
    requires order != [] && WellFormed(b) && (forall i :: 0 <= i < |order| ==> order[i] in b.refs) && order[|order| - 1] !in order[..|order| - 1]
    requires Imported(s, t, bot, b, order[..|order| - 1])
    ensures var ref := b.refs[order[|order| - 1]].ref;
            Imported(s, WriteGrant(Publish(t, ref.digest.content), bot, order[|order| - 1], ref), bot, b, order)
  {
    var id := order[|order| - 1];
    var ref := b.refs[id].ref;
    PartGrows(b, order);
    assert ValidID(id);
    GrantShape(t, bot, id, ref);
    hide Part;
    hide Digests;
    hide ValidID;
    hide Readable;
    hide WriteGrant;
    hide ObjectsSound;
    hide InBundle;
    UnionGrows(s.objects.Keys, Digests(Part(b, order[..|order| - 1])), ref.digest);
  }

  lemma UnionGrows(a: set<Digest>, c: set<Digest>, d: Digest)
    ensures a + (c + {d}) == a + c + {d}
  {
  }

  lemma GrantShape(t: Store, bot: string, id: string, ref: Ref)
    requires bot in t.bots && Readable(t.bots[bot]) && ObjectsSound(t) && ValidID(id)
    ensures var r := WriteGrant(Publish(t, ref.digest.content), bot, id, ref);
            && bot in r.bots && r.bots[bot] == t.bots[bot][id := Grant(ref)] && r.limits == t.limits
            && r.objects.Keys == t.objects.Keys + {ref.digest} && ObjectsSound(r) && Readable(r.bots[bot])
  {
  }

  /** The conditions grow by what the next entry needs. */
  lemma ConditionsStep(s: Store, t: Store, bot: string, b: Bundle, quota: int, order: seq<string>)
    requires order != [] && WellFormed(b) && (forall i :: 0 <= i < |order| ==> order[i] in b.refs) && order[|order| - 1] !in order[..|order| - 1]
    requires Imported(s, t, bot, b, order[..|order| - 1]) && Conditions(s, b, quota, order[..|order| - 1])
    ensures var ref := b.refs[order[|order| - 1]].ref;
            Conditions(s, b, quota, order) <==>
            && (t.limits.tempBytes > 0 ==> |ref.digest.content| <= t.limits.tempBytes)
            && !QuotaExceeded(t, bot, ref.digest.content, quota)
            && (ref.digest in t.objects || !CapacityExceeded(t, ref.digest.content))
  {
    var front := order[..|order| - 1];
    var ref := b.refs[order[|order| - 1]].ref;
    PartGrows(b, order);
    var digests := Digests(Part(b, front));
    var before := s.objects.Keys + digests;
    UnionGrows(s.objects.Keys, digests, ref.digest);
    TotalInsert(before, ref.digest);
    TotalInsert(digests, ref.digest);
    StoredSound(t.objects);
    hide Part;
    hide Digests;
    hide WellFormed;
    hide ObjectsSound;
  }

  lemma StepDone(s: Store, t: Store, bot: string, b: Bundle, quota: int, order: seq<string>)
    requires order != [] && WellFormed(b) && (forall i :: 0 <= i < |order| ==> order[i] in b.refs) && order[|order| - 1] !in order[..|order| - 1]
    requires Imported(s, t, bot, b, order[..|order| - 1]) && Conditions(s, b, quota, order[..|order| - 1])
    ensures var id := order[|order| - 1];
            var r := ImportOne(t, bot, id, b.refs[id].ref, quota);
            && (r.result.Done? <==> Conditions(s, b, quota, order))
            && (r.result.Done? ==> Imported(s, r.store, bot, b, order))
  {
    var id := order[|order| - 1];
    PartGrows(b, order);
    assert InBundle(b, b.refs[id].ref);
    ConditionsStep(s, t, bot, b, quota, order);
    StepShape(s, t, bot, b, quota, order);
    EntryPut(t, bot, id, b.refs[id].ref, quota);
    hide Conditions;
    hide ImportOne;
    hide QuotaExceeded;
    hide CapacityExceeded;
  }

  lemma {:induction false} LoopExact(s: Store, bot: string, b: Bundle, quota: int, order: seq<string>)
    requires Imported(s, s, bot, b, []) && WellFormed(b) && FitsCapacity(s.limits, s.objects.Keys)
    requires (forall i :: 0 <= i < |order| ==> order[i] in b.refs && b.refs[order[i]].Grant?) && NoRepeats(order)
    ensures var r := ImportLoop(s, bot, b, quota, order);
            && (r.error.None? <==> Conditions(s, b, quota, order))
            && (r.error.None? ==> Imported(s, r.store, bot, b, order))
    decreases |order|
  {
    if order == [] {
      assert Digests(Part(b, [])) == {};
      assert s.objects.Keys + {} == s.objects.Keys;
    } else {
      var front := order[..|order| - 1];
      LoopExact(s, bot, b, quota, front);
      var before := ImportLoop(s, bot, b, quota, front);
      ConditionsGrow(s, b, quota, order);
      if before.error.None? {
        StepDone(s, before.store, bot, b, quota, order);
      }
      hide Imported;
      hide Conditions;
      hide ImportOne;
    }
  }

  lemma ConditionsGrow(s: Store, b: Bundle, quota: int, order: seq<string>)
    requires order != []
    ensures Conditions(s, b, quota, order) ==> Conditions(s, b, quota, order[..|order| - 1])
  {
    var front := Digests(Part(b, order[..|order| - 1]));
    var all := Digests(Part(b, order));
    forall d | d in front ensures d in all {
      var id :| id in Part(b, order[..|order| - 1]) && Part(b, order[..|order| - 1])[id].Grant? && Part(b, order[..|order| - 1])[id].ref.digest == d;
      assert id in Part(b, order);
    }
    TotalMonotone(front, all);
    TotalMonotone(s.objects.Keys + front, s.objects.Keys + all);
  }

  lemma WholePart(b: Bundle, order: seq<string>)
    requires Lists(order, b)
    ensures Part(b, order) == b.refs
  {
  }

  /** An import of a well-formed bundle of an unknown Bot: the quota check, then the loop. */
  lemma ImportIsLoop(t: Store, bot: string, b: Bundle, quota: int, order: seq<string>)
    requires WellFormed(b) && bot !in t.bots && ValidID(bot) && Lists(order, b)
    ensures Import(t, bot, b, quota, order) == (if FitsQuota(quota, Digests(b.refs)) then ImportLoop(WithDirectory(t, bot), bot, b, quota, order)
                                                else ImportReply(WithDirectory(t, bot), Some(OverQuota)))
  {
    var u := WithDirectory(t, bot);
    AcceptedEntries(u, bot, b, order);
    assert FirstRefusal(u, bot, b, order).None?;
    assert Combined(u, bot, b) == Digests(b.refs);
    hide ImportLoop;
  }

  /** Importing an export into a store that does not know the Bot succeeds exactly when the distinct
      objects fit the quota, every object fits the temporary budget, and they fit the store beside
      what it holds, whatever the order of the entries. It then restores the same grants and bytes. */
  lemma ExportImport(s: Store, t: Store, bot: string, quota: int, order: seq<string>)
    requires Exportable(s, bot) && Integrity(t) && bot !in t.bots && ValidID(bot) && Lists(order, Export(s, bot))
    ensures var digests := Digests(s.bots[bot]);
            var r := Import(t, bot, Export(s, bot), quota, order);
            && (r.error.None? <==> FitsTemp(t.limits, digests) && FitsCapacity(t.limits, t.objects.Keys + digests) && FitsQuota(quota, digests))
            && (r.error.None? ==> bot in r.store.bots && r.store.bots[bot] == s.bots[bot]
                                   && (forall d :: d in digests ==> d in s.objects && d in r.store.objects && r.store.objects[d] == s.objects[d]))
  {
    var b := Export(s, bot);
    ExportWellFormed(s, bot);
    hide Export;
    WholePart(b, order);
    var u := WithDirectory(t, bot);
    EmptyStart(t, bot, b);
    ImportIsLoop(t, bot, b, quota, order);
    LoopExact(u, bot, b, quota, order);
    var r := ImportLoop(u, bot, b, quota, order);
    if r.error.None? {
      SameBytes(s, r.store, bot);
    }
    hide ImportLoop;
    hide Import;
    hide Part;
    hide Digests;
    hide Exportable;
    hide Integrity;
  }

  lemma SameBytes(s: Store, t: Store, bot: string)
    requires Exportable(s, bot) && ObjectsSound(t) && Digests(s.bots[bot]) <= t.objects.Keys
    ensures forall d :: d in Digests(s.bots[bot]) ==> d in s.objects && d in t.objects && t.objects[d] == s.objects[d]
  {
    forall d | d in Digests(s.bots[bot]) ensures d in s.objects && d in t.objects && t.objects[d] == s.objects[d] {
      var id :| id in s.bots[bot] && s.bots[bot][id].Grant? && s.bots[bot][id].ref.digest == d;
      assert Verified(s, d, s.bots[bot][id].ref.size);
    }
  }

  lemma EmptyStart(t: Store, bot: string, b: Bundle)
    requires Integrity(t) && bot !in t.bots
    ensures Imported(WithDirectory(t, bot), WithDirectory(t, bot), bot, b, [])
    ensures FitsCapacity(WithDirectory(t, bot).limits, WithDirectory(t, bot).objects.Keys)
  {
    assert Part(b, []) == map[];
    assert Digests(map[]) == {};
    StoredSound(t.objects);
  }
}
