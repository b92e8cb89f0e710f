/** Quotas, and what import does with an export. */
module ContentImport {
  import opened Wrappers
  import opened ContentStore
  import opened ContentTheorems

  // ---- The quota of a Bot ----

  ghost predicate WithinQuota(s: Store, bot: string, quota: int) {
    bot in s.bots && quota > 0 ==> Usage(s, bot) <= quota
  }

  lemma DigestsWrite(grants: map<string, GrantFile>, id: string, ref: Ref)
    requires id !in grants
    ensures Digests(grants[id := Grant(ref)]) == Digests(grants) + {ref.digest}
  {
    var after := grants[id := Grant(ref)];
    forall d | d in Digests(grants) + {ref.digest} ensures d in Digests(after) {
      if d in Digests(grants) {
        var i :| i in grants && grants[i].Grant? && grants[i].ref.digest == d;
        assert after[i] == grants[i];
      } else {
        assert after[id].ref.digest == d;
      }
    }
  }

  lemma PutQuota(s: Store, bot: string, id: string, content: Bytes, o: WriteOptions)
    requires WithinQuota(s, bot, o.quotaBytes)
    ensures WithinQuota(Put(s, bot, id, content, o).store, bot, o.quotaBytes)
  {
    if PutRefusal(s, bot, id, content, o).None? && id !in s.bots[bot] {
      DigestsWrite(s.bots[bot], id, Ref(Digest(content), |content|, o.data));
      TotalInsert(Digests(s.bots[bot]), Digest(content));
    }
  }

  lemma {:induction false} ImportLoopQuota(s: Store, bot: string, b: Bundle, quota: int, order: seq<string>)
    requires bot in s.bots && Accepted(s, bot, b, order) && WithinQuota(s, bot, quota)
    ensures WithinQuota(ImportLoop(s, bot, b, quota, order).store, bot, quota)
    decreases |order|
  {
    if order != [] {
      var id := order[|order| - 1];
      ImportLoopQuota(s, bot, b, quota, order[..|order| - 1]);
      var before := ImportLoop(s, bot, b, quota, order[..|order| - 1]);
      var ref := b.refs[id].ref;
      assert EntryRefusal(s, bot, b, id).None?;
      PutQuota(before.store, bot, id, ref.digest.content, WriteOptions(0, quota, ref.size, Some(ref.digest), ref.data));
    }
  }

  lemma {:induction false} ImportLoopOthers(s: Store, bot: string, b: Bundle, quota: int, order: seq<string>)
    requires bot in s.bots && Accepted(s, bot, b, order)
    ensures var t := ImportLoop(s, bot, b, quota, order).store;
            t.bots.Keys == s.bots.Keys && t.bots - {bot} == s.bots - {bot} && t.limits == s.limits
    decreases |order|
  {
    if order != [] {
      ImportLoopOthers(s, bot, b, quota, order[..|order| - 1]);
      var before := ImportLoop(s, bot, b, quota, order[..|order| - 1]).store;
      assert EntryRefusal(s, bot, b, order[|order| - 1]).None?;
      ImportOneOthers(before, bot, order[|order| - 1], b.refs[order[|order| - 1]].ref, quota);
      hide ImportOne;
      hide EntryRefusal;
    }
  }

  lemma ImportOneOthers(s: Store, bot: string, id: string, ref: Ref, quota: int)
    requires bot in s.bots
    ensures var t := ImportOne(s, bot, id, ref, quota).store;
            t.bots.Keys == s.bots.Keys && t.bots - {bot} == s.bots - {bot} && t.limits == s.limits
  {
    hide PutRefusal;
    hide CapacityExceeded;
    hide Verified;
  }

  /** A Bot that is always given the same quota never exceeds it, counting each digest once. */
  lemma StepQuota(s: Store, a: Action, bot: string, quota: int)
    requires WithinQuota(s, bot, quota)
    requires a.DoPut? && a.bot == bot ==> a.o.quotaBytes == quota
    requires a.DoImport? && a.bot == bot ==> a.quota == quota
    ensures WithinQuota(Step(s, a), bot, quota)
  {
    match a
    case DoPut(other, id, content, o) =>
      if other == bot {
        PutQuota(s, bot, id, content, o);
      }
    case DoDelete(other, id) =>
      if other == bot && Delete(s, other, id).result.Done? {
        TotalMonotone(Digests(s.bots[bot] - {id}), Digests(s.bots[bot]));
      }
    case DoUpdate(other, id, data, valid) =>
      if other == bot && Update(s, other, id, data, valid).result.Done? {
        SameDigests(s.bots[bot], id, data);
      }
    case DoImport(other, b, q, order, entries) =>
      if Lists(order, b) {
        ImportSomeQuota(s, other, b, q, order, entries, bot, quota);
      }
    case _ =>
  }

  lemma SameDigests(grants: map<string, GrantFile>, id: string, data: string)
    requires id in grants && grants[id].Grant?
    ensures Digests(grants[id := Grant(grants[id].ref.(data := data))]) == Digests(grants)
  {
    var after := grants[id := Grant(grants[id].ref.(data := data))];
    assert forall i :: i in grants ==> (after[i].Grant? <==> grants[i].Grant?);
    assert forall i :: i in grants && grants[i].Grant? ==> after[i].ref.digest == grants[i].ref.digest;
  }

  lemma LoopQuota(t: Store, other: string, b: Bundle, q: int, order: seq<string>, bot: string, quota: int)
    requires other in t.bots && Accepted(t, other, b, order) && WithinQuota(t, bot, quota) && (other == bot ==> q == quota)
    ensures WithinQuota(ImportLoop(t, other, b, q, order).store, bot, quota)
  {
    hide ImportLoop;
    ImportLoopOthers(t, other, b, q, order);
    if other == bot {
      ImportLoopQuota(t, other, b, q, order);
    } else if bot in t.bots {
      SameUsage(t, ImportLoop(t, other, b, q, order).store, other, bot);
    }
  }

  lemma ImportSomeQuota(s: Store, other: string, b: Bundle, q: int, order: seq<string>, entries: nat, bot: string, quota: int)
    requires Lists(order, b) && WithinQuota(s, bot, quota) && (other == bot ==> q == quota)
    ensures WithinQuota(ImportSome(s, other, b, q, order, entries), bot, quota)
  {
    hide ImportLoop;
    hide FirstRefusal;
    hide EntryRefusal;
    var t := WithDirectory(s, other);
    AcceptedEntries(t, other, b, order);
    NewDirectoryQuota(s, other, bot, quota);
    hide WithinQuota;
    hide WithDirectory;
    if FirstRefusal(t, other, b, order).None? {
      LoopQuota(t, other, b, q, order, bot, quota);
      if entries < |order| {
        LoopQuota(t, other, b, q, order[..entries], bot, quota);
      }
    }
  }

  lemma NewDirectoryQuota(s: Store, other: string, bot: string, quota: int)
    requires WithinQuota(s, bot, quota)
    ensures WithinQuota(WithDirectory(s, other), bot, quota) && other in WithDirectory(s, other).bots
  {
    assert Digests(map[]) == {};
    assert Total({}) == 0;
  }

  lemma SameUsage(s: Store, t: Store, other: string, bot: string)
    requires t.bots.Keys == s.bots.Keys && t.bots - {other} == s.bots - {other} && bot != other && bot in s.bots
    ensures bot in t.bots && Usage(t, bot) == Usage(s, bot)
  {
    assert (t.bots - {other})[bot] == (s.bots - {other})[bot];
  }

  lemma {:induction false} RunQuota(s: Store, actions: seq<Action>, bot: string, quota: int)
    requires WithinQuota(s, bot, quota)
    requires forall i :: 0 <= i < |actions| ==>
               && (actions[i].DoPut? && actions[i].bot == bot ==> actions[i].o.quotaBytes == quota)
               && (actions[i].DoImport? && actions[i].bot == bot ==> actions[i].quota == quota)
    ensures WithinQuota(Run(s, actions), bot, quota)
  {
    if actions != [] {
      RunQuota(s, actions[..|actions| - 1], bot, quota);
      hide WithinQuota;
      StepQuota(Run(s, actions[..|actions| - 1]), actions[|actions| - 1], bot, quota);
    }
  }

  // ---- The one-time quota check of import ----

  lemma AcceptedGrants(s: Store, bot: string, b: Bundle, order: seq<string>)
    requires bot in s.bots && Accepted(s, bot, b, order)
    ensures forall i :: 0 <= i < |order| ==> order[i] in b.refs && b.refs[order[i]].Grant?
  {
    forall i | 0 <= i < |order| ensures order[i] in b.refs && b.refs[order[i]].Grant? {
      assert EntryRefusal(s, bot, b, order[i]).None?;
    }
  }

  lemma {:induction false} LoopStaysCombined(s: Store, bot: string, b: Bundle, quota: int, order: seq<string>)
    requires bot in s.bots && Accepted(s, bot, b, order)
    requires quota > 0 ==> Total(Combined(s, bot, b)) <= quota
    ensures var r := ImportLoop(s, bot, b, quota, order);
            Digests(r.store.bots[bot]) <= Combined(s, bot, b) && r.error != Some(OverQuota)
    decreases |order|
  {
    hide Digests;
    hide EntryRefusal;
    hide ImportOne;
    if order != [] {
      var id := order[|order| - 1];
      LoopStaysCombined(s, bot, b, quota, order[..|order| - 1]);
      AcceptedGrants(s, bot, b, order);
      var before := ImportLoop(s, bot, b, quota, order[..|order| - 1]);
      if before.error.None? {
        EntryStaysCombined(before.store, bot, id, b.refs[id].ref, quota, Combined(s, bot, b), b);
      }
    } else {
      assert Digests(s.bots[bot]) <= Combined(s, bot, b);
    }
  }

  lemma EntryStaysCombined(t: Store, bot: string, id: string, ref: Ref, quota: int, combined: set<Digest>, b: Bundle)
    requires bot in t.bots && Digests(t.bots[bot]) <= combined && Digests(b.refs) <= combined
    requires id in b.refs && b.refs[id] == Grant(ref) && (quota > 0 ==> Total(combined) <= quota)
    ensures var r := ImportOne(t, bot, id, ref, quota);
            && bot in r.store.bots && Digests(r.store.bots[bot]) <= combined && r.result != Refused(OverQuota)
  {
    hide Verified;
    hide CapacityExceeded;
    hide Readable;
    hide Limit;
    if id in t.bots[bot] {
      hide Digests;
    } else {
      assert ref.digest in Digests(b.refs);
      DigestsWrite(t.bots[bot], id, ref);
      hide Digests;
      StaysWithin(Digests(t.bots[bot]), ref.digest, combined);
      assert !QuotaExceeded(t, bot, ref.digest.content, quota);
      hide QuotaExceeded;
    }
  }

  lemma StaysWithin(held: set<Digest>, d: Digest, combined: set<Digest>)
    requires held <= combined && d in combined
    ensures held + {d} <= combined && Total(held) + (if d in held then 0 else |d.content|) <= Total(combined)
  {
    TotalInsert(held, d);
    TotalMonotone(held + {d}, combined);
  }

  /** Import fails with a quota error exactly when its own check says so: once the distinct digests
      of the Bot and the bundle fit the quota, no later put can fail on it, in any order. */
  lemma OnlyTheCheckIsOverQuota(s: Store, bot: string, b: Bundle, quota: int, order: seq<string>)
    requires Lists(order, b)
    ensures var t := WithDirectory(s, bot);
            Import(s, bot, b, quota, order).error == Some(OverQuota) <==>
            && ValidID(bot) && Readable(t.bots[bot]) && Accepted(t, bot, b, order)
            && quota > 0 && Total(Combined(t, bot, b)) > quota
  {
    var t := WithDirectory(s, bot);
    AcceptedEntries(t, bot, b, order);
    RefusalIsNotQuota(t, bot, b, order);
    if ValidID(bot) && Readable(t.bots[bot]) && Accepted(t, bot, b, order) && (quota > 0 ==> Total(Combined(t, bot, b)) <= quota) {
      LoopStaysCombined(t, bot, b, quota, order);
    }
    hide ImportLoop;
    hide EntryRefusal;
    hide Combined;
  }

  lemma {:induction false} RefusalIsNotQuota(s: Store, bot: string, b: Bundle, order: seq<string>)
    requires bot in s.bots && forall i :: 0 <= i < |order| ==> order[i] in b.refs
    ensures FirstRefusal(s, bot, b, order) != Some(OverQuota)
  {
    if order != [] {
      RefusalIsNotQuota(s, bot, b, order[..|order| - 1]);
    }
  }

  // ---- Import restores ----

  predicate Has(s: Store, bot: string, id: string, ref: Ref) {
    Granted(s, bot, id) && GrantedRef(s, bot, id) == ref && Verified(s, ref.digest, ref.size)
  }

  predicate Compatible(s: Store, bot: string, id: string, ref: Ref) {
    bot in s.bots && (id in s.bots[bot] ==> s.bots[bot][id] == Grant(ref))
  }

  /** One entry of the loop, when it succeeds, gives the Bot that grant and its object and takes
      nothing away. */
  lemma ImportOneHas(s: Store, bot: string, id: string, ref: Ref, quota: int, other: string, otherRef: Ref)
    requires Compatible(s, bot, id, ref) && ref.size == |ref.digest.content|
    requires ImportOne(s, bot, id, ref, quota).result.Done?
    ensures Has(ImportOne(s, bot, id, ref, quota).store, bot, id, ref)
    ensures Has(s, bot, other, otherRef) ==> Has(ImportOne(s, bot, id, ref, quota).store, bot, other, otherRef)
  {
  }

  lemma ImportOneCompatible(s: Store, bot: string, id: string, ref: Ref, quota: int, other: string, otherRef: Ref)
    requires bot in s.bots && other != id && Compatible(s, bot, other, otherRef)
    ensures Compatible(ImportOne(s, bot, id, ref, quota).store, bot, other, otherRef)
  {
  }

  lemma {:induction false} LoopCompatible(s: Store, bot: string, b: Bundle, quota: int, order: seq<string>, id: string)
    requires bot in s.bots && Accepted(s, bot, b, order) && id in b.refs && EntryRefusal(s, bot, b, id).None? && id !in order
    ensures Compatible(ImportLoop(s, bot, b, quota, order).store, bot, id, b.refs[id].ref)
    decreases |order|
  {
    if order != [] {
      var last := order[|order| - 1];
      LoopCompatible(s, bot, b, quota, order[..|order| - 1], id);
      assert EntryRefusal(s, bot, b, last).None?;
      ImportOneCompatible(ImportLoop(s, bot, b, quota, order[..|order| - 1]).store, bot, last, b.refs[last].ref, quota, id, b.refs[id].ref);
    }
  }

  predicate NoRepeats(order: seq<string>) {
    forall i, j :: 0 <= i < j < |order| ==> order[i] != order[j]
  }

  lemma LastEntry(s: Store, bot: string, b: Bundle, quota: int, order: seq<string>)
    requires bot in s.bots && Accepted(s, bot, b, order) && order != []
    requires ImportLoop(s, bot, b, quota, order).error.None?
    ensures var before := ImportLoop(s, bot, b, quota, order[..|order| - 1]);
            var one := ImportOne(before.store, bot, order[|order| - 1], b.refs[order[|order| - 1]].ref, quota);
            before.error.None? && one.result.Done? && ImportLoop(s, bot, b, quota, order).store == one.store
  {
  }

  lemma AcceptedIsSized(s: Store, bot: string, b: Bundle, order: seq<string>, i: nat)
    requires bot in s.bots && Accepted(s, bot, b, order) && i < |order|
    ensures EntryRefusal(s, bot, b, order[i]).None? && b.refs[order[i]].Grant?
    ensures b.refs[order[i]].ref.size == |b.refs[order[i]].ref.digest.content|
  {
    assert EntryRefusal(s, bot, b, order[i]).None?;
  }

  lemma LastIsNew(s: Store, bot: string, b: Bundle, order: seq<string>)
    requires bot in s.bots && Accepted(s, bot, b, order) && NoRepeats(order) && order != []
    ensures order[|order| - 1] !in order[..|order| - 1] && NoRepeats(order[..|order| - 1])
    ensures Accepted(s, bot, b, order[..|order| - 1])
  {
    hide EntryRefusal;
  }

  lemma {:induction false} LoopHas(s: Store, bot: string, b: Bundle, quota: int, order: seq<string>, i: nat)
    requires bot in s.bots && Accepted(s, bot, b, order) && NoRepeats(order) && i < |order|
    requires ImportLoop(s, bot, b, quota, order).error.None?
    ensures Has(ImportLoop(s, bot, b, quota, order).store, bot, order[i], b.refs[order[i]].ref)
    decreases |order|
  {
    hide ImportOne;
    hide EntryRefusal;
    hide Has;
    hide Compatible;
    var front := order[..|order| - 1];
    var last := order[|order| - 1];
    AcceptedGrants(s, bot, b, order);
    AcceptedIsSized(s, bot, b, order, |order| - 1);
    AcceptedIsSized(s, bot, b, order, i);
    LastEntry(s, bot, b, quota, order);
    LastIsNew(s, bot, b, order);
    hide ImportLoop;
    hide NoRepeats;
    hide Accepted;
    var before := ImportLoop(s, bot, b, quota, front);
    LoopCompatible(s, bot, b, quota, front, last);
    if i < |front| {
      LoopHas(s, bot, b, quota, front, i);
      assert front[i] == order[i];
    }
    ImportOneHas(before.store, bot, last, b.refs[last].ref, quota, order[i], b.refs[order[i]].ref);
  }

  /** A successful import leaves the Bot with every exported grant, unchanged, and the bytes of its
      object, also where the grant was there and only its object had been lost. */
  lemma ImportRestores(s: Store, bot: string, b: Bundle, quota: int, order: seq<string>, id: string)
    requires Lists(order, b) && Import(s, bot, b, quota, order).error.None? && id in b.refs
    ensures b.refs[id].Grant? && Has(Import(s, bot, b, quota, order).store, bot, id, b.refs[id].ref)
  {
    var t := WithDirectory(s, bot);
    AcceptedEntries(t, bot, b, order);
    var i :| 0 <= i < |order| && order[i] == id;
    LoopHas(t, bot, b, quota, order, i);
    hide ImportLoop;
  }
}
