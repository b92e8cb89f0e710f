/** What the journal's inbox and outbox hold after every legal history (internal/messaging/journal.go). */
module DurableContents {
  import opened Protocol
  import opened Journal
  import opened DurableLog
  import opened DurableTheorems

  // ---- The inbox ----

  /** The deliveries received, in order. */
  function Deliveries(cs: seq<Change>): seq<Envelope> {
    if cs == [] then []
    else
      var rest := Deliveries(cs[..|cs| - 1]);
      if cs[|cs| - 1].Receive? then rest + [cs[|cs| - 1].item] else rest
  }

  predicate InboxIs(x: Index, items: seq<Envelope>) {
    && |x.inbox| == |items| && (forall i :: 0 <= i < |items| ==> x.inbox[i] == Stored(items[i], i + 1))
    && x.received == (set i | 0 <= i < |items| :: items[i].from + "/" + items[i].id)
    && (forall i, j :: 0 <= i < j < |items| ==> items[i].from + "/" + items[i].id != items[j].from + "/" + items[j].id)
  }

  lemma NextInbox(x: Index, c: Change)
    ensures Next(x, c).inbox == x.inbox + if c.Receive? then [Stored(c.item, |x.inbox| + 1)] else []
    ensures Next(x, c).received == x.received + if c.Receive? then {MessageKey(c.item)} else {}
  {
    hide WorkShard;
    hide IsCommand;
    hide EventKey;
    hide Previous;
  }

  lemma InboxGrows(x: Index, y: Index, items: seq<Envelope>, item: Envelope)
    requires InboxIs(x, items) && MessageKey(item) !in x.received
    requires y.inbox == x.inbox + [Stored(item, |x.inbox| + 1)] && y.received == x.received + {MessageKey(item)}
    ensures InboxIs(y, items + [item])
  {
    var more := items + [item];
    forall k | k in y.received ensures k in (set i | 0 <= i < |more| :: more[i].from + "/" + more[i].id) {
      if k in x.received {
        var i :| 0 <= i < |items| && items[i].from + "/" + items[i].id == k;
        assert more[i].from + "/" + more[i].id == k;
      } else {
        assert more[|items|].from + "/" + more[|items|].id == k;
      }
    }
  }

  /** In every history the inbox is exactly the deliveries received, in order, under cursors 1..n, each
      sender and message ID once. */
  lemma {:induction false} InboxIsDeliveries(cs: seq<Change>)
    requires Legal(cs)
    ensures InboxIs(After(cs), Deliveries(cs))
  {
    if cs != [] {
      LastStep(cs);
      var before, c := cs[..|cs| - 1], cs[|cs| - 1];
      hide Inv;
      hide WorkInv;
      hide Next;
      InboxIsDeliveries(before);
      NextInbox(After(before), c);
      hide InboxIs;
      if c.Receive? {
        InboxGrows(After(before), After(cs), Deliveries(before), c.item);
      } else {
        InboxSame(After(before), After(cs), Deliveries(before));
      }
    }
  }

  lemma InboxSame(x: Index, y: Index, items: seq<Envelope>)
    requires InboxIs(x, items) && y.inbox == x.inbox && y.received == x.received
    ensures InboxIs(y, items)
  {
  }

  // ---- The outbox ----

  /** The change that put this message into the outbox. */
  predicate Sends(c: Change, id: string) {
    OutboxEnvelope(c).Some? && OutboxEnvelope(c).value.id == id
  }

  predicate Sent(cs: seq<Change>, id: string) {
    exists i :: 0 <= i < |cs| && Sends(cs[i], id)
  }

  /** The message is the one that was sent, under its key and fingerprint, published exactly if that
      was confirmed. */
  predicate StoredAs(x: Index, cs: seq<Change>, id: string) {
    && (id in x.publications <==> Sent(cs, id))
    && (id in x.publications ==>
          && (x.publications[id].published <==> Published(id) in cs)
          && forall i :: 0 <= i < |cs| && Sends(cs[i], id) ==> SentAs(x.publications[id], cs[i]))
    && (id !in x.publications ==> Published(id) !in cs)
  }

  predicate SentAs(p: Publication, c: Change) {
    match c
    case ClientPublish(env, key, hash) => p.message == env && p.key == key && p.fingerprint == hash
    case Event(key, env, hash, _) => p.message == env && p.key == EventSlot(key, env.runId, env.seqNo) && p.fingerprint == hash
    case _ => false
  }

  /** What a change makes of the publication under one ID. */
  lemma NextPublication(x: Index, c: Change, id: string)
    requires Inv(x) && LegalChange(x, c)
    ensures var y := Next(x, c);
            if Sends(c, id) then id !in x.publications && id in y.publications && !y.publications[id].published && SentAs(y.publications[id], c)
            else if c == Published(id) then
              id in x.publications && id in y.publications && y.publications[id] == x.publications[id].(published := true)
            else (id in y.publications <==> id in x.publications) && (id in x.publications ==> y.publications[id] == x.publications[id])
  {
    hide QueueInv;
    hide CountInv;
    hide IsHead;
    hide IsCommand;
    assert WorkInv(x) && KeyInv(x) && PubInv(x);
    hide Inv;
    hide Next;
    if c.ClientPublish? || c.Event? {
      NextAdded(x, c);
      hide WorkInv;
      hide KeyInv;
      hide PubInv;
    } else if c.Published? {
      NextConfirmed(x, c);
    } else {
      NextSameOutbox(x, c);
    }
  }

  lemma OutboxGrows(x: Index, y: Index, cs: seq<Change>, c: Change, id: string)
    requires StoredAs(x, cs, id)
    requires if Sends(c, id) then id !in x.publications && id in y.publications && !y.publications[id].published && SentAs(y.publications[id], c)
             else if c == Published(id) then
               id in x.publications && id in y.publications && y.publications[id] == x.publications[id].(published := true)
             else (id in y.publications <==> id in x.publications) && (id in x.publications ==> y.publications[id] == x.publications[id])
    ensures StoredAs(y, cs + [c], id)
  {
    hide SentAs;
    var more := cs + [c];
    assert Sent(more, id) <==> Sent(cs, id) || Sends(c, id) by {
      if Sent(cs, id) {
        var i :| 0 <= i < |cs| && Sends(cs[i], id);
        assert Sends(more[i], id);
      }
      if Sends(c, id) {
        assert Sends(more[|cs|], id);
      }
      if Sent(more, id) && !Sends(c, id) {
        var i :| 0 <= i < |more| && Sends(more[i], id);
        assert Sends(cs[i], id);
      }
    }
    hide Sent;
    if id in y.publications {
      forall i | 0 <= i < |more| && Sends(more[i], id) ensures SentAs(y.publications[id], more[i]) {
        if i < |cs| {
          assert cs[i] == more[i];
          assert Sent(cs, id) by {
            SentBy(cs, i, id);
          }
          assert SentAs(x.publications[id], cs[i]);
          SameSent(x.publications[id], y.publications[id], cs[i]);
        }
      }
    }
  }

  lemma SentBy(cs: seq<Change>, i: nat, id: string)
    requires i < |cs| && Sends(cs[i], id)
    ensures Sent(cs, id)
  {
  }

  lemma SameSent(p: Publication, q: Publication, c: Change)
    requires SentAs(p, c) && q == p.(published := q.published)
    ensures SentAs(q, c)
  {
  }

  /** In every history the outbox holds exactly what was published, unchanged, under its key, and a
      publication is marked published exactly if its delivery was confirmed. */
  lemma {:induction false} OutboxIsPublished(cs: seq<Change>, id: string)
    requires Legal(cs)
    ensures StoredAs(After(cs), cs, id)
  {
    if cs != [] {
      LastStep(cs);
      var before, c := cs[..|cs| - 1], cs[|cs| - 1];
      OutboxIsPublished(before, id);
      hide Inv;
      hide WorkInv;
      hide Next;
      hide After;
      hide Legal;
      hide LegalChange;
      hide StoredAs;
      NextPublication(After(before), c, id);
      OutboxGrows(After(before), After(cs), before, c, id);
    }
  }
}
