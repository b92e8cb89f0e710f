/** What holds of the scheduler whenever its lock is free, and during dispatch. */
module SchedulerInvariant {
  import opened Scheduler

  predicate Ascending(queue: seq<nat>) {
    forall i, j :: 0 <= i < j < |queue| ==> queue[i] < queue[j]
  }

  predicate Distinct(list: seq<nat>) {
    forall i, j :: 0 <= i < j < |list| ==> list[i] != list[j]
  }

  /** A queued slot is still undecided and its channel is open. */
  predicate QueuedSlot(slots: seq<Slot>, b: nat, x: nat) {
    x < |slots| && slots[x].owner == b && !Resolved(slots[x]) && !slots[x].signaled && !slots[x].released
  }

  predicate ActiveSlot(slots: seq<Slot>, b: nat, x: nat) {
    x < |slots| && slots[x].owner == b && slots[x].granted && !slots[x].released
  }

  predicate CountsOk(l: Limiter) {
    && l.running == |l.active| && l.running <= l.max && 1 <= l.max
    && (l.closed ==> l.queue == [] && !l.ready)
    && (l.ready ==> l.running < l.max)
    && (!l.closed && l.queue != [] && l.running < l.max ==> l.ready)
    && (l.finished <==> l.closed && l.running == 0)
    && Ascending(l.queue)
  }

  predicate LimiterOk(s: State, b: nat)
    requires b < |s.limiters|
  {
    var l := s.limiters[b];
    && CountsOk(l)
    && (l.ready <==> b in s.ready)
    && (forall x :: x in l.queue ==> QueuedSlot(s.slots, b, x))
    && (forall x :: x in l.active ==> ActiveSlot(s.slots, b, x))
    && (!l.closed ==> l.id in s.bots && s.bots[l.id] == b)
    && (s.closed ==> l.closed)
  }

  predicate SlotOk(s: State, i: nat)
    requires i < |s.slots|
  {
    var slot := s.slots[i];
    && slot.owner < |s.limiters|
    && (slot.signaled ==> Resolved(slot)) && (slot.granted ==> slot.signaled && slot.err == NoError)
    && (slot.released ==> slot.granted)
    && (!Resolved(slot) ==> i in s.limiters[slot.owner].queue)
    && (slot.granted && !slot.released ==> i in s.limiters[slot.owner].active)
  }

  /** When a slot is granted, every earlier slot of its Bot has been decided. */
  predicate Fifo(slots: seq<Slot>) {
    forall x, y :: 0 <= x < y < |slots| && slots[x].owner == slots[y].owner && slots[y].granted ==> Resolved(slots[x])
  }

  function SumRunning(ls: seq<Limiter>): int {
    if ls == [] then 0 else ls[0].running + SumRunning(ls[1..])
  }

  lemma {:induction false} SumRunningUpdate(ls: seq<Limiter>, b: nat, l: Limiter)
    requires b < |ls|
    ensures SumRunning(ls[b := l]) == SumRunning(ls) - ls[b].running + l.running
  {
    if b > 0 {
      assert ls[b := l][1..] == ls[1..][b - 1 := l];
      SumRunningUpdate(ls[1..], b - 1, l);
    } else {
      assert ls[b := l][1..] == ls[1..];
    }
  }

  lemma {:induction false} SumRunningAppend(ls: seq<Limiter>, l: Limiter)
    ensures SumRunning(ls + [l]) == SumRunning(ls) + l.running
  {
    if ls != [] {
      assert (ls + [l])[1..] == ls[1..] + [l];
      SumRunningAppend(ls[1..], l);
    } else {
      assert ls + [l] == [l];
      assert SumRunning([l]) == l.running + SumRunning([]);
    }
  }

  predicate GlobalOk(s: State) {
    && s.running == SumRunning(s.limiters) && s.running <= s.max && 1 <= s.max
    && Distinct(s.ready) && (forall b :: b in s.ready ==> b < |s.limiters|)
    && (forall id :: id in s.bots ==> s.bots[id] < |s.limiters| && s.limiters[s.bots[id]].id == id)
    && (s.closed ==> s.ready == [])
  }

  /** Holds at every point of dispatch. */
  predicate Core(s: State) {
    && GlobalOk(s)
    && (forall b :: 0 <= b < |s.limiters| ==> LimiterOk(s, b))
    && (forall i :: 0 <= i < |s.slots| ==> SlotOk(s, i))
    && Fifo(s.slots)
  }

  predicate Bounded(s: State) {
    forall b :: 0 <= b < |s.limiters| ==> |s.limiters[b].queue| <= s.limiters[b].maxQueued
  }

  /** Holds whenever the lock is free: besides, queues are within bounds and nothing can dispatch. */
  predicate Settled(s: State) {
    Core(s) && Bounded(s) && !CanDispatch(s)
  }

  // ---- One limiter changes ----

  /** t differs from s in limiter b and slots owned by b only. */
  predicate OnlyBot(s: State, t: State, b: nat) {
    && b < |s.limiters| == |t.limiters| && |s.slots| <= |t.slots| && s.closed == t.closed
    && (forall c :: 0 <= c < |s.limiters| && c != b ==> t.limiters[c] == s.limiters[c] && (c in t.ready <==> c in s.ready))
    && (forall i :: 0 <= i < |s.slots| ==> t.slots[i].owner == s.slots[i].owner && (s.slots[i].owner != b ==> t.slots[i] == s.slots[i]))
    && (forall i :: |s.slots| <= i < |t.slots| ==> t.slots[i].owner == b)
    && (forall id :: id in s.bots && s.bots[id] != b ==> id in t.bots && t.bots[id] == s.bots[id])
  }

  lemma OtherLimiter(s: State, t: State, b: nat, c: nat)
    requires OnlyBot(s, t, b) && c != b && c < |s.limiters| && LimiterOk(s, c)
    ensures LimiterOk(t, c)
  {
    hide CountsOk;
    forall x | x in t.limiters[c].queue ensures QueuedSlot(t.slots, c, x) {
      assert QueuedSlot(s.slots, c, x);
    }
    forall x | x in t.limiters[c].active ensures ActiveSlot(t.slots, c, x) {
      assert ActiveSlot(s.slots, c, x);
    }
  }

  /** Assembling Core after a change to one limiter and its slots. */
  lemma CoreAfter(s: State, t: State, b: nat)
    requires Core(s) && OnlyBot(s, t, b) && GlobalOk(t) && LimiterOk(t, b) && Fifo(t.slots)
    requires forall i :: 0 <= i < |t.slots| && t.slots[i].owner == b ==> SlotOk(t, i)
    ensures Core(t)
  {
    hide GlobalOk;
    hide Fifo;
    forall c | 0 <= c < |t.limiters| ensures LimiterOk(t, c) {
      if c != b {
        OtherLimiter(s, t, b, c);
      }
    }
    forall i | 0 <= i < |t.slots| ensures SlotOk(t, i) {
      if t.slots[i].owner != b {
        assert SlotOk(s, i);
      }
    }
  }

  // ---- The parts of a turn ----

  lemma WithoutMember(list: seq<nat>, x: nat)
    ensures forall y :: y in Without(list, x) ==> y in list
    ensures forall y :: y in list && y != x ==> y in Without(list, x)
    ensures |Without(list, x)| <= |list|
  {
  }

  lemma {:induction false} WithoutKeepsOrder(list: seq<nat>, x: nat)
    requires Ascending(list)
    ensures Ascending(Without(list, x)) && x !in Without(list, x)
  {
    if list != [] {
      if list[0] == x {
        forall i | 0 <= i < |list[1..]| ensures list[1..][i] != x {
          assert list[1..][i] == list[i + 1];
        }
      } else {
        WithoutKeepsOrder(list[1..], x);
        WithoutMember(list[1..], x);
        var rest := Without(list[1..], x);
        forall j | 0 <= j < |rest| ensures list[0] < rest[j] {
          assert rest[j] in list[1..];
          var k :| 0 <= k < |list[1..]| && list[1..][k] == rest[j];
          assert list[k + 1] == rest[j];
        }
        assert Without(list, x) == [list[0]] + rest;
      }
    }
  }

  lemma {:induction false} WithoutKeepsDistinct(list: seq<nat>, x: nat)
    requires Distinct(list)
    ensures Distinct(Without(list, x)) && x !in Without(list, x)
  {
    if list != [] {
      if list[0] == x {
        forall i | 0 <= i < |list[1..]| ensures list[1..][i] != x {
          assert list[1..][i] == list[i + 1];
        }
      } else {
        WithoutKeepsDistinct(list[1..], x);
        WithoutMember(list[1..], x);
        var rest := Without(list[1..], x);
        forall j | 0 <= j < |rest| ensures list[0] != rest[j] {
          assert rest[j] in list[1..];
          var k :| 0 <= k < |list[1..]| && list[1..][k] == rest[j];
          assert list[k + 1] == rest[j];
        }
        assert Without(list, x) == [list[0]] + rest;
      }
    }
  }
}
