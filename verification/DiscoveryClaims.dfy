/** The replay memory of discovery (internal/discovery/service.go): claims are accepted inside a time
    window and remembered until they can no longer fall into it. Times are milliseconds. */
module DiscoveryClaims {
  const MAX_AGE := 120000
  const MAX_SKEW := 30000
  const PRUNE_EVERY := 1000
  const MAX_BOTS := 4096
  const MAX_MESSAGES := 16384

  datatype Claim = Claim(ts: int, expiresAt: int)

  datatype Key = Key(bot: string, id: string)

  datatype Memory = Memory(latest: map<string, Claim>, seen: map<Key, int>, nextPrune: int)

  /** A signed discovery message as both handlers judge it; `maxAge` is the announced lifetime or
      the whole window, and `now` the clock reading taken before the lock. */
  datatype Message = Message(bot: string, id: string, ts: int, maxAge: int, now: int)

  function Fresh(): Memory {
    Memory(map[], map[], 0)
  }

  predicate ValidTime(ts: int, now: int, maxAge: int) {
    ts > 0 && ts <= now + MAX_SKEW && ts >= now - maxAge
  }

  predicate ValidMessage(m: Message) {
    1 <= |m.id| <= 128 && 0 < m.maxAge <= MAX_AGE && ValidTime(m.ts, m.now, m.maxAge)
  }

  function Unexpired(m: Memory, now: int): Memory {
    m.(latest := map bot | bot in m.latest && m.latest[bot].expiresAt >= now :: m.latest[bot],
       seen := map key | key in m.seen && m.seen[key] >= now :: m.seen[key])
  }

  /** Forgets expired claims, at most once a second. */
  function Prune(m: Memory, now: int): Memory {
    if now < m.nextPrune then m else Unexpired(m, now).(nextPrune := now + PRUNE_EVERY)
  }

  /** The decision of acceptClaim, taken after pruning. */
  predicate Admits(m: Memory, bot: string, id: string, ts: int) {
    && Key(bot, id) !in m.seen && (bot in m.latest ==> ts > m.latest[bot].ts)
    && (bot in m.latest || |m.latest| < MAX_BOTS) && |m.seen| < MAX_MESSAGES
  }

  function Remember(m: Memory, bot: string, id: string, ts: int, now: int): Memory {
    var expiresAt := now + MAX_AGE + MAX_SKEW;
    m.(latest := m.latest[bot := Claim(ts, expiresAt)], seen := m.seen[Key(bot, id) := expiresAt])
  }

  function AcceptClaim(m: Memory, bot: string, id: string, ts: int, now: int): Memory {
    var p := Prune(m, now);
    if Admits(p, bot, id, ts) then Remember(p, bot, id, ts, now) else p
  }

  datatype Event = Receive(message: Message) | Collect(now: int)

  /** The memory together with every claim it ever accepted. */
  datatype Record = Record(memory: Memory, accepted: seq<Message>)

  predicate Accepts(m: Memory, msg: Message) {
    ValidMessage(msg) && Admits(Prune(m, msg.now), msg.bot, msg.id, msg.ts)
  }

  function Step(r: Record, e: Event): Record {
    match e
    case Receive(msg) =>
      if !ValidMessage(msg) then r
      else Record(AcceptClaim(r.memory, msg.bot, msg.id, msg.ts, msg.now),
                  if Accepts(r.memory, msg) then r.accepted + [msg] else r.accepted)
    case Collect(now) => r.(memory := Prune(r.memory, now))
  }

  function Play(events: seq<Event>): Record {
    if events == [] then Record(Fresh(), [])
    else Step(Play(events[..|events| - 1]), events[|events| - 1])
  }

  // ---- When forgetting is safe ----

  /** The clock reading of the last prune that took place. */
  function Horizon(m: Memory): int {
    m.nextPrune - PRUNE_EVERY
  }

  /** No message is judged by a clock reading older than the last prune. */
  predicate InOrder(events: seq<Event>) {
    events != [] ==>
      && InOrder(events[..|events| - 1])
      && var e := events[|events| - 1];
         (e.Receive? ==> e.message.now >= Horizon(Play(events[..|events| - 1]).memory))
  }

  predicate Covered(m: Memory, a: Message) {
    (a.bot in m.latest && m.latest[a.bot].ts >= a.ts) || a.ts < Horizon(m) - MAX_AGE
  }

  predicate KeyCovered(m: Memory, a: Message) {
    Key(a.bot, a.id) in m.seen || a.ts < Horizon(m) - MAX_AGE
  }

  predicate AllCovered(r: Record) {
    forall i :: 0 <= i < |r.accepted| ==> Covered(r.memory, r.accepted[i]) && KeyCovered(r.memory, r.accepted[i])
  }

  /** An entry is kept for one window, future skew included, after the message was judged. */
  predicate KeptFor(a: Message, expiresAt: int) {
    expiresAt == a.now + 150000
  }

  /** What the memory holds is the claim of an accepted message, for one window. */
  predicate Backed(accepted: seq<Message>, bot: string, c: Claim) {
    exists i :: 0 <= i < |accepted| && accepted[i].bot == bot && accepted[i].ts == c.ts && KeptFor(accepted[i], c.expiresAt)
  }

  predicate KeyBacked(accepted: seq<Message>, key: Key, expiresAt: int) {
    exists i :: 0 <= i < |accepted| && Key(accepted[i].bot, accepted[i].id) == key && KeptFor(accepted[i], expiresAt)
  }

  /** An entry outlives every clock reading at which its claim would still be in the window. */
  predicate ClaimsOk(r: Record) {
    forall bot :: bot in r.memory.latest ==>
      r.memory.latest[bot].expiresAt >= r.memory.latest[bot].ts + MAX_AGE && Backed(r.accepted, bot, r.memory.latest[bot])
  }

  predicate KeyExpires(r: Record, a: Message) {
    Key(a.bot, a.id) in r.memory.seen ==> r.memory.seen[Key(a.bot, a.id)] >= a.ts + MAX_AGE || a.ts < Horizon(r.memory) - MAX_AGE
  }

  predicate KeysOk(r: Record) {
    && (forall key :: key in r.memory.seen ==> KeyBacked(r.accepted, key, r.memory.seen[key]))
    && (forall i :: 0 <= i < |r.accepted| ==> KeyExpires(r, r.accepted[i]))
  }

  predicate Inv(r: Record) {
    AllCovered(r) && ClaimsOk(r) && KeysOk(r)
  }

  lemma PruneKeeps(r: Record, now: int)
    requires Inv(r)
    ensures Inv(r.(memory := Prune(r.memory, now)))
  {
    var p := Prune(r.memory, now);
    forall i | 0 <= i < |r.accepted| ensures Covered(p, r.accepted[i]) && KeyCovered(p, r.accepted[i]) && KeyExpires(r.(memory := p), r.accepted[i]) {
      assert Covered(r.memory, r.accepted[i]) && KeyCovered(r.memory, r.accepted[i]) && KeyExpires(r, r.accepted[i]);
    }
  }

  /** An admitted claim is newer than everything ever accepted from the Bot: what was forgotten is
      outside the window. */
  lemma AdmittedIsNewest(r: Record, msg: Message)
    requires Inv(r) && ValidMessage(msg) && msg.now >= Horizon(r.memory) && Accepts(r.memory, msg)
    ensures forall i :: 0 <= i < |r.accepted| && r.accepted[i].bot == msg.bot ==> r.accepted[i].ts < msg.ts
  {
    PruneKeeps(r, msg.now);
    var p := Prune(r.memory, msg.now);
    forall i | 0 <= i < |r.accepted| && r.accepted[i].bot == msg.bot ensures r.accepted[i].ts < msg.ts {
      assert Covered(p, r.accepted[i]);
    }
  }

  lemma BackedGrows(accepted: seq<Message>, msg: Message, bot: string, c: Claim, key: Key, expiresAt: int)
    ensures Backed(accepted, bot, c) ==> Backed(accepted + [msg], bot, c)
    ensures KeyBacked(accepted, key, expiresAt) ==> KeyBacked(accepted + [msg], key, expiresAt)
    ensures Backed(accepted + [msg], msg.bot, Claim(msg.ts, msg.now + 150000))
    ensures KeyBacked(accepted + [msg], Key(msg.bot, msg.id), msg.now + 150000)
  {
    var more := accepted + [msg];
    assert more[|accepted|] == msg;
    if Backed(accepted, bot, c) {
      var i :| 0 <= i < |accepted| && accepted[i].bot == bot && accepted[i].ts == c.ts && KeptFor(accepted[i], c.expiresAt);
      assert more[i] == accepted[i];
    }
    if KeyBacked(accepted, key, expiresAt) {
      var i :| 0 <= i < |accepted| && Key(accepted[i].bot, accepted[i].id) == key && KeptFor(accepted[i], expiresAt);
      assert more[i] == accepted[i];
    }
  }

  lemma RememberCovers(r: Record, msg: Message)
    requires AllCovered(r) && KeysOk(r) && ValidMessage(msg) && Admits(r.memory, msg.bot, msg.id, msg.ts)
    ensures var t := Record(Remember(r.memory, msg.bot, msg.id, msg.ts, msg.now), r.accepted + [msg]);
            AllCovered(t) && forall i :: 0 <= i < |t.accepted| ==> KeyExpires(t, t.accepted[i])
  {
    var t := Record(Remember(r.memory, msg.bot, msg.id, msg.ts, msg.now), r.accepted + [msg]);
    forall i | 0 <= i < |t.accepted|
      ensures Covered(t.memory, t.accepted[i]) && KeyCovered(t.memory, t.accepted[i]) && KeyExpires(t, t.accepted[i])
    {
      if i < |r.accepted| {
        assert Covered(r.memory, r.accepted[i]) && KeyCovered(r.memory, r.accepted[i]) && KeyExpires(r, r.accepted[i]);
      }
    }
  }

  lemma RememberKeeps(r: Record, msg: Message)
    requires Inv(r) && ValidMessage(msg) && Admits(r.memory, msg.bot, msg.id, msg.ts)
    ensures Inv(Record(Remember(r.memory, msg.bot, msg.id, msg.ts, msg.now), r.accepted + [msg]))
  {
    hide AllCovered;
    hide KeyExpires;
    hide KeyBacked;
    hide Admits;
    hide ClaimsOk;
    hide Remember;
    RememberCovers(r, msg);
    RememberClaims(r, msg);
    RememberKeys(r, msg);
  }

  lemma RememberClaims(r: Record, msg: Message)
    requires ClaimsOk(r) && ValidMessage(msg)
    ensures ClaimsOk(Record(Remember(r.memory, msg.bot, msg.id, msg.ts, msg.now), r.accepted + [msg]))
  {
    hide Backed;
    var t := Record(Remember(r.memory, msg.bot, msg.id, msg.ts, msg.now), r.accepted + [msg]);
    forall bot | bot in t.memory.latest
      ensures t.memory.latest[bot].expiresAt >= t.memory.latest[bot].ts + MAX_AGE && Backed(t.accepted, bot, t.memory.latest[bot])
    {
      BackedGrows(r.accepted, msg, bot, t.memory.latest[bot], Key("", ""), 0);
    }
  }

  lemma RememberKeys(r: Record, msg: Message)
    requires forall key :: key in r.memory.seen ==> KeyBacked(r.accepted, key, r.memory.seen[key])
    ensures var t := Record(Remember(r.memory, msg.bot, msg.id, msg.ts, msg.now), r.accepted + [msg]);
            forall key :: key in t.memory.seen ==> KeyBacked(t.accepted, key, t.memory.seen[key])
  {
    hide KeyBacked;
    var t := Record(Remember(r.memory, msg.bot, msg.id, msg.ts, msg.now), r.accepted + [msg]);
    forall key | key in t.memory.seen ensures KeyBacked(t.accepted, key, t.memory.seen[key]) {
      BackedGrows(r.accepted, msg, "", Claim(0, 0), key, t.memory.seen[key]);
    }
  }

  lemma StepKeeps(r: Record, e: Event)
    requires Inv(r)
    ensures Inv(Step(r, e))
  {
    hide Inv;
    match e
    case Receive(msg) =>
      PruneKeeps(r, msg.now);
      if Accepts(r.memory, msg) {
        RememberKeeps(r.(memory := Prune(r.memory, msg.now)), msg);
      }
    case Collect(now) => PruneKeeps(r, now);
  }

  lemma {:induction false} PlayKeeps(events: seq<Event>)
    ensures Inv(Play(events))
  {
    if events != [] {
      PlayKeeps(events[..|events| - 1]);
      hide Inv;
      StepKeeps(Play(events[..|events| - 1]), events[|events| - 1]);
    }
  }

  // ---- What is remembered, and for how long ----

  /** A prune that is due forgets exactly what has expired and is due again a second later; any other
      changes nothing. */
  lemma PruneEffect(m: Memory, now: int)
    ensures var p := Prune(m, now);
            if now < m.nextPrune then p == m
            else
              && p.nextPrune == now + 1000
              && (forall bot :: bot in p.latest <==> bot in m.latest && m.latest[bot].expiresAt >= now)
              && (forall bot :: bot in p.latest ==> p.latest[bot] == m.latest[bot])
              && (forall key :: key in p.seen <==> key in m.seen && m.seen[key] >= now)
              && (forall key :: key in p.seen ==> p.seen[key] == m.seen[key])
  {
  }

  /** A claim is accepted exactly if, among what is then still remembered, its ID is not there, its Bot
      has no newer one, and there is room; then it is remembered for one window, and nothing else
      changes. */
  lemma ClaimEffect(m: Memory, bot: string, id: string, ts: int, now: int)
    ensures var p, t, key := Prune(m, now), AcceptClaim(m, bot, id, ts, now), Key(bot, id);
            if key !in p.seen && (if bot in p.latest then ts > p.latest[bot].ts else |p.latest| < 4096) && |p.seen| < 16384 then
              && t.latest == p.latest[bot := Claim(ts, now + 150000)] && t.seen == p.seen[key := now + 150000] && t.nextPrune == p.nextPrune
            else t == p
  {
  }

  /** Nothing is remembered beyond its window: after a prune that was due, every entry belongs to a
      message that was accepted no more than one window ago. */
  lemma NothingStale(events: seq<Event>, now: int)
    requires now >= Play(events).memory.nextPrune
    ensures var r := Play(events + [Collect(now)]);
            && r.accepted == Play(events).accepted
            && (forall bot :: bot in r.memory.latest ==>
                  exists i :: && 0 <= i < |r.accepted| && r.accepted[i].bot == bot && r.accepted[i].ts == r.memory.latest[bot].ts
                              && now <= r.accepted[i].now + 150000)
            && (forall key :: key in r.memory.seen ==>
                  exists i :: && 0 <= i < |r.accepted| && Key(r.accepted[i].bot, r.accepted[i].id) == key
                              && now <= r.accepted[i].now + 150000)
  {
    assert (events + [Collect(now)])[..|events|] == events;
    PlayKeeps(events + [Collect(now)]);
    var r := Play(events + [Collect(now)]);
    PruneEffect(Play(events).memory, now);
    hide AllCovered;
    hide KeyExpires;
    hide Play;
    forall bot | bot in r.memory.latest
      ensures exists i :: && 0 <= i < |r.accepted| && r.accepted[i].bot == bot && r.accepted[i].ts == r.memory.latest[bot].ts
                          && now <= r.accepted[i].now + 150000
    {
      assert Backed(r.accepted, bot, r.memory.latest[bot]);
    }
    forall key | key in r.memory.seen
      ensures exists i :: && 0 <= i < |r.accepted| && Key(r.accepted[i].bot, r.accepted[i].id) == key && now <= r.accepted[i].now + 150000
    {
      assert KeyBacked(r.accepted, key, r.memory.seen[key]);
    }
  }

  // ---- Theorems ----

  predicate StrictlyIncreasing(accepted: seq<Message>) {
    forall i, j :: 0 <= i < j < |accepted| && accepted[i].bot == accepted[j].bot ==> accepted[i].ts < accepted[j].ts
  }

  /** Forgetting is safe: over the whole life of the process the accepted timestamps of each Bot
      increase strictly, so no claim is accepted twice, even after it was forgotten. */
  lemma {:induction false} TimestampsIncrease(events: seq<Event>)
    requires InOrder(events)
    ensures StrictlyIncreasing(Play(events).accepted)
  {
    if events != [] {
      var front := events[..|events| - 1];
      var e := events[|events| - 1];
      TimestampsIncrease(front);
      PlayKeeps(front);
      if e.Receive? && Accepts(Play(front).memory, e.message) {
        AdmittedIsNewest(Play(front), e.message);
      }
      hide Inv;
      hide Accepts;
      hide AcceptClaim;
    }
  }

  function Clock(e: Event): int {
    match e
    case Receive(msg) => msg.now
    case Collect(now) => now
  }

  predicate ClocksAscend(events: seq<Event>) {
    forall i, j :: 0 <= i < j < |events| ==> Clock(events[i]) <= Clock(events[j])
  }

  lemma {:induction false} HorizonIsReached(events: seq<Event>, now: int)
    requires (forall i :: 0 <= i < |events| ==> Clock(events[i]) <= now) && now >= 0
    ensures Horizon(Play(events).memory) <= now
  {
    if events != [] {
      HorizonIsReached(events[..|events| - 1], now);
    }
  }

  /** Non-decreasing clock readings in the order of the lock are in order. */
  lemma {:induction false} AscendingIsInOrder(events: seq<Event>)
    requires ClocksAscend(events) && forall i :: 0 <= i < |events| ==> Clock(events[i]) >= 0
    ensures InOrder(events)
  {
    if events != [] {
      AscendingIsInOrder(events[..|events| - 1]);
      HorizonIsReached(events[..|events| - 1], Clock(events[|events| - 1]));
    }
  }

  /** The decision is the one that remembering everything would give: a valid message is accepted
      exactly if it is newer than every claim ever accepted from its Bot, its ID is not remembered,
      and the tables have room. Only IDs that were accepted are remembered, and an accepted ID that
      is no longer remembered belongs to a claim outside the window. */
  lemma DecidesByHistory(events: seq<Event>, msg: Message)
    requires ValidMessage(msg) && msg.now >= Horizon(Play(events).memory)
    ensures var r := Play(events);
            var p := Prune(r.memory, msg.now);
            && (Accepts(r.memory, msg) <==>
                  && (forall i :: 0 <= i < |r.accepted| && r.accepted[i].bot == msg.bot ==> r.accepted[i].ts < msg.ts)
                  && Key(msg.bot, msg.id) !in p.seen && (msg.bot in p.latest || |p.latest| < MAX_BOTS) && |p.seen| < MAX_MESSAGES)
            && (forall key :: key in p.seen ==> KeyBacked(r.accepted, key, p.seen[key]))
            && (forall i :: 0 <= i < |r.accepted| && Key(r.accepted[i].bot, r.accepted[i].id) !in p.seen ==>
                  r.accepted[i].ts < Horizon(p) - MAX_AGE)
  {
    PlayKeeps(events);
    var r := Play(events);
    PruneKeeps(r, msg.now);
    var p := Prune(r.memory, msg.now);
    if Accepts(r.memory, msg) {
      AdmittedIsNewest(r, msg);
    }
    if msg.bot in p.latest {
      assert Backed(r.accepted, msg.bot, p.latest[msg.bot]);
    }
    forall i | 0 <= i < |r.accepted| ensures KeyCovered(p, r.accepted[i]) {
    }
    hide Play;
  }

  predicate WithinCaps(m: Memory) {
    |m.latest| <= MAX_BOTS && |m.seen| <= MAX_MESSAGES
  }

  lemma {:induction false} SubsetSize<K>(a: set<K>, b: set<K>)
    requires a <= b
    ensures |a| <= |b|
  {
    if a != {} {
      var x :| x in a;
      SubsetSize(a - {x}, b - {x});
    }
  }

  lemma PruneShrinks(m: Memory, now: int)
    ensures |Prune(m, now).latest| <= |m.latest| && |Prune(m, now).seen| <= |m.seen|
  {
    SubsetSize(Prune(m, now).latest.Keys, m.latest.Keys);
    SubsetSize(Prune(m, now).seen.Keys, m.seen.Keys);
  }

  lemma InsertSize<K, V>(m: map<K, V>, k: K, v: V)
    ensures |m[k := v]| == |m| + (if k in m then 0 else 1)
  {
    assert m[k := v].Keys == m.Keys + {k};
  }

  /** The tables never exceed their caps, whatever the clocks say. */
  lemma {:induction false} TablesAreBounded(events: seq<Event>)
    ensures WithinCaps(Play(events).memory)
  {
    if events != [] {
      TablesAreBounded(events[..|events| - 1]);
      var m := Play(events[..|events| - 1]).memory;
      var e := events[|events| - 1];
      PruneShrinks(m, Clock(e));
      if e.Receive? {
        var p := Prune(m, Clock(e));
        var expiresAt := e.message.now + MAX_AGE + MAX_SKEW;
        InsertSize(p.latest, e.message.bot, Claim(e.message.ts, expiresAt));
        InsertSize(p.seen, Key(e.message.bot, e.message.id), expiresAt);
      }
      hide Prune;
    }
  }

  // ---- Restarts ----

  lemma {:induction false} AcceptedAreValid(events: seq<Event>, i: nat)
    requires i < |Play(events).accepted|
    ensures ValidMessage(Play(events).accepted[i])
  {
    if i < |Play(events[..|events| - 1]).accepted| {
      AcceptedAreValid(events[..|events| - 1], i);
    }
    hide AcceptClaim;
    hide Admits;
    hide Prune;
  }

  /** The memory is lost with the process. A claim of an earlier lifetime is accepted again right
      after a restart exactly if it is still in its window, and later in the new lifetime, after any
      events, exactly if besides it is newer than what was accepted since the restart, its ID is not
      remembered and there is room. That cannot be later than one window after it was first accepted. */
  lemma RestartReopensWindow(events: seq<Event>, i: nat, more: seq<Event>, now: int)
    requires i < |Play(events).accepted|
    ensures var m := Play(events).accepted[i];
            var again, r := m.(now := now), Play(more);
            var p := Prune(r.memory, now);
            && (Accepts(Fresh(), again) <==> ValidTime(m.ts, now, m.maxAge))
            && (now >= Horizon(r.memory) ==>
                  (Accepts(r.memory, again) <==>
                    && ValidTime(m.ts, now, m.maxAge)
                    && (forall j :: 0 <= j < |r.accepted| && r.accepted[j].bot == m.bot ==> r.accepted[j].ts < m.ts)
                    && Key(m.bot, m.id) !in p.seen && (m.bot in p.latest || |p.latest| < MAX_BOTS) && |p.seen| < MAX_MESSAGES))
            && (ValidTime(m.ts, now, m.maxAge) ==> now <= m.now + MAX_AGE + MAX_SKEW)
  {
    AcceptedAreValid(events, i);
    var m := Play(events).accepted[i];
    hide Play;
    if now >= Horizon(Play(more).memory) && ValidTime(m.ts, now, m.maxAge) {
      DecidesByHistory(more, m.(now := now));
    }
  }

  // ---- Exactly when forgetting is safe ----

  /** Some run leads to this horizon and to a message that is accepted although the very same claim
      was accepted before. */
  ghost predicate Repeats(horizon: int, now: int) {
    exists events: seq<Event>, msg: Message :: RepeatsAfter(events, msg, horizon, now)
  }

  predicate RepeatsAfter(events: seq<Event>, msg: Message, horizon: int, now: int) {
    var r := Play(events);
    && InOrder(events) && Horizon(r.memory) == horizon && msg.now == now && Accepts(r.memory, msg)
    && exists i :: 0 <= i < |r.accepted| && r.accepted[i].bot == msg.bot && r.accepted[i].id == msg.id && r.accepted[i].ts == msg.ts
  }

  /** A claim accepted at `then`, forgotten at `horizon` and still in the window at `now`. */
  lemma ForgottenRun(accepted: int, ts: int, horizon: int, now: int)
    requires 0 < ts && accepted >= 0 && ValidTime(ts, accepted, MAX_AGE) && ValidTime(ts, now, MAX_AGE)
    requires accepted + MAX_AGE + MAX_SKEW < horizon && now < horizon
    ensures Repeats(horizon, now)
  {
    var first := Message("bot", "id", ts, MAX_AGE, accepted);
    var events := [Receive(first), Collect(horizon)];
    var one := [Receive(first)];
    assert events[..1] == one && one[..0] == [];
    var m := Memory(map["bot" := Claim(ts, accepted + MAX_AGE + MAX_SKEW)], map[Key("bot", "id") := accepted + MAX_AGE + MAX_SKEW], accepted + PRUNE_EVERY);
    assert Play([]) == Record(Fresh(), []);
    assert Prune(Fresh(), accepted) == Memory(map[], map[], accepted + PRUNE_EVERY);
    assert Play(one) == Record(m, [first]);
    assert Prune(m, horizon) == Memory(map[], map[], horizon + PRUNE_EVERY);
    assert Play(events) == Record(Memory(map[], map[], horizon + PRUNE_EVERY), [first]);
    var again := first.(now := now);
    assert Accepts(Play(events).memory, again);
    assert InOrder([]) && Horizon(Play([]).memory) == -PRUNE_EVERY;
    assert InOrder(one);
    assert InOrder(events);
    assert Play(events).accepted[0] == first;
    assert RepeatsAfter(events, again, horizon, now);
  }

  /** The condition is exact: a claim can be accepted a second time at clock reading `now` if and
      only if `now` lies before the last prune. (The horizon is taken to be later than one window
      after the epoch, as it is for any real clock.) */
  lemma SafeExactlyInOrder(horizon: int, now: int)
    requires now > 0 && horizon > MAX_AGE + MAX_SKEW + 1
    ensures Repeats(horizon, now) <==> now < horizon
  {
    if now < horizon {
      if now >= horizon - MAX_AGE - MAX_SKEW - 1 {
        ForgottenRun(horizon - MAX_AGE - MAX_SKEW - 1, horizon - MAX_AGE - 1, horizon, now);
      } else {
        ForgottenRun(now, now, horizon, now);
      }
    } else if Repeats(horizon, now) {
      var events, msg :| RepeatsAfter(events, msg, horizon, now);
      PlayKeeps(events);
      AdmittedIsNewest(Play(events), msg);
      assert false;
    }
  }
}
