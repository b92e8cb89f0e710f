/** The discovery service's tables and publishing clock as fields that its handlers update. */
module DiscoveryServices {
  import opened DiscoveryClaims

  class DiscoveryService {
    var latest: map<string, Claim>
    var seen: map<Key, int>
    var nextPruneMs: int
    var lastPublishedTs: int

    ghost function View(): Memory
      reads this
    {
      Memory(latest, seen, nextPruneMs)
    }

    constructor ()
      ensures View() == Fresh() && lastPublishedTs == 0
    {
      latest, seen, nextPruneMs, lastPublishedTs := map[], map[], 0, 0;
    }

    method PruneClaims(now: int)
      modifies `latest, `seen, `nextPruneMs
      ensures View() == Prune(old(View()), now)
      ensures if now < old(nextPruneMs) then View() == old(View())
              else
                && nextPruneMs == now + 1000
                && latest == (map bot | bot in old(latest) && old(latest)[bot].expiresAt >= now :: old(latest)[bot])
                && seen == (map key | key in old(seen) && old(seen)[key] >= now :: old(seen)[key])
    {
      if now < nextPruneMs {
        return;
      }
      nextPruneMs := now + PRUNE_EVERY;
      PruneBots(now);
      PruneMessages(now);
    }

    method PruneBots(now: int)
      modifies `latest
      ensures latest == map bot | bot in old(latest) && old(latest)[bot].expiresAt >= now :: old(latest)[bot]
    {
      var bots := latest.Keys;
      while bots != {}
        invariant bots <= old(latest).Keys
        invariant latest == map bot | bot in old(latest) && (bot in bots || old(latest)[bot].expiresAt >= now) :: old(latest)[bot]
        decreases bots
      {
        var bot :| bot in bots;
        if latest[bot].expiresAt < now {
          latest := latest - {bot};
        }
        bots := bots - {bot};
      }
    }

    method PruneMessages(now: int)
      modifies `seen
      ensures seen == map key | key in old(seen) && old(seen)[key] >= now :: old(seen)[key]
    {
      var keys := seen.Keys;
      while keys != {}
        invariant keys <= old(seen).Keys
        invariant seen == map key | key in old(seen) && (key in keys || old(seen)[key] >= now) :: old(seen)[key]
        decreases keys
      {
        var key :| key in keys;
        if seen[key] < now {
          seen := seen - {key};
        }
        keys := keys - {key};
      }
    }

    method AcceptClaim(bot: string, id: string, ts: int, now: int) returns (accepted: bool)
      modifies `latest, `seen, `nextPruneMs
      ensures View() == DiscoveryClaims.AcceptClaim(old(View()), bot, id, ts, now)
      ensures accepted == Admits(Prune(old(View()), now), bot, id, ts)
      ensures var p := Prune(old(View()), now);
              if accepted then
                && Key(bot, id) !in p.seen && (bot in p.latest ==> ts > p.latest[bot].ts)
                && latest == p.latest[bot := Claim(ts, now + 150000)] && seen == p.seen[Key(bot, id) := now + 150000]
              else View() == p
    {
      PruneClaims(now);
      var key := Key(bot, id);
      if key in seen {
        return false;
      }
      if bot in latest && ts <= latest[bot].ts {
        return false;
      }
      if (bot !in latest && |latest| >= MAX_BOTS) || |seen| >= MAX_MESSAGES {
        return false;
      }
      var expiresAt := now + MAX_AGE + MAX_SKEW;
      latest := latest[bot := Claim(ts, expiresAt)];
      seen := seen[key := expiresAt];
      accepted := true;
    }

    /** The window check and the claim of both handlers; the clock was read before the lock.
        `genuine` is the verdict of the other checks: form and sender, the key of the known peer, and
        the signature. A message that fails any check leaves the memory as it is. */
    method Handle(m: Message, genuine: bool) returns (accepted: bool)
      modifies `latest, `seen, `nextPruneMs
      ensures accepted == (genuine && Accepts(old(View()), m))
      ensures accepted <==> && genuine && 1 <= |m.id| <= 128 && 0 < m.maxAge <= 120000
                            && m.ts > 0 && m.now - m.maxAge <= m.ts <= m.now + 30000
                            && Admits(Prune(old(View()), m.now), m.bot, m.id, m.ts)
      ensures !genuine || !ValidMessage(m) ==> View() == old(View())
      ensures genuine ==> forall log :: Record(View(), if accepted then log + [m] else log) == Step(Record(old(View()), log), Receive(m))
    {
      if |m.id| == 0 || |m.id| > 128 || m.maxAge <= 0 || m.maxAge > MAX_AGE || !ValidTime(m.ts, m.now, m.maxAge) {
        return false;
      }
      if !genuine {
        return false;
      }
      accepted := AcceptClaim(m.bot, m.id, m.ts, m.now);
    }

    /** Publishing timestamps increase strictly whatever the clock does, and stay as close to it as
        that allows. */
    method NextTimestamp(now: int) returns (ts: int)
      modifies `lastPublishedTs
      ensures lastPublishedTs == ts && ts > old(lastPublishedTs) && ts >= now
      ensures ts == now || ts == old(lastPublishedTs) + 1
    {
      ts := now;
      if ts <= lastPublishedTs {
        ts := lastPublishedTs + 1;
      }
      lastPublishedTs := ts;
    }
  }
}
