/** Sliding-window rate limiting, keyed by sender, with a bounded number of keys. */
module RateLimit {
  import opened Collections
  import opened Wrappers

  type Time = real

  type Hits = map<string, seq<Time>>

  /** What happens to a key: it spends a slot, asked or not; it is refused one; it is forgotten to make room. */
  datatype Event =
    | Spent(key: string, at: Time, asked: bool)
    | Refused(key: string, at: Time)
    | Forgotten(key: string, at: Time)

  /** One slot spent. */
  datatype Hit = Hit(at: Time, asked: bool)

  /** Every slot a key spent since it was last forgotten. Dropping a key that is merely stale forgets nothing. */
  function LogOf(events: seq<Event>, key: string): seq<Hit> {
    if events == [] then []
    else
      var e, before := events[|events|-1], LogOf(events[..|events|-1], key);
      if e.key != key || e.Refused? then before else if e.Spent? then before + [Hit(e.at, e.asked)] else []
  }

  /** Events come in order, and every one that was asked for a whole window after the one `limit` places before it. */
  predicate Spaced(hits: seq<Hit>, limit: nat, window: real) {
    && (forall i, k :: 0 <= i < k < |hits| ==> hits[i].at <= hits[k].at)
    && (forall k :: limit <= k < |hits| && hits[k].asked ==> hits[k].at - hits[k - limit].at >= window)
    && (limit == 0 ==> forall k :: 0 <= k < |hits| ==> !hits[k].asked)
  }

  /** `kept` is what is left of `hits` after dropping some that are older than `bound`. */
  predicate Keeps(hits: seq<Hit>, kept: seq<Time>, bound: Time) {
    && |kept| <= |hits|
    && (forall i :: 0 <= i < |kept| ==> kept[i] == hits[|hits| - |kept| + i].at)
    && (forall i :: 0 <= i < |hits| - |kept| ==> hits[i].at <= bound)
  }

  predicate Remembered(hits: seq<Hit>, kept: seq<Time>, limit: nat, window: real, clock: Time) {
    && Spaced(hits, limit, window) && Keeps(hits, kept, clock - window)
    && forall i :: 0 <= i < |hits| ==> hits[i].at <= clock
  }

  /** A key that is not in the table has no recent events. */
  function KeptOf(hits: Hits, key: string): seq<Time> { if key in hits then hits[key] else [] }

  ghost predicate AllRemembered(hits: Hits, events: seq<Event>, limit: nat, window: real, clock: Time) {
    forall key :: Remembered(LogOf(events, key), KeptOf(hits, key), limit, window, clock)
  }

  predicate Stale(kept: seq<Time>, bound: Time) { kept == [] || kept[|kept|-1] <= bound }

  predicate Recent(kept: seq<Time>, bound: Time) { forall i :: 0 <= i < |kept| ==> kept[i] > bound }

  /** No room, and no key without recent activity. */
  ghost predicate Full(hits: Hits, maxKeys: nat, bound: Time) {
    |hits| >= maxKeys && forall k :: k in hits ==> !Stale(hits[k], bound)
  }

  predicate IsOldest(hits: Hits, oldest: string) {
    && oldest in hits && hits[oldest] != []
    && forall k :: k in hits ==> hits[k] != [] && hits[oldest][|hits[oldest]|-1] <= hits[k][|hits[k]|-1]
  }

  /** What is left of the other keys is as it was; those that left were stale, or the one that was dropped. */
  ghost predicate OthersKept(hits: Hits, after: Hits, key: string, bound: Time, dropped: Option<string>) {
    && (forall k :: k in after && k != key ==> k in hits && after[k] == hits[k])
    && (forall k :: k in hits && k != key && !Stale(hits[k], bound) && dropped != Some(k) ==> k in after)
  }

  /** At most one key is forgotten, only when there is no room and none is stale, and then the oldest. */
  ghost predicate Dropped(hits: Hits, maxKeys: nat, bound: Time, dropped: Option<string>) {
    if dropped.Some? then Full(hits, maxKeys, bound) && IsOldest(hits, dropped.value) else !Full(hits, maxKeys, bound)
  }

  function DropEvents(dropped: Option<string>, now: Time): seq<Event> {
    if dropped.Some? then [Forgotten(dropped.value, now)] else []
  }

  class RateLimiter {
    const limit: nat
    const window: real
    const maxKeys: nat
    var hits: Hits
    var clock: Time
    ghost var events: seq<Event>

    constructor (limit: nat, window: real, maxKeys: nat, now: Time)
      requires maxKeys >= 1 && window >= 0.0
      ensures Valid() && hits == map[] && clock == now && events == []
      ensures this.limit == limit && this.window == window && this.maxKeys == maxKeys
    {
      this.limit, this.window, this.maxKeys := limit, window, maxKeys;
      hits, clock, events := map[], now, [];
    }

    ghost predicate Valid()
      reads this
    {
      && maxKeys >= 1 && window >= 0.0 && |hits| <= maxKeys
      && AllRemembered(hits, events, limit, window, clock)
      && Safe(events, limit, window, maxKeys)
    }

    /** What a question leaves behind: only recent events, and room for the key unless it has none. */
    ghost predicate Prepared(key: string, now: Time)
      reads this
    {
      key in hits && clock == now && Recent(hits[key], now - window) && (hits[key] == [] || |hits| < maxKeys)
    }

    method Allow(key: string, now: Time, later: Time) returns (allowed: bool, ghost dropped: Option<string>)
      requires Valid() && clock <= now <= later
      modifies this
      ensures Valid() && clock == later
      ensures Dropped(old(hits), maxKeys, now - window, dropped)
      ensures OthersKept(old(hits), hits, key, now - window, dropped)
      ensures events == old(events) + DropEvents(dropped, now)
                        + [if allowed then Spent(key, later, true) else Refused(key, now)]
      ensures !allowed ==> key in hits && |hits[key]| >= limit && Recent(hits[key], now - window)
      ensures old(Prepared(key, now)) ==> allowed == (|old(hits)[key]| < limit)
    {
      hide AllRemembered, Recent, OthersKept, Safe, Dropped;
      var recent;
      recent, dropped := Prepare(key, now);
      clock := later;
      if |recent| >= limit {
        MayRefuse(hits, events, limit, window, now, key, maxKeys);
        Extend(events, limit, window, maxKeys, Refused(key, now));
        RefusedStillRemembered(hits, events, limit, window, now, later, key);
        events := events + [Refused(key, now)];
        return false, dropped;
      }
      MaySpend(hits, events, limit, window, now, later, key, true, maxKeys);
      Extend(events, limit, window, maxKeys, Spent(key, later, true));
      SpentStillRemembered(hits, events, limit, window, now, later, key, true);
      SameKeyKept(old(hits), hits, key, now - window, dropped, recent + [later]);
      SameSize(hits, key, recent + [later]);
      hits := hits[key := recent + [later]];
      events := events + [Spent(key, later, true)];
      return true, dropped;
    }

    /** True when `Allow` would say yes. Spends nothing. */
    method WouldAllow(key: string, now: Time) returns (would: bool, ghost dropped: Option<string>)
      requires Valid() && clock <= now
      modifies this
      ensures Valid() && Prepared(key, now) && would == (|hits[key]| < limit)
      ensures Dropped(old(hits), maxKeys, now - window, dropped)
      ensures OthersKept(old(hits), hits, key, now - window, dropped)
      ensures events == old(events) + DropEvents(dropped, now)
    {
      hide AllRemembered, Recent, OthersKept, Safe, Dropped;
      var recent;
      recent, dropped := Prepare(key, now);
      return |recent| < limit, dropped;
    }

    /** Spend one slot after a successful send. Does not refuse. */
    method Record(key: string, now: Time, later: Time) returns (ghost dropped: Option<string>)
      requires Valid() && clock <= now <= later
      modifies this
      ensures Valid() && clock == later
      ensures Dropped(old(hits), maxKeys, now - window, dropped)
      ensures OthersKept(old(hits), hits, key, now - window, dropped)
      ensures events == old(events) + DropEvents(dropped, now) + [Spent(key, later, false)]
    {
      hide AllRemembered, Recent, OthersKept, Safe, Dropped;
      var recent;
      recent, dropped := Prepare(key, now);
      clock := later;
      MaySpend(hits, events, limit, window, now, later, key, false, maxKeys);
      Extend(events, limit, window, maxKeys, Spent(key, later, false));
      SpentStillRemembered(hits, events, limit, window, now, later, key, false);
      SameKeyKept(old(hits), hits, key, now - window, dropped, recent + [later]);
      SameSize(hits, key, recent + [later]);
      hits := hits[key := recent + [later]];
      events := events + [Spent(key, later, false)];
    }

    /** The answer of `WouldAllow` is the answer `Allow` gives at the same instant. */
    method AskThenAllow(key: string, now: Time, later: Time) returns (would: bool, allowed: bool)
      requires Valid() && clock <= now <= later
      modifies this
      ensures Valid() && would == allowed
    {
      hide AllRemembered, Recent, OthersKept, Safe, Dropped;
      ghost var dropped;
      would, dropped := WouldAllow(key, now);
      allowed, dropped := Allow(key, now, later);
    }

    method Prepare(key: string, now: Time) returns (recent: seq<Time>, ghost dropped: Option<string>)
      requires Valid() && clock <= now
      modifies this
      ensures Valid() && Prepared(key, now) && recent == hits[key]
      ensures Dropped(old(hits), maxKeys, now - window, dropped)
      ensures OthersKept(old(hits), hits, key, now - window, dropped)
      ensures events == old(events) + DropEvents(dropped, now)
      ensures old(Prepared(key, now)) ==> recent == old(hits)[key]
    {
      hide AllRemembered, Recent, OthersKept, Safe, Dropped;
      LaterStillRemembered(hits, events, limit, window, clock, now);
      clock := now;
      dropped := Evict(now, key);
      SetDefault(key, now, old(hits), dropped);
      RememberedKey(hits, events, limit, window, now, key);
      recent := DropOld(hits[key], now - window, LogOf(events, key));
      SameKeyKept(old(hits), hits, key, now - window, dropped, recent);
      SameSize(hits, key, recent);
      KeptStillRemembered(hits, events, limit, window, now, key, recent);
      hits := hits[key := recent];
    }

    method SetDefault(key: string, now: Time, ghost before: Hits, ghost dropped: Option<string>)
      requires Valid() && clock == now && OthersKept(before, hits, key, now - window, dropped)
      requires key !in hits ==> |hits| < maxKeys
      modifies this`hits
      ensures Valid() && key in hits && OthersKept(before, hits, key, now - window, dropped)
      ensures if key in old(hits) then hits == old(hits) else hits[key] == []
    {
      hide AllRemembered, OthersKept, Safe;
      if key !in hits {
        NewKeyRemembered(hits, events, limit, window, now, key);
        SameKeyKept(before, hits, key, now - window, dropped, []);
        NewSize(hits, key);
        hits := hits[key := []];
      }
    }

    /** Pop from the left while the oldest is out of the window. */
    method DropOld(kept: seq<Time>, bound: Time, ghost log: seq<Hit>) returns (recent: seq<Time>)
      requires Remembered(log, kept, limit, window, bound + window)
      ensures Remembered(log, recent, limit, window, bound + window) && Recent(recent, bound)
      ensures Recent(kept, bound) ==> recent == kept
      ensures kept == [] ==> recent == []
    {
      hide Remembered, Recent;
      recent := kept;
      while recent != [] && recent[0] <= bound
        invariant Remembered(log, recent, limit, window, bound + window)
        invariant Recent(kept, bound) ==> recent == kept
        invariant kept == [] ==> recent == []
        decreases |recent|
      {
        FirstIsOld(log, recent, kept, limit, window, bound);
        recent := recent[1..];
      }
      RecentAreRecent(log, recent, limit, window, bound);
    }

    /** Forget keys without recent activity, then the oldest, to bound memory. */
    method Evict(now: Time, ghost key: string) returns (ghost dropped: Option<string>)
      requires Valid() && clock == now
      modifies this`hits, this`events
      ensures Valid() && |hits| < maxKeys
      ensures Dropped(old(hits), maxKeys, now - window, dropped)
      ensures OthersKept(old(hits), hits, key, now - window, dropped)
      ensures events == old(events) + DropEvents(dropped, now)
      ensures key in hits ==> key in old(hits) && hits[key] == old(hits)[key]
      ensures |old(hits)| < maxKeys ==> hits == old(hits)
      ensures |old(hits)| >= maxKeys && key in hits ==> hits[key] != []
    {
      hide AllRemembered, Safe, Full, OthersKept, Dropped, Stale, IsOldest;
      ghost var bound := now - window;
      dropped := None;
      if |hits| < maxKeys {
        NothingDropped(hits, maxKeys, bound, key);
        return;
      }
      var stale := set k | k in hits && Stale(hits[k], now - window);
      StaleLosesNothing(hits, events, limit, window, now, stale);
      hits := hits - stale;
      FewerKeys(old(hits), stale);
      FullOrStale(old(hits), maxKeys, bound, stale);
      dropped := EvictOldest(now, old(hits));
      WhatWasDropped(old(hits), hits, maxKeys, bound, stale, dropped, key);
    }

    /** The loop that drops the oldest keys. It runs at most once, and only when nothing was stale. */
    method EvictOldest(now: Time, ghost before: Hits) returns (ghost dropped: Option<string>)
      requires Valid() && clock == now
      requires forall k :: k in hits ==> !Stale(hits[k], now - window)
      requires |hits| == maxKeys ==> hits == before
      modifies this`hits, this`events
      ensures Valid() && |hits| < maxKeys
      ensures dropped.None? <==> |old(hits)| < maxKeys
      ensures events == old(events) + DropEvents(dropped, now)
      ensures if dropped.None? then hits == old(hits)
              else IsOldest(before, dropped.value) && hits == before - {dropped.value}
    {
      hide AllRemembered, Safe;
      dropped := None;
      while |hits| >= maxKeys
        invariant Valid()
        invariant forall k :: k in hits ==> !Stale(hits[k], now - window)
        invariant dropped.None? ==> hits == old(hits) && events == old(events)
        invariant dropped.Some? ==>
                    && |old(hits)| == maxKeys && |hits| < maxKeys && events == old(events) + DropEvents(dropped, now)
                    && IsOldest(before, dropped.value) && hits == before - {dropped.value}
        decreases |hits|
      {
        var oldest := Oldest();
        MayForget(hits, events, limit, window, now, oldest, maxKeys);
        ForgettingForgets(hits, events, limit, window, now, oldest);
        Extend(events, limit, window, maxKeys, Forgotten(oldest, now));
        OneKeyFewer(hits, oldest);
        dropped := Some(oldest);
        hits, events := hits - {oldest}, events + [Forgotten(oldest, now)];
      }
    }

    /** A key whose last event is the oldest. Every deque still has a last event. */
    method Oldest() returns (oldest: string)
      requires hits != map[] && forall k :: k in hits ==> hits[k] != []
      ensures IsOldest(hits, oldest)
    {
      oldest :| oldest in hits;
      var left := hits.Keys - {oldest};
      while left != {}
        invariant oldest in hits && left <= hits.Keys
        invariant forall k :: k in hits && k !in left ==> hits[oldest][|hits[oldest]|-1] <= hits[k][|hits[k]|-1]
        decreases |left|
      {
        var k :| k in left;
        left := left - {k};
        if hits[k][|hits[k]|-1] < hits[oldest][|hits[oldest]|-1] {
          oldest := k;
        }
      }
    }
  }

  // ------------------------------------------------------------------ the table, step by step

  lemma LogStep(events: seq<Event>, e: Event, key: string)
    ensures LogOf(events + [e], key) ==
              if e.key != key || e.Refused? then LogOf(events, key)
              else if e.Spent? then LogOf(events, key) + [Hit(e.at, e.asked)] else []
  {
    assert (events + [e])[..|events|] == events;
  }

  lemma LaterStillRemembered(hits: Hits, events: seq<Event>, limit: nat, window: real, clock: Time, now: Time)
    requires AllRemembered(hits, events, limit, window, clock) && clock <= now
    ensures AllRemembered(hits, events, limit, window, now)
  {
    forall key ensures Remembered(LogOf(events, key), KeptOf(hits, key), limit, window, now) {
      assert Remembered(LogOf(events, key), KeptOf(hits, key), limit, window, clock);
    }
  }

  lemma RememberedKey(hits: Hits, events: seq<Event>, limit: nat, window: real, now: Time, key: string)
    requires AllRemembered(hits, events, limit, window, now) && key in hits
    ensures Remembered(LogOf(events, key), hits[key], limit, window, now)
  {
    hide Remembered;
    assert Remembered(LogOf(events, key), KeptOf(hits, key), limit, window, now);
  }

  /** With fewer than `limit` recent events, the one `limit` places back is at least a window old. */
  lemma AddKeepsSpaced(hits: seq<Hit>, kept: seq<Time>, limit: nat, window: real, now: Time, later: Time, asked: bool)
    requires Remembered(hits, kept, limit, window, now) && now <= later && (asked ==> |kept| < limit)
    ensures Spaced(hits + [Hit(later, asked)], limit, window) && Fits(hits, Hit(later, asked), limit, window)
  {
  }

  lemma AddKeeps(hits: seq<Hit>, kept: seq<Time>, bound: Time, hit: Hit)
    requires Keeps(hits, kept, bound)
    ensures Keeps(hits + [hit], kept + [hit.at], bound)
  {
  }

  lemma MaySpend(hits: Hits, events: seq<Event>, limit: nat, window: real, now: Time, later: Time, key: string,
                 asked: bool, maxKeys: nat)
    requires AllRemembered(hits, events, limit, window, now) && now <= later && key in hits
    requires asked ==> |hits[key]| < limit
    ensures Allowed(events, Spent(key, later, asked), limit, window, maxKeys)
  {
    RememberedKey(hits, events, limit, window, now, key);
    AddKeepsSpaced(LogOf(events, key), hits[key], limit, window, now, later, asked);
  }

  /** What is kept is the end of what was spent. */
  lemma KeptIsTheEnd(log: seq<Hit>, kept: seq<Time>, limit: nat, window: real, now: Time)
    requires Remembered(log, kept, limit, window, now)
    ensures |kept| <= |log|
    ensures forall i :: |log| - |kept| <= i < |log| ==> log[i].at == kept[i - (|log| - |kept|)]
  {
  }

  lemma MayRefuse(hits: Hits, events: seq<Event>, limit: nat, window: real, now: Time, key: string, maxKeys: nat)
    requires AllRemembered(hits, events, limit, window, now) && key in hits
    requires |hits[key]| >= limit && Recent(hits[key], now - window)
    ensures Allowed(events, Refused(key, now), limit, window, maxKeys)
  {
    hide Remembered, LogOf;
    var log, kept := LogOf(events, key), hits[key];
    RememberedKey(hits, events, limit, window, now, key);
    KeptIsTheEnd(log, kept, limit, window, now);
    forall i | |log| - limit <= i < |log| ensures log[i].at > now - window {
      assert log[i].at == kept[i - (|log| - |kept|)];
    }
  }

  lemma MayForget(hits: Hits, events: seq<Event>, limit: nat, window: real, now: Time, key: string, maxKeys: nat)
    requires AllRemembered(hits, events, limit, window, now) && |hits| >= maxKeys && IsOldest(hits, key)
    requires forall k :: k in hits ==> !Stale(hits[k], now - window)
    ensures Allowed(events, Forgotten(key, now), limit, window, maxKeys)
  {
    hide Remembered;
    forall k | k in hits.Keys
      ensures var log := LogOf(events, k); log != [] && log[|log|-1].at == hits[k][|hits[k]|-1]
    {
      RememberedKey(hits, events, limit, window, now, k);
      KeptIsTheEnd(LogOf(events, k), hits[k], limit, window, now);
      assert !Stale(hits[k], now - window);
    }
    assert |hits| == |hits.Keys|;
    assert Crowded(events, hits.Keys, key, now - window);
  }

  lemma OneMoreRemembered(hits: seq<Hit>, kept: seq<Time>, limit: nat, window: real, now: Time, later: Time,
                          asked: bool)
    requires Remembered(hits, kept, limit, window, now) && now <= later && (asked ==> |kept| < limit)
    ensures Remembered(hits + [Hit(later, asked)], kept + [later], limit, window, later)
  {
    AddKeepsSpaced(hits, kept, limit, window, now, later, asked);
    AddKeeps(hits, kept, later - window, Hit(later, asked));
  }

  lemma RefusedStillRemembered(hits: Hits, events: seq<Event>, limit: nat, window: real, now: Time, later: Time,
                               key: string)
    requires AllRemembered(hits, events, limit, window, now) && now <= later
    ensures AllRemembered(hits, events + [Refused(key, now)], limit, window, later)
  {
    hide Remembered, LogOf;
    LaterStillRemembered(hits, events, limit, window, now, later);
    forall k ensures Remembered(LogOf(events + [Refused(key, now)], k), KeptOf(hits, k), limit, window, later) {
      LogStep(events, Refused(key, now), k);
      assert Remembered(LogOf(events, k), KeptOf(hits, k), limit, window, later);
    }
  }

  lemma SpentStillRemembered(hits: Hits, events: seq<Event>, limit: nat, window: real, now: Time, later: Time,
                             key: string, asked: bool)
    requires AllRemembered(hits, events, limit, window, now) && now <= later && key in hits
    requires asked ==> |hits[key]| < limit
    ensures AllRemembered(hits[key := hits[key] + [later]], events + [Spent(key, later, asked)], limit, window, later)
  {
    hide Remembered, LogOf;
    var after, more := hits[key := hits[key] + [later]], events + [Spent(key, later, asked)];
    LaterStillRemembered(hits, events, limit, window, now, later);
    RememberedKey(hits, events, limit, window, now, key);
    OneMoreRemembered(LogOf(events, key), hits[key], limit, window, now, later, asked);
    forall k ensures Remembered(LogOf(more, k), KeptOf(after, k), limit, window, later) {
      LogStep(events, Spent(key, later, asked), k);
      assert Remembered(LogOf(events, k), KeptOf(hits, k), limit, window, later);
    }
  }

  lemma NewKeyRemembered(hits: Hits, events: seq<Event>, limit: nat, window: real, now: Time, key: string)
    requires AllRemembered(hits, events, limit, window, now) && key !in hits
    ensures AllRemembered(hits[key := []], events, limit, window, now)
  {
    hide Remembered;
    forall k ensures Remembered(LogOf(events, k), KeptOf(hits[key := []], k), limit, window, now) {
      assert Remembered(LogOf(events, k), KeptOf(hits, k), limit, window, now);
    }
  }

  lemma KeptStillRemembered(hits: Hits, events: seq<Event>, limit: nat, window: real, now: Time, key: string,
                            kept: seq<Time>)
    requires AllRemembered(hits, events, limit, window, now) && key in hits
    requires Remembered(LogOf(events, key), kept, limit, window, now)
    ensures AllRemembered(hits[key := kept], events, limit, window, now)
  {
    hide Remembered;
    forall k ensures Remembered(LogOf(events, k), KeptOf(hits[key := kept], k), limit, window, now) {
      assert Remembered(LogOf(events, k), KeptOf(hits, k), limit, window, now);
    }
  }

  /** A stale key has nothing that a later question would count. */
  lemma StaleLosesNothing(hits: Hits, events: seq<Event>, limit: nat, window: real, now: Time, stale: set<string>)
    requires AllRemembered(hits, events, limit, window, now)
    requires forall k :: k in stale ==> k in hits && Stale(hits[k], now - window)
    ensures AllRemembered(hits - stale, events, limit, window, now)
  {
    forall k ensures Remembered(LogOf(events, k), KeptOf(hits - stale, k), limit, window, now) {
      assert Remembered(LogOf(events, k), KeptOf(hits, k), limit, window, now);
      if k in stale {
        AllOld(LogOf(events, k), hits[k], limit, window, now);
      }
    }
  }

  lemma AllOld(hits: seq<Hit>, kept: seq<Time>, limit: nat, window: real, now: Time)
    requires Remembered(hits, kept, limit, window, now) && Stale(kept, now - window)
    ensures Remembered(hits, [], limit, window, now)
  {
    forall i | 0 <= i < |hits| ensures hits[i].at <= now - window {
      assert kept != [] ==> kept[|kept|-1] == hits[|hits|-1].at;
    }
  }

  lemma ForgettingForgets(hits: Hits, events: seq<Event>, limit: nat, window: real, now: Time, key: string)
    requires AllRemembered(hits, events, limit, window, now)
    ensures AllRemembered(hits - {key}, events + [Forgotten(key, now)], limit, window, now)
  {
    forall k ensures Remembered(LogOf(events + [Forgotten(key, now)], k), KeptOf(hits - {key}, k), limit, window, now) {
      LogStep(events, Forgotten(key, now), k);
      assert Remembered(LogOf(events, k), KeptOf(hits, k), limit, window, now);
    }
  }

  lemma SameKeyKept(hits: Hits, after: Hits, key: string, bound: Time, dropped: Option<string>, kept: seq<Time>)
    requires OthersKept(hits, after, key, bound, dropped)
    ensures OthersKept(hits, after[key := kept], key, bound, dropped)
  {
  }

  lemma NothingDropped(hits: Hits, maxKeys: nat, bound: Time, key: string)
    requires |hits| < maxKeys
    ensures Dropped(hits, maxKeys, bound, None) && OthersKept(hits, hits, key, bound, None)
  {
  }

  lemma WhatWasDropped(hits: Hits, after: Hits, maxKeys: nat, bound: Time, stale: set<string>,
                       dropped: Option<string>, key: string)
    requires stale == set k | k in hits && Stale(hits[k], bound)
    requires dropped.Some? <==> Full(hits, maxKeys, bound)
    requires if dropped.None? then after == hits - stale
             else IsOldest(hits, dropped.value) && after == hits - {dropped.value}
    ensures Dropped(hits, maxKeys, bound, dropped) && OthersKept(hits, after, key, bound, dropped)
    ensures key in after ==> key in hits && after[key] == hits[key] && hits[key] != []
  {
    hide Full;
  }

  lemma FullOrStale(hits: Hits, maxKeys: nat, bound: Time, stale: set<string>)
    requires |hits| == maxKeys && stale == set k | k in hits && Stale(hits[k], bound)
    ensures Full(hits, maxKeys, bound) <==> |hits - stale| == maxKeys
    ensures |hits - stale| == maxKeys ==> hits - stale == hits
  {
    hide Stale;
    if stale == {} {
      assert hits - stale == hits;
      forall k | k in hits ensures !Stale(hits[k], bound) {
        assert k !in stale;
      }
    } else {
      var k :| k in stale;
      SomeLeave(hits, stale, k);
    }
  }

  lemma SomeLeave(hits: Hits, gone: set<string>, k: string)
    requires k in gone && k in hits
    ensures |hits - gone| < |hits|
  {
    OneKeyFewer(hits, k);
    assert hits - gone == (hits - {k}) - gone;
    FewerKeys(hits - {k}, gone);
  }

  lemma FewerKeys(hits: Hits, gone: set<string>)
    ensures |hits - gone| <= |hits|
  {
    SmallerSet((hits - gone).Keys, hits.Keys);
    assert |hits| == |hits.Keys| && |hits - gone| == |(hits - gone).Keys|;
  }

  lemma OneKeyFewer(hits: Hits, key: string)
    requires key in hits
    ensures |hits - {key}| == |hits| - 1
  {
    assert (hits - {key}).Keys == hits.Keys - {key};
    assert |hits| == |hits.Keys| && |hits - {key}| == |(hits - {key}).Keys|;
  }

  lemma SameSize(hits: Hits, key: string, kept: seq<Time>)
    requires key in hits
    ensures |hits[key := kept]| == |hits|
  {
    assert hits[key := kept].Keys == hits.Keys;
    assert |hits| == |hits.Keys| && |hits[key := kept]| == |hits[key := kept].Keys|;
  }

  lemma NewSize(hits: Hits, key: string)
    requires key !in hits
    ensures |hits[key := []]| == |hits| + 1
  {
    assert hits[key := []].Keys == hits.Keys + {key};
    assert |hits| == |hits.Keys| && |hits[key := []]| == |hits[key := []].Keys|;
  }

  lemma FirstIsOld(hits: seq<Hit>, recent: seq<Time>, kept: seq<Time>, limit: nat, window: real, bound: Time)
    requires Remembered(hits, recent, limit, window, bound + window)
    requires recent != [] && recent[0] <= bound
    ensures Remembered(hits, recent[1..], limit, window, bound + window)
    ensures recent == kept ==> !Recent(kept, bound)
  {
  }

  /** Since a key's events come in order, once the first kept one is recent they all are. */
  lemma RecentAreRecent(hits: seq<Hit>, kept: seq<Time>, limit: nat, window: real, bound: Time)
    requires Remembered(hits, kept, limit, window, bound + window)
    requires kept == [] || kept[0] > bound
    ensures Recent(kept, bound)
  {
    forall i | 0 <= i < |kept| ensures kept[i] > bound {
      assert kept[0] == hits[|hits| - |kept|].at && kept[i] == hits[|hits| - |kept| + i].at;
    }
  }

  // ------------------------------------------------------------------ a whole sequence of calls

  /** The next event of a key that has spent these slots since it was last forgotten. */
  predicate Fits(hits: seq<Hit>, hit: Hit, limit: nat, window: real) {
    && (hits != [] ==> hits[|hits|-1].at <= hit.at)
    && (hit.asked ==> limit > 0 && (|hits| >= limit ==> hit.at - hits[|hits|-limit].at >= window))
  }

  /** All these keys spent a slot lately, and this one's last is the oldest. */
  predicate Crowded(events: seq<Event>, keys: set<string>, oldest: string, bound: Time) {
    && oldest in keys
    && forall k :: k in keys ==>
         var log, first := LogOf(events, k), LogOf(events, oldest);
         log != [] && first != [] && log[|log|-1].at > bound && first[|first|-1].at <= log[|log|-1].at
  }

  /**
   May this happen next? A slot is spent when the rules fit; one is refused when `limit` were spent within the window;
   a key is forgotten when `maxKeys` keys spent a slot within the window, and its last one is the oldest.
   */
  ghost predicate Allowed(events: seq<Event>, e: Event, limit: nat, window: real, maxKeys: nat) {
    match e
    case Spent(key, at, asked) => Fits(LogOf(events, key), Hit(at, asked), limit, window)
    case Refused(key, at) =>
      var log := LogOf(events, key);
      |log| >= limit && forall i :: |log| - limit <= i < |log| ==> log[i].at > at - window
    case Forgotten(key, at) =>
      exists keys: set<string> :: |keys| >= maxKeys && Crowded(events, keys, key, at - window)
  }

  ghost predicate Safe(events: seq<Event>, limit: nat, window: real, maxKeys: nat) {
    forall k :: 0 <= k < |events| ==> AllowedAt(events, k, limit, window, maxKeys)
  }

  ghost predicate AllowedAt(events: seq<Event>, k: nat, limit: nat, window: real, maxKeys: nat)
    requires k < |events|
  {
    Allowed(events[..k], events[k], limit, window, maxKeys)
  }

  lemma Extend(events: seq<Event>, limit: nat, window: real, maxKeys: nat, e: Event)
    requires Safe(events, limit, window, maxKeys) && Allowed(events, e, limit, window, maxKeys)
    ensures Safe(events + [e], limit, window, maxKeys)
  {
    hide Allowed;
    var more := events + [e];
    assert more[..|events|] == events;
    forall k | 0 <= k < |more| ensures AllowedAt(more, k, limit, window, maxKeys) {
      if k < |events| {
        assert more[..k] == events[..k] && AllowedAt(events, k, limit, window, maxKeys);
      }
    }
  }

  /** The slots a key spends from `i` up to `k`. */
  function SpentFrom(events: seq<Event>, i: nat, k: nat, key: string): seq<Hit>
    requires i <= k <= |events|
    decreases k
  {
    if i == k then []
    else
      var e := events[k-1];
      SpentFrom(events, i, k - 1, key) + if e.Spent? && e.key == key then [Hit(e.at, e.asked)] else []
  }

  predicate Forgets(e: Event, key: string) { e.Forgotten? && e.key == key }

  lemma {:induction false} LogGoesOn(events: seq<Event>, i: nat, k: nat, key: string)
    requires i <= k <= |events| && forall m :: i <= m < k ==> !Forgets(events[m], key)
    ensures LogOf(events[..k], key) == LogOf(events[..i], key) + SpentFrom(events, i, k, key)
    decreases k
  {
    if i < k {
      hide LogOf;
      var e := events[k-1];
      var one := if e.Spent? && e.key == key then [Hit(e.at, e.asked)] else [];
      LogGoesOn(events, i, k - 1, key);
      assert events[..k] == events[..k-1] + [e];
      LogStep(events[..k-1], e, key);
      JoinTwice(LogOf(events[..i], key), SpentFrom(events, i, k - 1, key), one);
    }
  }

  lemma {:induction false} LogIsSorted(events: seq<Event>, k: nat, key: string, limit: nat, window: real, maxKeys: nat)
    requires Safe(events, limit, window, maxKeys) && k <= |events|
    ensures var log := LogOf(events[..k], key); forall a, b :: 0 <= a <= b < |log| ==> log[a].at <= log[b].at
    decreases k
  {
    if k > 0 {
      LogIsSorted(events, k - 1, key, limit, window, maxKeys);
      assert AllowedAt(events, k - 1, limit, window, maxKeys);
      assert events[..k] == events[..k-1] + [events[k-1]];
      LogStep(events[..k-1], events[k-1], key);
    }
  }

  /** The first slot spent from `i` on is the event at `i`. */
  lemma {:induction false} FirstSpent(events: seq<Event>, i: nat, k: nat, key: string)
    requires i < k <= |events| && events[i].Spent? && events[i].key == key
    ensures var spent := SpentFrom(events, i, k, key); spent != [] && spent[0].at == events[i].at
    decreases k
  {
    if i < k - 1 {
      FirstSpent(events, i, k - 1, key);
    }
  }

  /**
   Over any sequence of calls: an event a key was allowed, and any event of that key at least `limit` slots before it,
   are a whole window apart, unless the key was forgotten in between to make room.
   */
  lemma SuccessiveEventsSpanTheWindow(events: seq<Event>, i: nat, k: nat, key: string, limit: nat, window: real,
                                      maxKeys: nat)
    requires Safe(events, limit, window, maxKeys) && i < k < |events|
    requires events[i].Spent? && events[i].key == key && events[k].Spent? && events[k].key == key && events[k].asked
    requires forall m :: i <= m < k ==> !Forgets(events[m], key)
    requires |SpentFrom(events, i, k, key)| >= limit
    ensures events[k].at - events[i].at >= window
  {
    assert AllowedAt(events, k, limit, window, maxKeys);
    LogGoesOn(events, i, k, key);
    LogIsSorted(events, k, key, limit, window, maxKeys);
    FirstSpent(events, i, k, key);
    var log, first := LogOf(events[..k], key), |LogOf(events[..i], key)|;
    assert log[first].at == events[i].at && first <= |log| - limit;
  }

  datatype Call =
    | Ask(key: string, now: Time, later: Time)
    | Peek(key: string, now: Time)
    | Spend(key: string, now: Time, later: Time)

  function Ends(c: Call): Time { if c.Peek? then c.now else c.later }

  /** The clock never runs backwards. */
  predicate InOrder(calls: seq<Call>, clock: Time) {
    && (forall i :: 0 <= i < |calls| ==> clock <= calls[i].now <= Ends(calls[i]))
    && (forall i, k :: 0 <= i < k < |calls| ==> Ends(calls[i]) <= calls[k].now)
  }

  /** What the calls spent, and what they were refused, going by the answers. */
  function Granted(calls: seq<Call>, answers: seq<bool>): seq<Event>
    requires |answers| == |calls|
  {
    if calls == [] then []
    else
      var last := |calls| - 1;
      Granted(calls[..last], answers[..last]) + GrantedOne(calls[last], answers[last])
  }

  function GrantedOne(call: Call, answer: bool): seq<Event> {
    match call
    case Ask(key, now, later) => [if answer then Spent(key, later, true) else Refused(key, now)]
    case Peek(_, _) => []
    case Spend(key, _, later) => [Spent(key, later, false)]
  }

  /** What is left of the events when forgetting is left out. */
  function Remaining(events: seq<Event>): seq<Event> {
    if events == [] then []
    else
      var last := events[|events|-1];
      Remaining(events[..|events|-1]) + if last.Forgotten? then [] else [last]
  }

  lemma NothingRemains()
    ensures Remaining([]) == []
  {
  }

  lemma RemainingStep(events: seq<Event>, dropped: Option<string>, now: Time, spent: seq<Event>)
    requires spent == [] || (|spent| == 1 && !spent[0].Forgotten?)
    ensures Remaining(events + DropEvents(dropped, now) + spent) == Remaining(events) + spent
  {
    var first := events + DropEvents(dropped, now);
    assert dropped.Some? ==> first[..|first|-1] == events;
    assert dropped.None? ==> first == events;
    assert spent == [] ==> first + spent == first;
    assert spent != [] ==> (first + spent)[..|first|] == first;
  }

  /** Any calls, in any order: the events are what the calls spent, they are spaced, and keys stay bounded. */
  method Serve(calls: seq<Call>, limit: nat, window: real, maxKeys: nat, start: Time)
    returns (limiter: RateLimiter, answers: seq<bool>)
    requires maxKeys >= 1 && window >= 0.0 && InOrder(calls, start)
    ensures |answers| == |calls| && Remaining(limiter.events) == Granted(calls, answers)
    ensures Safe(limiter.events, limit, window, maxKeys) && |limiter.hits| <= maxKeys
  {
    hide AllRemembered, Safe, Dropped, OthersKept, Remaining, Recent;
    limiter := new RateLimiter(limit, window, maxKeys, start);
    answers := [];
    NothingRemains();
    for i := 0 to |calls|
      invariant fresh(limiter) && limiter.Valid()
      invariant limiter.limit == limit && limiter.window == window && limiter.maxKeys == maxKeys
      invariant limiter.clock == if i == 0 then start else Ends(calls[i-1])
      invariant |answers| == i && Remaining(limiter.events) == Granted(calls[..i], answers)
    {
      ghost var before, dropped := limiter.events, None;
      var answer := true;
      match calls[i] {
        case Ask(key, now, later) => answer, dropped := limiter.Allow(key, now, later);
        case Peek(key, now) => answer, dropped := limiter.WouldAllow(key, now);
        case Spend(key, now, later) => dropped := limiter.Record(key, now, later);
      }
      ghost var spent := GrantedOne(calls[i], answer);
      assert limiter.events == before + DropEvents(dropped, calls[i].now) + spent;
      RemainingStep(before, dropped, calls[i].now, spent);
      assert calls[..i+1][..i] == calls[..i] && (answers + [answer])[..i] == answers;
      answers := answers + [answer];
    }
    assert calls[..|calls|] == calls;
  }

  // ------------------------------------------------------------------ few keys

  function KeysOf(calls: seq<Call>): set<string> { set i | 0 <= i < |calls| :: calls[i].key }

  lemma {:induction false} GrantedAreNamed(calls: seq<Call>, answers: seq<bool>, k: nat)
    requires |answers| == |calls| && k < |Granted(calls, answers)|
    ensures Granted(calls, answers)[k].key in KeysOf(calls)
  {
    if calls != [] {
      var last := |calls| - 1;
      var before := Granted(calls[..last], answers[..last]);
      if k < |before| {
        GrantedAreNamed(calls[..last], answers[..last], k);
        var i :| 0 <= i < last && calls[..last][i].key == before[k].key;
        assert calls[i].key == before[k].key;
      } else {
        assert calls[last].key == GrantedOne(calls[last], answers[last])[0].key;
      }
    }
  }

  lemma {:induction false} LoggedRemains(events: seq<Event>, key: string) returns (k: nat)
    requires LogOf(events, key) != []
    ensures k < |Remaining(events)| && Remaining(events)[k].key == key
  {
    var last := events[|events|-1];
    if last.Spent? && last.key == key {
      k := |Remaining(events)| - 1;
    } else {
      k := LoggedRemains(events[..|events|-1], key);
    }
  }

  lemma {:induction false} AllRemain(events: seq<Event>)
    requires forall i :: 0 <= i < |events| ==> !events[i].Forgotten?
    ensures Remaining(events) == events
  {
    if events != [] {
      AllRemain(events[..|events|-1]);
    }
  }

  lemma {:induction false} PrefixRemains(events: seq<Event>, m: nat)
    requires m <= |events|
    ensures Remaining(events[..m]) <= Remaining(events)
    decreases |events|
  {
    if m < |events| {
      PrefixRemains(events[..|events|-1], m);
      assert events[..|events|-1][..m] == events[..m];
    } else {
      assert events[..m] == events;
    }
  }

  /** A key that crowds the table was named by a call. */
  lemma CrowdIsNamed(events: seq<Event>, m: nat, calls: seq<Call>, answers: seq<bool>, key: string)
    requires m <= |events| && |answers| == |calls| && Remaining(events) == Granted(calls, answers)
    requires LogOf(events[..m], key) != []
    ensures key in KeysOf(calls)
  {
    hide Remaining, Granted, LogOf;
    var k := LoggedRemains(events[..m], key);
    PrefixRemains(events, m);
    GrantedAreNamed(calls, answers, k);
  }

  /**
   As long as fewer keys are named than there is room for, nothing is forgotten: the events are those of the calls.
   */
  lemma FewKeysForgetNothing(events: seq<Event>, calls: seq<Call>, answers: seq<bool>, limit: nat, window: real,
                             maxKeys: nat)
    requires Safe(events, limit, window, maxKeys) && |answers| == |calls|
    requires Remaining(events) == Granted(calls, answers)
    requires |KeysOf(calls)| < maxKeys
    ensures events == Granted(calls, answers)
  {
    hide Remaining, Granted, LogOf, KeysOf;
    forall m | 0 <= m < |events| ensures !events[m].Forgotten? {
      assert AllowedAt(events, m, limit, window, maxKeys);
      if events[m].Forgotten? {
        var keys: set<string> :| |keys| >= maxKeys && Crowded(events[..m], keys, events[m].key, events[m].at - window);
        forall k | k in keys ensures k in KeysOf(calls) {
          CrowdIsNamed(events, m, calls, answers, k);
        }
        SmallerSet(keys, KeysOf(calls));
      }
    }
    AllRemain(events);
  }

  /** The slots a key was granted by the calls from `i` up to `k`. */
  function GrantsFrom(calls: seq<Call>, answers: seq<bool>, i: nat, k: nat, key: string): nat
    requires i <= k <= |calls| == |answers|
    decreases k
  {
    if i == k then 0
    else
      var more := if calls[k-1].key == key && IsGranted(calls, answers, k - 1) then 1 else 0;
      GrantsFrom(calls, answers, i, k - 1, key) + more
  }

  function CallsBefore(calls: seq<Call>, answers: seq<bool>, i: nat): seq<Event>
    requires i <= |calls| == |answers|
  {
    Granted(calls[..i], answers[..i])
  }

  lemma GrantedStep(calls: seq<Call>, answers: seq<bool>, i: nat)
    requires i < |calls| == |answers|
    ensures CallsBefore(calls, answers, i + 1) == CallsBefore(calls, answers, i) + GrantedOne(calls[i], answers[i])
  {
    assert calls[..i+1][..i] == calls[..i] && answers[..i+1][..i] == answers[..i];
  }

  lemma {:induction false} GrantedGrows(calls: seq<Call>, answers: seq<bool>, i: nat, k: nat)
    requires i <= k <= |calls| == |answers|
    ensures CallsBefore(calls, answers, i) <= CallsBefore(calls, answers, k)
    decreases k
  {
    if i < k {
      hide CallsBefore;
      GrantedGrows(calls, answers, i, k - 1);
      GrantedStep(calls, answers, k - 1);
    }
  }

  lemma {:induction false} SpentFromCalls(calls: seq<Call>, answers: seq<bool>, i: nat, k: nat, key: string)
    requires i <= k <= |calls| == |answers|
    ensures var all, a := CallsBefore(calls, answers, k), |CallsBefore(calls, answers, i)|;
            a <= |all| && |SpentFrom(all, a, |all|, key)| == GrantsFrom(calls, answers, i, k, key)
    decreases k
  {
    if i < k {
      hide CallsBefore, SpentFrom;
      var before, one := CallsBefore(calls, answers, k - 1), GrantedOne(calls[k-1], answers[k-1]);
      SpentFromCalls(calls, answers, i, k - 1, key);
      GrantedStep(calls, answers, k - 1);
      SpentFromOneMore(before, one, |CallsBefore(calls, answers, i)|, key);
    } else {
      NoneSpent(CallsBefore(calls, answers, i), |CallsBefore(calls, answers, i)|, key);
    }
  }

  lemma NoneSpent(events: seq<Event>, i: nat, key: string)
    requires i <= |events|
    ensures SpentFrom(events, i, i, key) == []
  {
  }

  lemma SpentFromOneMore(events: seq<Event>, one: seq<Event>, i: nat, key: string)
    requires i <= |events| && |one| <= 1
    ensures |SpentFrom(events + one, i, |events + one|, key)| ==
              |SpentFrom(events, i, |events|, key)| + if one != [] && one[0].Spent? && one[0].key == key then 1 else 0
  {
    SpentFromPrefix(events, one, i, |events|, key);
    assert one != [] ==> (events + one)[|events|] == one[0];
    assert one == [] ==> events + one == events;
  }

  lemma {:induction false} SpentFromPrefix(events: seq<Event>, more: seq<Event>, i: nat, k: nat, key: string)
    requires i <= k <= |events|
    ensures SpentFrom(events + more, i, k, key) == SpentFrom(events, i, k, key)
    decreases k
  {
    if i < k {
      SpentFromPrefix(events, more, i, k - 1, key);
      assert (events + more)[k-1] == events[k-1];
    }
  }

  predicate IsGranted(calls: seq<Call>, answers: seq<bool>, i: nat)
    requires i < |calls| == |answers|
  {
    calls[i].Spend? || (calls[i].Ask? && answers[i])
  }

  /**
   The promise to a household with fewer keys than there is room for, without any proviso: an allowed call, and any call
   of its key that was granted at least `limit` slots before it, are a whole window apart.
   */
  lemma FewKeysAlwaysSpanTheWindow(events: seq<Event>, calls: seq<Call>, answers: seq<bool>, limit: nat, window: real,
                                   maxKeys: nat, i: nat, k: nat)
    requires Safe(events, limit, window, maxKeys) && |answers| == |calls|
    requires Remaining(events) == Granted(calls, answers)
    requires |KeysOf(calls)| < maxKeys && i < k < |calls| && calls[i].key == calls[k].key
    requires IsGranted(calls, answers, i) && calls[k].Ask? && answers[k]
    requires GrantsFrom(calls, answers, i, k, calls[k].key) >= limit
    ensures Ends(calls[k]) - Ends(calls[i]) >= window
  {
    hide Safe, Remaining, Granted, KeysOf, GrantsFrom;
    FewKeysForgetNothing(events, calls, answers, limit, window, maxKeys);
    GrantedSpanTheWindow(events, calls, answers, limit, window, maxKeys, i, k);
  }

  lemma GrantedSpanTheWindow(events: seq<Event>, calls: seq<Call>, answers: seq<bool>, limit: nat, window: real,
                             maxKeys: nat, i: nat, k: nat)
    requires Safe(events, limit, window, maxKeys) && |answers| == |calls| && events == Granted(calls, answers)
    requires i < k < |calls| && calls[i].key == calls[k].key
    requires IsGranted(calls, answers, i) && calls[k].Ask? && answers[k]
    requires GrantsFrom(calls, answers, i, k, calls[k].key) >= limit
    ensures Ends(calls[k]) - Ends(calls[i]) >= window
  {
    hide Safe, Granted, CallsBefore, SpentFrom, GrantsFrom;
    var key := calls[k].key;
    var a, b := |CallsBefore(calls, answers, i)|, |CallsBefore(calls, answers, k)|;
    EventOfCall(events, calls, answers, i);
    EventOfCall(events, calls, answers, k);
    InCallOrder(calls, answers, i, k);
    SpentAre(events, calls, answers, i, k, key);
    NothingForgotten(calls, answers);
    SuccessiveEventsSpanTheWindow(events, a, b, key, limit, window, maxKeys);
  }

  lemma InCallOrder(calls: seq<Call>, answers: seq<bool>, i: nat, k: nat)
    requires i < k < |calls| == |answers| && IsGranted(calls, answers, i)
    ensures |CallsBefore(calls, answers, i)| < |CallsBefore(calls, answers, k)|
  {
    hide CallsBefore;
    GrantedStep(calls, answers, i);
    GrantedGrows(calls, answers, i + 1, k);
  }

  lemma SpentAre(events: seq<Event>, calls: seq<Call>, answers: seq<bool>, i: nat, k: nat, key: string)
    requires i <= k <= |calls| == |answers| && events == Granted(calls, answers)
    ensures var a, b := |CallsBefore(calls, answers, i)|, |CallsBefore(calls, answers, k)|;
            a <= b <= |events| && |SpentFrom(events, a, b, key)| == GrantsFrom(calls, answers, i, k, key)
  {
    hide CallsBefore, SpentFrom, GrantsFrom;
    var a, b := |CallsBefore(calls, answers, i)|, |CallsBefore(calls, answers, k)|;
    SpentFromCalls(calls, answers, i, k, key);
    PrefixOfEvents(events, calls, answers, k);
    SpentFromPrefix(events[..b], events[b..], a, b, key);
    assert events == events[..b] + events[b..];
  }

  lemma PrefixOfEvents(events: seq<Event>, calls: seq<Call>, answers: seq<bool>, i: nat)
    requires i <= |calls| == |answers| && events == Granted(calls, answers)
    ensures |CallsBefore(calls, answers, i)| <= |events|
    ensures events[..|CallsBefore(calls, answers, i)|] == CallsBefore(calls, answers, i)
  {
    GrantedGrows(calls, answers, i, |calls|);
    assert calls[..|calls|] == calls && answers[..|answers|] == answers;
  }

  /** Where the event of a granted call is. */
  lemma EventOfCall(events: seq<Event>, calls: seq<Call>, answers: seq<bool>, i: nat)
    requires i < |calls| == |answers| && events == Granted(calls, answers) && IsGranted(calls, answers, i)
    ensures var a := |CallsBefore(calls, answers, i)|;
            a < |events| && events[a] == Spent(calls[i].key, Ends(calls[i]), calls[i].Ask?)
  {
    hide CallsBefore;
    PrefixOfEvents(events, calls, answers, i + 1);
    GrantedStep(calls, answers, i);
    var upTo := CallsBefore(calls, answers, i + 1);
    assert upTo[|upTo|-1] == GrantedOne(calls[i], answers[i])[0];
    assert events[..|upTo|][|upTo|-1] == events[|upTo|-1];
  }

  lemma {:induction false} NothingForgotten(calls: seq<Call>, answers: seq<bool>)
    requires |answers| == |calls|
    ensures forall k :: 0 <= k < |Granted(calls, answers)| ==> !Granted(calls, answers)[k].Forgotten?
  {
    if calls != [] {
      NothingForgotten(calls[..|calls|-1], answers[..|calls|-1]);
    }
  }

  // ------------------------------------------------------------------ what the spacing means

  function InWindow(hits: seq<Hit>, window: real, t: Time): set<nat> {
    set i: nat | i < |hits| && t - window < hits[i].at <= t
  }

  lemma {:induction false} FewInRange(s: set<nat>, low: nat, n: nat)
    requires forall i :: i in s ==> low <= i < low + n
    ensures |s| <= n
    decreases n
  {
    if n > 0 {
      var last := low + n - 1;
      FewInRange(s - {last}, low, n - 1);
      if last in s {
        assert s == (s - {last}) + {last};
      } else {
        assert s == s - {last};
      }
    } else {
      assert s == {};
    }
  }

  /**
   The promise: while a key is remembered and always asked, no window of time holds more than `limit` of its events.
   */
  lemma AtMostLimitInAnyWindow(hits: seq<Hit>, limit: nat, window: real, t: Time)
    requires Spaced(hits, limit, window) && forall i :: 0 <= i < |hits| ==> hits[i].asked
    ensures |InWindow(hits, window, t)| <= limit
  {
    var s := InWindow(hits, window, t);
    if s != {} {
      var low := LeastOf(s);
      forall i, k | 0 <= i && i + limit <= k < |hits| ensures hits[k].at - hits[i].at >= window {
        assert hits[k].at - hits[k - limit].at >= window && hits[i].at <= hits[k - limit].at;
      }
      assert forall i :: i in s ==> hits[i].at - hits[low].at < window;
      FewInRange(s, low, limit);
    }
  }

  lemma {:induction false} LeastOf(s: set<nat>) returns (m: nat)
    requires s != {}
    ensures m in s && forall k :: k in s ==> m <= k
  {
    m :| m in s;
    var others := s - {m};
    if others != {} {
      var r := LeastOf(others);
      m := if m <= r then m else r;
    }
    forall k | k in s ensures m <= k {
      assert k in others || k !in others;
    }
  }
}
