/** The sliding-window limiter, against a log that forgets nothing. */
module RateLimiter {
  import opened FiniteSets

  type Key = string
  type Hits = seq<real>

  ghost predicate Sorted(q: Hits) {
    forall i, j :: 0 <= i <= j < |q| ==> q[i] <= q[j]
  }

  /** How many of these hits are at or after the cutoff. */
  function CountFrom(q: Hits, cutoff: real): nat {
    if q == [] then 0 else CountFrom(q[..|q| - 1], cutoff) + if q[|q| - 1] >= cutoff then 1 else 0
  }

  lemma {:induction false} CountSplit(a: Hits, b: Hits, cutoff: real)
    ensures CountFrom(a + b, cutoff) == CountFrom(a, cutoff) + CountFrom(b, cutoff)
  {
    if b == [] {
      assert a + b == a;
    } else {
      assert (a + b)[..|a + b| - 1] == a + b[..|b| - 1];
      CountSplit(a, b[..|b| - 1], cutoff);
    }
  }

  lemma {:induction false} CountNone(q: Hits, cutoff: real)
    requires forall i :: 0 <= i < |q| ==> q[i] < cutoff
    ensures CountFrom(q, cutoff) == 0
  {
    if q != [] {
      CountNone(q[..|q| - 1], cutoff);
    }
  }

  lemma {:induction false} CountAll(q: Hits, cutoff: real)
    requires forall i :: 0 <= i < |q| ==> q[i] >= cutoff
    ensures CountFrom(q, cutoff) == |q|
  {
    if q != [] {
      CountAll(q[..|q| - 1], cutoff);
    }
  }

  /** Drop from the front while older than the cutoff. */
  method DropOld(q: Hits, cutoff: real) returns (kept: Hits, ghost dropped: Hits)
    requires Sorted(q)
    ensures q == dropped + kept && Sorted(kept)
    ensures forall i :: 0 <= i < |dropped| ==> dropped[i] < cutoff
    ensures forall i :: 0 <= i < |kept| ==> kept[i] >= cutoff
    ensures |kept| == CountFrom(q, cutoff)
  {
    kept := q;
    ghost var n := 0;
    while kept != [] && kept[0] < cutoff
      invariant 0 <= n <= |q| && kept == q[n..]
      invariant forall i :: 0 <= i < n ==> q[i] < cutoff
      decreases |kept|
    {
      assert kept[0] == q[n];
      kept := kept[1..];
      n := n + 1;
    }
    dropped := q[..n];
    assert q == dropped + kept;
    forall i, j | 0 <= i <= j < |kept| ensures kept[i] <= kept[j] {
      assert kept[i] == q[n + i] && kept[j] == q[n + j];
    }
    CountSplit(dropped, kept, cutoff);
    CountNone(dropped, cutoff);
    CountAll(kept, cutoff);
  }

  function Ceiling(x: real): int {
    -((-x).Floor)
  }

  function RetryAfter(oldest: real, window: int, now: real): int {
    var wait := Ceiling(oldest + window as real - now);
    if wait > 1 then wait else 1
  }

  /** Stored hits are what is left of the key's log once hits before some cutoff are dropped. */
  ghost predicate TailOf(log: Hits, stored: Hits, horizon: real) {
    |stored| <= |log| && log[|log| - |stored|..] == stored
    && forall i :: 0 <= i < |log| - |stored| ==> log[i] < horizon
  }

  lemma TailCounts(log: Hits, stored: Hits, horizon: real, cutoff: real)
    requires TailOf(log, stored, horizon) && horizon <= cutoff
    ensures CountFrom(log, cutoff) == CountFrom(stored, cutoff)
  {
    var gone := log[..|log| - |stored|];
    assert log == gone + stored;
    CountSplit(gone, stored, cutoff);
    CountNone(gone, cutoff);
  }

  type Table = map<Key, Hits>

  function Of(table: Table, key: Key): Hits {
    if key in table then table[key] else []
  }

  /** Sorted, no longer than the limit and not from the future. */
  ghost predicate BucketOk(q: Hits, limit: nat, clock: real) {
    Sorted(q) && |q| <= limit && forall i :: 0 <= i < |q| ==> q[i] <= clock
  }

  ghost predicate BucketsOk(hits: Table, limit: nat, clock: real) {
    forall key :: key in hits ==> BucketOk(hits[key], limit, clock)
  }

  /** For every key never evicted, its bucket is the tail of its log. */
  ghost predicate Tracks(hits: Table, log: Table, evicted: set<Key>, horizon: real) {
    forall key :: key !in evicted ==> TailOf(Of(log, key), Of(hits, key), horizon)
  }

  predicate Stale(q: Hits, cutoff: real) {
    q == [] || q[|q| - 1] < cutoff
  }

  function Pruned(hits: Table, cutoff: real): Table {
    map key | key in hits && !Stale(hits[key], cutoff) :: hits[key]
  }

  lemma PruneKeeps(hits: Table, log: Table, evicted: set<Key>, limit: nat, clock: real, cutoff: real)
    requires BucketsOk(hits, limit, clock) && Tracks(hits, log, evicted, cutoff)
    ensures BucketsOk(Pruned(hits, cutoff), limit, clock) && Tracks(Pruned(hits, cutoff), log, evicted, cutoff)
    ensures |Pruned(hits, cutoff)| <= |hits|
  {
    var after := Pruned(hits, cutoff);
    Fewer(after.Keys, hits.Keys);
    assert |after| == |after.Keys| && |hits| == |hits.Keys|;
    forall key | key !in evicted ensures TailOf(Of(log, key), Of(after, key), cutoff) {
      assert TailOf(Of(log, key), Of(hits, key), cutoff);
      if key in hits && key !in after {
        assert BucketOk(hits[key], limit, clock);
        StaleTail(Of(log, key), hits[key], cutoff);
      }
    }
  }

  lemma StaleTail(logged: Hits, stored: Hits, cutoff: real)
    requires TailOf(logged, stored, cutoff) && Sorted(stored) && Stale(stored, cutoff)
    ensures TailOf(logged, [], cutoff)
  {
    assert logged[|logged|..] == [];
    forall i | 0 <= i < |logged| ensures logged[i] < cutoff {
      if i >= |logged| - |stored| {
        assert logged[i] == stored[i - (|logged| - |stored|)];
      }
    }
  }

  /** Every bucket but this key's is as before or gone, and this key's still counts the same. */
  ghost predicate LeftFor(key: Key, before: Table, after: Table, cutoff: real) {
    && (forall k :: k in after && k != key ==> k in before && after[k] == before[k])
    && CountFrom(Of(after, key), cutoff) == CountFrom(Of(before, key), cutoff)
  }

  lemma PruneLeaves(hits: Table, limit: nat, clock: real, cutoff: real, key: Key)
    requires BucketsOk(hits, limit, clock)
    ensures LeftFor(key, hits, Pruned(hits, cutoff), cutoff)
  {
    if key in hits && Stale(hits[key], cutoff) {
      var q := hits[key];
      assert BucketOk(q, limit, clock);
      assert forall i :: 0 <= i < |q| ==> q[i] <= q[|q| - 1];
      CountNone(q, cutoff);
    }
  }

  lemma SameLeft(key: Key, hits: Table, cutoff: real)
    ensures LeftFor(key, hits, hits, cutoff)
  {
  }

  lemma PrunedNonempty(hits: Table, cutoff: real)
    ensures forall k :: k in Pruned(hits, cutoff) ==> Pruned(hits, cutoff)[k] != []
  {
  }

  lemma LeftTwice(key: Key, a: Table, b: Table, c: Table, cutoff: real)
    requires LeftFor(key, a, b, cutoff) && LeftFor(key, b, c, cutoff)
    ensures LeftFor(key, a, c, cutoff)
  {
  }

  lemma TableSizes(hits: Table, key: Key, q: Hits)
    ensures key in hits ==> |hits - {key}| == |hits| - 1
    ensures key !in hits ==> |hits[key := q]| == |hits| + 1
  {
    if key in hits {
      assert hits.Keys == (hits - {key}).Keys + {key};
      assert |hits.Keys| == |(hits - {key}).Keys| + 1;
    } else {
      assert hits[key := q].Keys == hits.Keys + {key};
      assert |hits[key := q].Keys| == |hits.Keys| + 1;
    }
  }

  /** One bucket replaced by what settling a check leaves in it. */
  lemma SettleKeeps(hits: Table, log: Table, evicted: set<Key>, horizon: real, key: Key, dropped: Hits, kept: Hits, now: real)
    requires Tracks(hits, log, evicted, horizon) && key in hits && hits[key] == dropped + kept
    requires forall i :: 0 <= i < |dropped| ==> dropped[i] < horizon
    ensures Tracks(hits[key := kept], log, evicted, horizon)
    ensures Tracks(hits[key := kept + [now]], log[key := Of(log, key) + [now]], evicted, horizon)
  {
    forall k | k !in evicted
      ensures TailOf(Of(log, k), Of(hits[key := kept], k), horizon)
      ensures TailOf(Of(log[key := Of(log, key) + [now]], k), Of(hits[key := kept + [now]], k), horizon)
    {
      assert TailOf(Of(log, k), Of(hits, k), horizon);
      if k == key {
        TailTrims(Of(log, key), dropped, kept, horizon);
        TailExtends(Of(log, key), kept, horizon, now);
      }
    }
  }

  lemma HorizonGrows(hits: Table, log: Table, evicted: set<Key>, horizon: real, later: real, limit: nat, clock: real, now: real)
    requires Tracks(hits, log, evicted, horizon) && horizon <= later && BucketsOk(hits, limit, clock) && clock <= now
    ensures Tracks(hits, log, evicted, later) && BucketsOk(hits, limit, now)
  {
    forall k | k !in evicted ensures TailOf(Of(log, k), Of(hits, k), later) {
      assert TailOf(Of(log, k), Of(hits, k), horizon);
    }
  }

  class Limiter {
    const limit: nat
    const window: int
    const maxKeys: nat
    var hits: Table
    var checks: nat
    /** History: every hit ever allowed, the keys evicted for room, and the clock. */
    ghost var log: Table
    ghost var evicted: set<Key>
    ghost var clock: real

    ghost predicate Valid()
      reads this
    {
      && limit >= 1 && window >= 1 && maxKeys >= 1 && |hits| <= maxKeys
      && BucketsOk(hits, limit, clock)
      && Tracks(hits, log, evicted, clock - window as real)
      && forall key :: key in hits ==> hits[key] != []
    }

    constructor (limit: nat, window: int, maxKeys: nat)
      requires limit >= 1 && window >= 1 && maxKeys >= 1
      ensures Valid() && hits == map[] && log == map[] && evicted == {}
      ensures this.limit == limit && this.window == window && this.maxKeys == maxKeys
    {
      this.limit, this.window, this.maxKeys := limit, window, maxKeys;
      hits, checks := map[], 0;
      log, evicted, clock := map[], {}, 0.0;
    }

    method Reset()
      requires Valid()
      modifies this
      ensures Valid() && hits == map[] && log == map[] && evicted == {}
    {
      hits, checks := map[], 0;
      log, evicted := map[], {};
    }

    /** Buckets whose newest hit is too old hold nothing that still counts. */
    method PruneStaleKeys(cutoff: real)
      modifies `hits
      ensures hits == Pruned(old(hits), cutoff)
    {
      var stale := set key | key in hits && (hits[key] == [] || hits[key][|hits[key]| - 1] < cutoff);
      hits := hits - stale;
    }

    /** The key whose newest hit is the least recent. */
    method OldestKey() returns (oldest: Key)
      requires hits != map[] && forall key :: key in hits ==> hits[key] != []
      ensures oldest in hits
      ensures forall key :: key in hits ==> hits[oldest][|hits[oldest]| - 1] <= hits[key][|hits[key]| - 1]
    {
      var left := hits.Keys;
      oldest :| oldest in left;
      left := left - {oldest};
      while left != {}
        invariant left <= hits.Keys && oldest in hits
        invariant forall key :: key in hits && key !in left ==> hits[oldest][|hits[oldest]| - 1] <= hits[key][|hits[key]| - 1]
        decreases |left|
      {
        var key :| key in left;
        left := left - {key};
        if hits[key][|hits[key]| - 1] < hits[oldest][|hits[oldest]| - 1] {
          oldest := key;
        }
      }
    }

    /** Reserve a bucket: expired ones go first, then at most the least recently used one. */
    method MakeRoomFor(key: Key, cutoff: real)
      requires maxKeys >= 1
      modifies `hits, `evicted
      ensures MadeRoom(old(hits), old(evicted), cutoff, key, hits, evicted, maxKeys)
    {
      if key in hits {
        return;
      }
      PruneStaleKeys(cutoff);
      ghost var pruned := hits;
      if |hits| >= maxKeys {
        var oldest := OldestKey();
        evicted := evicted + {oldest};
        hits := hits - {oldest};
        assert Evicts(pruned, oldest);
      }
      hits := hits[key := []];
    }

    /** Between making room and deciding: only this key's bucket may be empty or hold old hits. */
    ghost predicate Prepared(key: Key, now: real)
      reads this
    {
      && limit >= 1 && window >= 1 && maxKeys >= 1 && |hits| <= maxKeys && clock == now && key in hits
      && BucketsOk(hits, limit, now)
      && Tracks(hits, log, evicted, now - window as real)
      && forall k :: k in hits && k != key ==> hits[k] != []
    }

    method Prepare(key: Key, now: real)
      requires Valid() && clock <= now
      modifies `hits, `checks, `evicted, `clock
      ensures Prepared(key, now) && old(evicted) <= evicted && key !in evicted - old(evicted)
      ensures LeftFor(key, old(hits), hits, now - window as real)
    {
      hide BucketsOk, Tracks, MadeRoom, Pruned, LeftFor;
      var cutoff := now - window as real;
      HorizonGrows(hits, log, evicted, clock - window as real, cutoff, limit, clock, now);
      clock := now;
      checks := checks + 1;
      SameLeft(key, hits, cutoff);
      if checks % 256 == 0 {
        PrunedNonempty(hits, cutoff);
        PruneKeeps(hits, log, evicted, limit, now, cutoff);
        PruneLeaves(hits, limit, now, cutoff, key);
        PruneStaleKeys(cutoff);
      }
      ghost var before, was := hits, evicted;
      MakeRoomFor(key, cutoff);
      RoomLeaves(before, was, limit, now, cutoff, key, hits, evicted, maxKeys);
      LeftTwice(key, old(hits), before, hits, cutoff);
      RoomKeeps(before, log, was, limit, now, cutoff, key, hits, evicted, maxKeys);
    }

    method Decide(key: Key, now: real) returns (allowed: bool, retryAfter: int)
      requires Prepared(key, now)
      modifies `hits, `log
      ensures Valid()
      ensures allowed <==> CountFrom(old(hits)[key], now - window as real) < limit
      ensures key !in evicted ==> (allowed <==> CountFrom(Of(old(log), key), now - window as real) < limit)
      ensures forall k :: k in hits && k != key ==> k in old(hits) && hits[k] == old(hits)[k]
      ensures log == if allowed then old(log)[key := Of(old(log), key) + [now]] else old(log)
      ensures allowed ==> retryAfter == 0
      ensures !allowed ==> key in hits && |hits[key]| == limit && retryAfter == RetryAfter(hits[key][0], window, now)
    {
      hide BucketsOk, Tracks, CountFrom, RetryAfter;
      var cutoff := now - window as real;
      if key !in evicted {
        TrackedCount(hits, log, evicted, cutoff, key);
      }
      BucketSorted(hits, limit, now, key);
      var kept, dropped := DropOld(hits[key], cutoff);
      SettleKeeps(hits, log, evicted, cutoff, key, dropped, kept, now);
      BucketLeft(hits, limit, now, key, dropped, kept);
      SameSize(hits, key, kept);
      SameSize(hits, key, kept + [now]);
      allowed := |kept| < limit;
      if allowed {
        log := log[key := Of(log, key) + [now]];
        hits := hits[key := kept + [now]];
        retryAfter := 0;
      } else {
        hits := hits[key := kept];
        retryAfter := RetryAfter(kept[0], window, now);
      }
    }

    /** A key never evicted is allowed exactly when fewer than `limit` of its allowed hits lie
      * in [now - window, now]. */
    method Check(key: Key, now: real) returns (allowed: bool, retryAfter: int)
      requires Valid() && clock <= now
      modifies this
      ensures Valid() && clock == now && old(evicted) <= evicted && key !in evicted - old(evicted)
      ensures allowed <==> CountFrom(Of(old(hits), key), now - window as real) < limit
      ensures key !in old(evicted) ==> (allowed <==> CountFrom(Of(old(log), key), now - window as real) < limit)
      ensures forall k :: k in hits && k != key ==> k in old(hits) && hits[k] == old(hits)[k]
      ensures log == if allowed then old(log)[key := Of(old(log), key) + [now]] else old(log)
      ensures allowed ==> retryAfter == 0
      ensures !allowed ==> key in hits && |hits[key]| == limit && retryAfter == RetryAfter(hits[key][0], window, now)
    {
      Prepare(key, now);
      hide BucketsOk, Tracks, CountFrom, RetryAfter;
      allowed, retryAfter := Decide(key, now);
    }
  }

  lemma TrackedCount(hits: Table, log: Table, evicted: set<Key>, cutoff: real, key: Key)
    requires Tracks(hits, log, evicted, cutoff) && key in hits && key !in evicted
    ensures CountFrom(Of(log, key), cutoff) == CountFrom(hits[key], cutoff)
  {
    TailCounts(Of(log, key), hits[key], cutoff, cutoff);
  }

  lemma BucketSorted(hits: Table, limit: nat, clock: real, key: Key)
    requires BucketsOk(hits, limit, clock) && key in hits
    ensures Sorted(hits[key])
  {
    assert BucketOk(hits[key], limit, clock);
  }

  ghost predicate Evicts(pruned: Table, oldest: Key) {
    && oldest in pruned && pruned[oldest] != []
    && forall other :: other in pruned && pruned[other] != [] ==>
         pruned[oldest][|pruned[oldest]| - 1] <= pruned[other][|pruned[other]| - 1]
  }

  /** What making room does to the table and the set of evicted keys. */
  ghost predicate MadeRoom(hits: Table, evicted: set<Key>, cutoff: real, key: Key, after: Table, gone: set<Key>, maxKeys: nat) {
    if key in hits then after == hits && gone == evicted
    else
      var pruned := Pruned(hits, cutoff);
      if |pruned| < maxKeys then after == pruned[key := []] && gone == evicted
      else exists oldest :: Evicts(pruned, oldest) && after == (pruned - {oldest})[key := []] && gone == evicted + {oldest}
  }

  lemma RoomLeaves(
    hits: Table, evicted: set<Key>, limit: nat, clock: real, cutoff: real, key: Key, after: Table, gone: set<Key>, maxKeys: nat)
    requires BucketsOk(hits, limit, clock) && MadeRoom(hits, evicted, cutoff, key, after, gone, maxKeys)
    ensures LeftFor(key, hits, after, cutoff)
  {
    if key !in hits {
      PruneLeaves(hits, limit, clock, cutoff, key);
    }
  }

  lemma EvictKeeps(hits: Table, log: Table, evicted: set<Key>, limit: nat, clock: real, cutoff: real, oldest: Key)
    requires BucketsOk(hits, limit, clock) && Tracks(hits, log, evicted, cutoff)
    ensures BucketsOk(hits - {oldest}, limit, clock) && Tracks(hits - {oldest}, log, evicted + {oldest}, cutoff)
  {
    var after := hits - {oldest};
    forall k | k !in evicted + {oldest} ensures TailOf(Of(log, k), Of(after, k), cutoff) {
      assert TailOf(Of(log, k), Of(hits, k), cutoff);
    }
    hide BucketOk;
  }

  lemma OpenKeeps(hits: Table, log: Table, evicted: set<Key>, limit: nat, clock: real, cutoff: real, key: Key)
    requires BucketsOk(hits, limit, clock) && Tracks(hits, log, evicted, cutoff) && key !in hits
    ensures BucketsOk(hits[key := []], limit, clock) && Tracks(hits[key := []], log, evicted, cutoff)
  {
    var after := hits[key := []];
    forall k | k !in evicted ensures TailOf(Of(log, k), Of(after, k), cutoff) {
      assert TailOf(Of(log, k), Of(hits, k), cutoff);
    }
  }

  lemma RoomKeeps(
    hits: Table, log: Table, evicted: set<Key>, limit: nat, clock: real, cutoff: real,
    key: Key, after: Table, gone: set<Key>, maxKeys: nat)
    requires BucketsOk(hits, limit, clock) && Tracks(hits, log, evicted, cutoff) && |hits| <= maxKeys && maxKeys >= 1
    requires forall k :: k in hits ==> hits[k] != []
    requires MadeRoom(hits, evicted, cutoff, key, after, gone, maxKeys)
    ensures BucketsOk(after, limit, clock) && Tracks(after, log, gone, cutoff) && |after| <= maxKeys && key in after
    ensures forall k :: k in after && k != key ==> after[k] != []
    ensures evicted <= gone && key !in gone - evicted
  {
    hide BucketsOk, Tracks;
    if key !in hits {
      var pruned := Pruned(hits, cutoff);
      PruneKeeps(hits, log, evicted, limit, clock, cutoff);
      assert key !in pruned;
      if |pruned| >= maxKeys {
        var oldest :| Evicts(pruned, oldest) && after == (pruned - {oldest})[key := []] && gone == evicted + {oldest};
        TableSizes(pruned, oldest, []);
        TableSizes(pruned - {oldest}, key, []);
        EvictKeeps(pruned, log, evicted, limit, clock, cutoff, oldest);
        OpenKeeps(pruned - {oldest}, log, gone, limit, clock, cutoff, key);
      } else {
        TableSizes(pruned, key, []);
        OpenKeeps(pruned, log, evicted, limit, clock, cutoff, key);
      }
    }
  }

  /** The bucket a check leaves: trimmed, and one longer if the hit was allowed. */
  lemma BucketLeft(hits: Table, limit: nat, now: real, key: Key, dropped: Hits, kept: Hits)
    requires BucketsOk(hits, limit, now) && key in hits && hits[key] == dropped + kept && Sorted(kept)
    ensures |kept| <= limit
    ensures BucketsOk(hits[key := kept], limit, now)
    ensures |kept| < limit ==> BucketsOk(hits[key := kept + [now]], limit, now)
  {
    assert BucketOk(hits[key], limit, now);
    forall i | 0 <= i < |kept| ensures kept[i] <= now {
      assert hits[key][|dropped| + i] == kept[i];
    }
    assert |kept| < limit ==> BucketOk(kept + [now], limit, now);
  }

  lemma SameSize(hits: Table, key: Key, q: Hits)
    requires key in hits
    ensures |hits[key := q]| == |hits|
  {
    assert hits[key := q].Keys == hits.Keys;
    assert |hits[key := q]| == |hits[key := q].Keys| && |hits| == |hits.Keys|;
  }

  lemma TailTrims(log: Hits, dropped: Hits, kept: Hits, horizon: real)
    requires TailOf(log, dropped + kept, horizon) && forall i :: 0 <= i < |dropped| ==> dropped[i] < horizon
    ensures TailOf(log, kept, horizon)
  {
    var stored := dropped + kept;
    forall i | 0 <= i < |log| - |kept| ensures log[i] < horizon {
      if i >= |log| - |stored| {
        assert log[i] == stored[i - (|log| - |stored|)];
      }
    }
    assert log[|log| - |kept|..] == kept by {
      forall j | 0 <= j < |kept| ensures log[|log| - |kept|..][j] == kept[j] {
        assert stored[|dropped| + j] == log[|log| - |stored|..][|dropped| + j];
      }
    }
  }

  lemma TailExtends(log: Hits, kept: Hits, horizon: real, now: real)
    requires TailOf(log, kept, horizon)
    ensures TailOf(log + [now], kept + [now], horizon)
  {
    assert (log + [now])[|log| - |kept|..] == log[|log| - |kept|..] + [now];
  }

  // ----- Waiting -----

  /** Checks of other keys leave this key's bucket as it is, or take it away. */
  method CheckOthers(lim: Limiter, key: Key, others: seq<(Key, real)>, later: real)
    requires lim.Valid() && lim.clock <= later
    requires forall i :: 0 <= i < |others| ==> others[i].0 != key && lim.clock <= others[i].1 <= later
    requires forall i, j :: 0 <= i <= j < |others| ==> others[i].1 <= others[j].1
    modifies lim
    ensures lim.Valid() && lim.clock <= later
    ensures Of(lim.hits, key) == Of(old(lim.hits), key) || Of(lim.hits, key) == []
  {
    hide CountFrom, RetryAfter, BucketsOk, Tracks, Sorted, BucketOk, TailOf, Stale;
    var i := 0;
    while i < |others|
      invariant 0 <= i <= |others| && lim.Valid() && lim.clock <= later
      invariant i < |others| ==> lim.clock <= others[i].1
      invariant Of(lim.hits, key) == Of(old(lim.hits), key) || Of(lim.hits, key) == []
    {
      var _, _ := lim.Check(others[i].0, others[i].1);
      i := i + 1;
    }
  }

  /** A denied key that stays quiet is allowed once strictly more than the retry time has passed,
    * whatever other keys do meanwhile, and even if they push its bucket out of the table. */
  method QuietThenAllowed(lim: Limiter, key: Key, now: real, others: seq<(Key, real)>, later: real)
    returns (first: bool, retryAfter: int, second: bool)
    requires lim.Valid() && lim.clock <= now
    requires forall i :: 0 <= i < |others| ==> others[i].0 != key && now <= others[i].1 <= later
    requires forall i, j :: 0 <= i <= j < |others| ==> others[i].1 <= others[j].1
    requires now <= later
    modifies lim
    ensures lim.Valid()
    ensures !first && later > now + retryAfter as real ==> second
  {
    hide CountFrom, RetryAfter, BucketsOk, Tracks, Sorted, BucketOk, TailOf, Stale;
    first, retryAfter := lim.Check(key, now);
    ghost var bucket := Of(lim.hits, key);
    ghost var full := !first;
    if full {
      BucketSorted(lim.hits, lim.limit, lim.clock, key);
    }
    CheckOthers(lim, key, others, later);
    if full && later > now + retryAfter as real {
      RoomLater(bucket, Of(lim.hits, key), lim.limit, lim.window, now, later);
    }
    var allowed, _ := lim.Check(key, later);
    second := allowed;
  }

  lemma RoomLater(q: Hits, left: Hits, limit: nat, window: int, now: real, later: real)
    requires Sorted(q) && limit >= 1 && |q| == limit && (left == q || left == [])
    requires later > now + RetryAfter(q[0], window, now) as real
    ensures CountFrom(left, later - window as real) < limit
  {
    WaitingSuffices(q, limit, window, now, later);
    NoHitsCount(later - window as real);
  }

  lemma NoHitsCount(cutoff: real)
    ensures CountFrom([], cutoff) == 0
  {
  }


  lemma CeilingAbove(x: real)
    ensures x <= Ceiling(x) as real < x + 1.0
  {
  }

  /** A denied key that stays quiet is allowed once strictly more than `retryAfter` has passed. */
  lemma WaitingSuffices(q: Hits, limit: nat, window: int, now: real, later: real)
    requires Sorted(q) && limit >= 1 && |q| == limit
    requires later > now + RetryAfter(q[0], window, now) as real
    ensures CountFrom(q, later - window as real) < limit
  {
    var cutoff := later - window as real;
    CeilingAbove(q[0] + window as real - now);
    assert q[0] < cutoff;
    assert q == [q[0]] + q[1..];
    CountSplit([q[0]], q[1..], cutoff);
    CountNone([q[0]], cutoff);
    CountAtMost(q[1..], cutoff);
  }

  lemma {:induction false} CountAtMost(q: Hits, cutoff: real)
    ensures CountFrom(q, cutoff) <= |q|
  {
    if q != [] {
      CountAtMost(q[..|q| - 1], cutoff);
    }
  }

  /** One hit at zero, limit one, window sixty: sixty seconds later the key is still denied. */
  lemma EdgeStillCounts()
    ensures RetryAfter(0.0, 60, 0.0) == 60 && CountFrom([0.0], 0.0 + 60.0 - 60.0) == 1
  {
    assert Ceiling(60.0) == 60;
    CountAll([0.0], 0.0);
  }

  /** Waiting exactly `retryAfter` suffices iff that moment is past the oldest hit's window. */
  lemma WaitingExactly(q: Hits, limit: nat, window: int, now: real)
    requires Sorted(q) && limit >= 1 && |q| == limit && forall i :: 0 <= i < |q| ==> q[i] <= now
    ensures var wait := RetryAfter(q[0], window, now);
      CountFrom(q, now + wait as real - window as real) < limit <==> now + wait as real > q[0] + window as real
  {
    var cutoff := now + RetryAfter(q[0], window, now) as real - window as real;
    if q[0] < cutoff {
      assert q == [q[0]] + q[1..];
      CountSplit([q[0]], q[1..], cutoff);
      CountNone([q[0]], cutoff);
      CountAtMost(q[1..], cutoff);
    } else {
      CountAll(q, cutoff);
    }
  }
}
