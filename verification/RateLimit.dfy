// The fixed-window rate limiter: per-key buckets, and what they bound over every
// sliding window.
module RateLimit {
  import opened Prelude

  datatype Bucket = Bucket(count: nat, resetAt: int)

  datatype Hit = Hit(key: string, now: int)

  /** One call of `rateLimit`. */
  function Decide(buckets: map<string, Bucket>, hit: Hit, limit: int, windowMs: int): (map<string, Bucket>, bool)
  {
    if hit.key !in buckets || buckets[hit.key].resetAt <= hit.now
    then (buckets[hit.key := Bucket(1, hit.now + windowMs)], true)
    else
      var b := buckets[hit.key];
      (buckets[hit.key := b.(count := b.count + 1)], b.count + 1 <= limit)
  }

  class RateLimiter {
    var rateBuckets: map<string, Bucket>

    constructor ()
      ensures rateBuckets == map[]
    {
      rateBuckets := map[];
    }

    method RateLimit(key: string, limit: int, windowMs: int, now: int) returns (ok: bool)
      modifies this
      ensures (rateBuckets, ok) == Decide(old(rateBuckets), Hit(key, now), limit, windowMs)
    {
      if key !in rateBuckets || rateBuckets[key].resetAt <= now {
        rateBuckets := rateBuckets[key := Bucket(1, now + windowMs)];
        return true;
      }
      var b := rateBuckets[key];
      rateBuckets := rateBuckets[key := b.(count := b.count + 1)];
      ok := b.count + 1 <= limit;
    }
  }

  // ---- runs ----

  function Buckets(hits: seq<Hit>, limit: int, windowMs: int): map<string, Bucket>
  {
    if hits == [] then map[]
    else Decide(Buckets(hits[..|hits| - 1], limit, windowMs), hits[|hits| - 1], limit, windowMs).0
  }

  /** Whether the last hit of a run is admitted. */
  predicate Admitted(hits: seq<Hit>, limit: int, windowMs: int)
    requires hits != []
  {
    Decide(Buckets(hits[..|hits| - 1], limit, windowMs), hits[|hits| - 1], limit, windowMs).1
  }

  /** Hits of a key admitted from a time on. */
  function Since(hits: seq<Hit>, limit: int, windowMs: int, key: string, from: int): nat
  {
    if hits == [] then 0
    else
      var last := hits[|hits| - 1];
      Since(hits[..|hits| - 1], limit, windowMs, key, from) +
      if last.key == key && from <= last.now && Admitted(hits, limit, windowMs) then 1 else 0
  }

  /** Hits of a key admitted in the half-open interval. */
  function Between(hits: seq<Hit>, limit: int, windowMs: int, key: string, from: int, until: int): nat
  {
    if hits == [] then 0
    else
      var last := hits[|hits| - 1];
      Between(hits[..|hits| - 1], limit, windowMs, key, from, until) +
      if last.key == key && from <= last.now < until && Admitted(hits, limit, windowMs) then 1 else 0
  }

  ghost predicate ClockForward(hits: seq<Hit>)
  {
    forall i, j | 0 <= i < j < |hits| :: hits[i].now <= hits[j].now
  }

  /** The hit that opens a bucket is always admitted. */
  function Allowance(limit: int): int { Max(limit, 1) }

  // ---- the current bucket of a key ----

  ghost predicate Opened(hits: seq<Hit>, key: string, at: int) { exists i :: 0 <= i < |hits| && hits[i] == Hit(key, at) }

  ghost predicate AllBefore(hits: seq<Hit>, key: string, t: int)
  {
    forall i | 0 <= i < |hits| && hits[i].key == key :: hits[i].now < t
  }

  /** What a bucket opened at `open` has let through: exactly as counted since it
      opened, one less strictly after, and, from less than a window before it
      opened, at most one short of a full allowance more. */
  ghost predicate BucketOk(hits: seq<Hit>, limit: int, windowMs: int, key: string, b: Bucket)
  {
    var open, admitted := b.resetAt - windowMs, Min(b.count, Allowance(limit));
    b.count >= 1 && Opened(hits, key, open) && AllBefore(hits, key, b.resetAt) &&
    Since(hits, limit, windowMs, key, open) == admitted &&
    (forall t | t > open :: Since(hits, limit, windowMs, key, t) <= admitted - 1) &&
    (forall t | t > open - windowMs :: Since(hits, limit, windowMs, key, t) <= Allowance(limit) - 1 + admitted)
  }

  ghost predicate KeyOk(hits: seq<Hit>, limit: int, windowMs: int, key: string)
  {
    var buckets := Buckets(hits, limit, windowMs);
    if key in buckets then BucketOk(hits, limit, windowMs, key, buckets[key])
    else forall i | 0 <= i < |hits| :: hits[i].key != key
  }

  lemma {:induction false} NoneSince(hits: seq<Hit>, limit: int, windowMs: int, key: string, t: int)
    requires AllBefore(hits, key, t)
    ensures Since(hits, limit, windowMs, key, t) == 0
    decreases |hits|
  {
    if hits != [] { NoneSince(hits[..|hits| - 1], limit, windowMs, key, t); }
  }

  /** The last hit opens a bucket for its key. */
  lemma {:induction false} OpensBucket(hits: seq<Hit>, limit: int, windowMs: int)
    requires hits != [] && windowMs > 0 && ClockForward(hits)
    requires var init, last := hits[..|hits| - 1], hits[|hits| - 1];
             KeyOk(init, limit, windowMs, last.key) &&
             (last.key in Buckets(init, limit, windowMs) ==> Buckets(init, limit, windowMs)[last.key].resetAt <= last.now)
    ensures KeyOk(hits, limit, windowMs, hits[|hits| - 1].key)
  {
    hide Buckets;
    var init, last := hits[..|hits| - 1], hits[|hits| - 1];
    var key := last.key;
    var buckets := Buckets(init, limit, windowMs);
    assert AllBefore(init, key, last.now);
    assert hits[|hits| - 1] == Hit(key, last.now);
    LastHit(hits, limit, windowMs);
    NoneSince(init, limit, windowMs, key, last.now);
    forall t | t > last.now
      ensures Since(hits, limit, windowMs, key, t) <= 0
    {
      NoneSince(init, limit, windowMs, key, t);
    }
    forall t | t > last.now - windowMs
      ensures Since(hits, limit, windowMs, key, t) <= Allowance(limit)
    {
      if key in buckets {
        assert t > buckets[key].resetAt - windowMs;
      } else {
        NoneSince(init, limit, windowMs, key, t);
      }
    }
  }

  /** The last hit counts against the open bucket of its key. */
  lemma {:induction false} CountsAgainstBucket(hits: seq<Hit>, limit: int, windowMs: int)
    requires hits != [] && windowMs > 0 && ClockForward(hits)
    requires var init, last := hits[..|hits| - 1], hits[|hits| - 1];
             KeyOk(init, limit, windowMs, last.key) &&
             last.key in Buckets(init, limit, windowMs) && Buckets(init, limit, windowMs)[last.key].resetAt > last.now
    ensures KeyOk(hits, limit, windowMs, hits[|hits| - 1].key)
  {
    hide Buckets;
    var init, last := hits[..|hits| - 1], hits[|hits| - 1];
    var key := last.key;
    var b := Buckets(init, limit, windowMs)[key];
    var open := b.resetAt - windowMs;
    LastHit(hits, limit, windowMs);
    var i :| 0 <= i < |init| && init[i] == Hit(key, open);
    assert hits[i] == Hit(key, open) && open <= last.now;
    assert Opened(hits, key, open);
    var more := if b.count + 1 <= limit then 1 else 0;
    assert Admitted(hits, limit, windowMs) <==> more == 1;
    assert Min(b.count + 1, Allowance(limit)) == Min(b.count, Allowance(limit)) + more;
    forall t
      ensures Since(init, limit, windowMs, key, t) <= Since(hits, limit, windowMs, key, t)
                <= Since(init, limit, windowMs, key, t) + more
    {
    }
    assert BucketOk(hits, limit, windowMs, key, b.(count := b.count + 1));
  }

  /** The buckets after a run are those after all but its last hit, moved by that hit. */
  lemma {:induction false} LastHit(hits: seq<Hit>, limit: int, windowMs: int)
    requires hits != []
    ensures var init, last := hits[..|hits| - 1], hits[|hits| - 1];
            Buckets(hits, limit, windowMs) == Decide(Buckets(init, limit, windowMs), last, limit, windowMs).0
  {
  }

  lemma {:induction false} OtherKey(hits: seq<Hit>, limit: int, windowMs: int, key: string)
    requires hits != [] && hits[|hits| - 1].key != key && KeyOk(hits[..|hits| - 1], limit, windowMs, key)
    ensures KeyOk(hits, limit, windowMs, key)
  {
    var init := hits[..|hits| - 1];
    var buckets := Buckets(init, limit, windowMs);
    assert forall t :: Since(hits, limit, windowMs, key, t) == Since(init, limit, windowMs, key, t);
    if key in buckets {
      var open := buckets[key].resetAt - windowMs;
      var i :| 0 <= i < |init| && init[i] == Hit(key, open);
      assert hits[i] == Hit(key, open);
    }
  }

  lemma {:induction false} BucketsAreOk(hits: seq<Hit>, limit: int, windowMs: int, key: string)
    requires windowMs > 0 && ClockForward(hits)
    ensures KeyOk(hits, limit, windowMs, key)
    decreases |hits|
  {
    hide KeyOk, Buckets;
    if hits == [] {
      NoHits(limit, windowMs, key);
    } else {
      var init, last := hits[..|hits| - 1], hits[|hits| - 1];
      BucketsAreOk(init, limit, windowMs, key);
      if last.key != key {
        OtherKey(hits, limit, windowMs, key);
      } else if key in Buckets(init, limit, windowMs) && Buckets(init, limit, windowMs)[key].resetAt > last.now {
        CountsAgainstBucket(hits, limit, windowMs);
      } else {
        OpensBucket(hits, limit, windowMs);
      }
    }
  }

  lemma {:induction false} NoHits(limit: int, windowMs: int, key: string)
    ensures KeyOk([], limit, windowMs, key)
  {
  }

  // ---- the bound ----

  lemma {:induction false} BetweenAtMostSince(hits: seq<Hit>, limit: int, windowMs: int, key: string, from: int, until: int)
    ensures Between(hits, limit, windowMs, key, from, until) <= Since(hits, limit, windowMs, key, from)
    decreases |hits|
  {
    if hits != [] { BetweenAtMostSince(hits[..|hits| - 1], limit, windowMs, key, from, until); }
  }

  lemma {:induction false} EmptyInterval(hits: seq<Hit>, limit: int, windowMs: int, key: string, from: int, until: int)
    requires until <= from
    ensures Between(hits, limit, windowMs, key, from, until) == 0
    decreases |hits|
  {
    if hits != [] { EmptyInterval(hits[..|hits| - 1], limit, windowMs, key, from, until); }
  }

  /** Every half-open interval of one window's length admits at most twice the
      limit less one, wherever it starts. */
  lemma {:induction false} SlidingWindowBound(hits: seq<Hit>, limit: int, windowMs: int, key: string, from: int)
    requires ClockForward(hits)
    ensures Between(hits, limit, windowMs, key, from, from + windowMs) <= 2 * Allowance(limit) - 1
    decreases |hits|
  {
    hide Buckets;
    if windowMs <= 0 {
      EmptyInterval(hits, limit, windowMs, key, from, from + windowMs);
    } else if hits != [] {
      var last := hits[|hits| - 1];
      BucketsAreOk(hits, limit, windowMs, key);
      if last.key == key && from <= last.now < from + windowMs {
        BetweenAtMostSince(hits, limit, windowMs, key, from, from + windowMs);
        KeyOfLast(hits, limit, windowMs);
      } else {
        SlidingWindowBound(hits[..|hits| - 1], limit, windowMs, key, from);
      }
    }
  }

  /** The key of the last hit has a bucket, opened by now. */
  lemma {:induction false} KeyOfLast(hits: seq<Hit>, limit: int, windowMs: int)
    requires hits != [] && windowMs > 0 && ClockForward(hits) && KeyOk(hits, limit, windowMs, hits[|hits| - 1].key)
    ensures var buckets, last := Buckets(hits, limit, windowMs), hits[|hits| - 1];
            last.key in buckets && buckets[last.key].resetAt - windowMs <= last.now < buckets[last.key].resetAt
  {
  }

  /** A refusal means the key's bucket opened less than a window ago and exactly
      the limit has been admitted since. */
  lemma {:induction false} RefusalMeansFull(hits: seq<Hit>, limit: int, windowMs: int)
    requires hits != [] && windowMs > 0 && ClockForward(hits) && !Admitted(hits, limit, windowMs)
    ensures var init, last := hits[..|hits| - 1], hits[|hits| - 1];
            exists open :: last.now - windowMs < open <= last.now && Opened(init, last.key, open) &&
                           Since(init, limit, windowMs, last.key, open) == Allowance(limit)
  {
    hide Buckets, Since;
    var init, last := hits[..|hits| - 1], hits[|hits| - 1];
    BucketsAreOk(init, limit, windowMs, last.key);
    var b := Buckets(init, limit, windowMs)[last.key];
    var open := b.resetAt - windowMs;
    assert Opened(init, last.key, open);
    assert b.count >= Allowance(limit);
    var i :| 0 <= i < |init| && init[i] == Hit(last.key, open);
    assert hits[i].now <= last.now;
  }

  // ---- the bound is tight ----

  function Burst(n: nat, t: int): seq<Hit> { seq(n, i => Hit("k", t)) }

  /** One hit opens a bucket, `k` more come just before it ends, and `m` when it has. */
  function Wave(windowMs: int, k: nat, m: nat): seq<Hit>
  {
    [Hit("k", 0)] + Burst(k, windowMs - 1) + Burst(m, windowMs)
  }

  lemma {:induction false} WaveGrows(windowMs: int, k: nat, m: nat)
    ensures Wave(windowMs, 0, 0) == [Hit("k", 0)]
    ensures Wave(windowMs, k + 1, 0) == Wave(windowMs, k, 0) + [Hit("k", windowMs - 1)]
    ensures Wave(windowMs, k, m + 1) == Wave(windowMs, k, m) + [Hit("k", windowMs)]
  {
    assert Burst(k + 1, windowMs - 1) == Burst(k, windowMs - 1) + [Hit("k", windowMs - 1)];
    assert Burst(m + 1, windowMs) == Burst(m, windowMs) + [Hit("k", windowMs)];
    assert Burst(0, windowMs) == [] && Burst(0, windowMs - 1) == [];
  }

  lemma {:induction false} LastOfRun(hits: seq<Hit>, hit: Hit, limit: int, windowMs: int, from: int, until: int)
    ensures var all, next := hits + [hit], Decide(Buckets(hits, limit, windowMs), hit, limit, windowMs);
            Buckets(all, limit, windowMs) == next.0 &&
            Between(all, limit, windowMs, "k", from, until) ==
              Between(hits, limit, windowMs, "k", from, until) + if hit.key == "k" && from <= hit.now < until && next.1 then 1 else 0
  {
    assert (hits + [hit])[..|hits|] == hits;
  }

  lemma {:induction false} WaveAdmits(limit: int, windowMs: int, k: nat, m: nat)
    requires windowMs >= 2 && k < limit && m <= limit
    ensures var hits := Wave(windowMs, k, m);
            Buckets(hits, limit, windowMs) == map["k" := if m == 0 then Bucket(1 + k, windowMs) else Bucket(m, 2 * windowMs)] &&
            Between(hits, limit, windowMs, "k", windowMs - 1, 2 * windowMs - 1) == k + m
    decreases k + m
  {
    hide Buckets, Between, Wave;
    var from := windowMs - 1;
    if m > 0 {
      WaveAdmits(limit, windowMs, k, m - 1);
      WaveGrows(windowMs, k, m - 1);
      LastOfRun(Wave(windowMs, k, m - 1), Hit("k", windowMs), limit, windowMs, from, from + windowMs);
    } else if k > 0 {
      WaveAdmits(limit, windowMs, k - 1, 0);
      WaveGrows(windowMs, k - 1, 0);
      LastOfRun(Wave(windowMs, k - 1, 0), Hit("k", windowMs - 1), limit, windowMs, from, from + windowMs);
    } else {
      WaveGrows(windowMs, 0, 0);
      NothingYet(limit, windowMs, from);
      LastOfRun([], Hit("k", 0), limit, windowMs, from, from + windowMs);
      assert [] + [Hit("k", 0)] == [Hit("k", 0)];
    }
  }

  lemma {:induction false} NothingYet(limit: int, windowMs: int, from: int)
    ensures Buckets([], limit, windowMs) == map[] && Between([], limit, windowMs, "k", from, from + windowMs) == 0
  {
  }

  /** For every limit from 1 and every window from 2 on, a run reaches the bound. */
  lemma {:induction false} BoundIsReached(limit: int, windowMs: int)
    requires limit >= 1 && windowMs >= 2
    ensures var hits := Wave(windowMs, limit - 1, limit);
            ClockForward(hits) &&
            Between(hits, limit, windowMs, "k", windowMs - 1, 2 * windowMs - 1) == 2 * Allowance(limit) - 1
  {
    WaveAdmits(limit, windowMs, limit - 1, limit);
  }

  /** With windows of one millisecond no interval of that length admits more than one bucket's worth. */
  lemma {:induction false} ShortestWindow(hits: seq<Hit>, limit: int, key: string, from: int)
    requires ClockForward(hits)
    ensures Between(hits, limit, 1, key, from, from + 1) <= Allowance(limit)
    decreases |hits|
  {
    hide Buckets;
    if hits != [] {
      BucketsAreOk(hits, limit, 1, key);
      if hits[|hits| - 1].key == key && hits[|hits| - 1].now == from {
        BetweenAtMostSince(hits, limit, 1, key, from, from + 1);
        KeyOfLast(hits, limit, 1);
      } else {
        ShortestWindow(hits[..|hits| - 1], limit, key, from);
      }
    }
  }
}
