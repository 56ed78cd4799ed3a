/** The token-bucket limiter (knowledge_desk/ratelimit.py), over real time. */
module RateLimit {
  import opened Text

  type Name = string

  datatype Bucket = Bucket(tokens: real, last: real)

  type Buckets = map<Name, Bucket>

  /** `burst` tokens at most, `rate` more per second. */
  datatype Limit = Limit(burst: real, rate: real)

  const EVICT_AFTER: real := 3600.0
  const SWEEP_ABOVE: nat := 1000

  function Min(a: real, b: real): real {
    if a <= b then a else b
  }

  /** What accrues in `t` seconds. */
  function Refill(l: Limit, t: real): real {
    t * l.rate
  }

  function Get(m: Buckets, key: Name): Option<Bucket> {
    if key in m then Some(m[key]) else None
  }

  /** The tokens of a bucket at `now`; a key not held has a full one. */
  function Level(l: Limit, b: Option<Bucket>, now: real): real {
    if b.None? then l.burst else Min(l.burst, b.value.tokens + Refill(l, now - b.value.last))
  }

  predicate Idle(b: Bucket, now: real) {
    b.last < now - EVICT_AFTER
  }

  function Evicted(m: Buckets, now: real): Buckets {
    map key | key in m && !Idle(m[key], now) :: m[key]
  }

  /** What a check first does to the table. */
  function Swept(m: Buckets, now: real): Buckets {
    if |m| > SWEEP_ABOVE then Evicted(m, now) else m
  }

  predicate Allows(l: Limit, b: Option<Bucket>, now: real) {
    Level(l, b, now) >= 1.0
  }

  /** The bucket a check leaves. */
  function Spent(l: Limit, b: Option<Bucket>, now: real): Bucket {
    Bucket(if Allows(l, b, now) then Level(l, b, now) - 1.0 else Level(l, b, now), now)
  }

  function RetryAfter(l: Limit, b: Option<Bucket>, now: real): real {
    if Allows(l, b, now) then 0.0
    else if l.rate > 0.0 then (1.0 - Level(l, b, now)) / l.rate
    else 60.0
  }

  function Checked(l: Limit, m: Buckets, key: Name, now: real): Buckets {
    m[key := Spent(l, Get(m, key), now)]
  }

  class TokenBucketLimiter {
    var buckets: Buckets

    constructor ()
      ensures buckets == map[]
    {
      buckets := map[];
    }

    method EvictIdle(now: real)
      modifies this
      ensures buckets == Evicted(old(buckets), now)
    {
      var idle := set key | key in buckets && Idle(buckets[key], now);
      while idle != {}
        invariant forall key :: key in buckets ==> key in old(buckets)
        invariant forall key :: key in old(buckets) ==>
                    (key in buckets <==> (Idle(old(buckets)[key], now) ==> key in idle))
        invariant forall key :: key in buckets ==> buckets[key] == old(buckets)[key]
        invariant forall key :: key in idle ==> key in old(buckets) && Idle(old(buckets)[key], now)
        decreases |idle|
      {
        var key :| key in idle;
        buckets := buckets - {key};
        idle := idle - {key};
      }
    }

    method Check(key: Name, burst: int, perMinute: int, now: real) returns (allowed: bool, retry: real)
      modifies this
      ensures var l := Limit(burst as real, perMinute as real / 60.0);
              var swept := Swept(old(buckets), now);
              && buckets == Checked(l, swept, key, now)
              && allowed == Allows(l, Get(swept, key), now)
              && retry == RetryAfter(l, Get(swept, key), now)
    {
      var rate := perMinute as real / 60.0;
      if |buckets| > SWEEP_ABOVE {
        EvictIdle(now);
      }
      var tokens, last := burst as real, now;
      if key in buckets {
        tokens, last := buckets[key].tokens, buckets[key].last;
      }
      assert last == now ==> (now - last) * rate == 0.0;
      tokens := Min(burst as real, tokens + (now - last) * rate);
      assert tokens == Level(Limit(burst as real, rate), Get(buckets, key), now);
      if tokens >= 1.0 {
        buckets := buckets[key := Bucket(tokens - 1.0, now)];
        return true, 0.0;
      }
      retry := if rate > 0.0 then (1.0 - tokens) / rate else 60.0;
      buckets := buckets[key := Bucket(tokens, now)];
      return false, retry;
    }
  }

  // ---- levels over time --------------------------------------------------------------

  predicate LimitOk(l: Limit) { l.burst >= 1.0 && l.rate > 0.0 }

  /** The buckets a limiter holds at `now`. */
  predicate BucketOk(l: Limit, b: Bucket, now: real) {
    0.0 <= b.tokens <= l.burst && b.last <= now
  }

  ghost predicate BucketsOk(l: Limit, m: Buckets, now: real) {
    forall key :: key in m ==> BucketOk(l, m[key], now)
  }

  lemma RefillAdds(l: Limit, s: real, t: real)
    ensures Refill(l, s + t) == Refill(l, s) + Refill(l, t)
  {
  }

  lemma RefillGrows(l: Limit, s: real, t: real)
    requires l.rate >= 0.0 && s <= t
    ensures Refill(l, s) <= Refill(l, t)
    ensures s >= 0.0 ==> Refill(l, s) >= 0.0
  {
    assert t * l.rate - s * l.rate == (t - s) * l.rate;
  }

  /** From `now` to a later time a level rises by what accrues, up to the cap. */
  lemma LevelRises(l: Limit, b: Option<Bucket>, now: real, later: real)
    requires l.rate >= 0.0 && now <= later && (b.Some? ==> b.value.last <= now)
    ensures Level(l, b, now) <= Level(l, b, later) <= l.burst
    ensures Level(l, b, later) == Min(l.burst, Level(l, b, now) + Refill(l, later - now))
  {
    RefillGrows(l, 0.0, later - now);
    if b.Some? {
      RefillAdds(l, now - b.value.last, later - now);
      assert later - b.value.last == (now - b.value.last) + (later - now);
    }
  }

  /** What a check leaves, seen at any later time. */
  lemma LevelAfterCheck(l: Limit, b: Option<Bucket>, now: real)
    requires l.burst >= 0.0 && l.rate >= 0.0 && (b.Some? ==> BucketOk(l, b.value, now))
    ensures BucketOk(l, Spent(l, b, now), now)
    ensures Level(l, Some(Spent(l, b, now)), now) == Level(l, b, now) - (if Allows(l, b, now) then 1.0 else 0.0)
  {
    assert Refill(l, 0.0) == 0.0;
    if b.Some? {
      RefillGrows(l, 0.0, now - b.value.last);
    }
  }

  // ---- eviction ----------------------------------------------------------------------

  /** Dropping an idle bucket cannot be noticed. */
  ghost predicate Invisible(l: Limit) {
    forall b, now :: Idle(b, now) && 0.0 <= b.tokens <= l.burst ==> Level(l, Some(b), now) == Level(l, None, now)
  }

  lemma LongIdleIsFull(l: Limit, b: Bucket, now: real)
    requires l.rate > 0.0 && Refill(l, EVICT_AFTER) >= l.burst && Idle(b, now) && b.tokens >= 0.0
    ensures Level(l, Some(b), now) == l.burst
  {
    RefillGrows(l, EVICT_AFTER, now - b.last);
  }

  /** Eviction is invisible exactly when an hour's refill covers the burst. */
  lemma EvictionInvisibleIff(l: Limit)
    requires LimitOk(l)
    ensures Invisible(l) <==> EVICT_AFTER * l.rate >= l.burst
  {
    if Refill(l, EVICT_AFTER) >= l.burst {
      forall b: Bucket, now: real | Idle(b, now) && 0.0 <= b.tokens <= l.burst
        ensures Level(l, Some(b), now) == Level(l, None, now)
      {
        LongIdleIsFull(l, b, now);
      }
    } else {
      var short := l.burst - Refill(l, EVICT_AFTER);
      var more := short / (2.0 * l.rate);
      var b := Bucket(0.0, 0.0 - EVICT_AFTER - more);
      RefillAdds(l, EVICT_AFTER, more);
      HalfOf(short, l.rate);
      assert Idle(b, 0.0) && Level(l, Some(b), 0.0) < l.burst;
    }
  }

  lemma HalfOf(short: real, rate: real)
    requires short > 0.0 && rate > 0.0
    ensures short / (2.0 * rate) > 0.0 && short / (2.0 * rate) * rate == short / 2.0
  {
  }

  // ---- waiting -----------------------------------------------------------------------

  /** A refused key that is left alone is admitted exactly from the reported time on: the claim
      the reported time makes. */
  ghost predicate RetryIsExact(l: Limit, b: Option<Bucket>, now: real) {
    var after := Some(Spent(l, b, now));
    forall later :: later >= now ==> (Allows(l, after, later) <==> later >= now + RetryAfter(l, b, now))
  }

  lemma Divides(x: real, rate: real, t: real)
    requires rate > 0.0
    ensures t * rate >= x <==> t >= x / rate
  {
    assert x / rate * rate == x;
    if t >= x / rate {
      assert (t - x / rate) * rate >= 0.0;
    } else {
      assert (x / rate - t) * rate > 0.0;
    }
  }

  /** The claim holds exactly when something accrues and a whole token fits the bucket. */
  lemma RetryIsExactIff(l: Limit, b: Option<Bucket>, now: real)
    requires l.rate >= 0.0 && (b.Some? ==> b.value.last <= now) && !Allows(l, b, now)
    ensures RetryIsExact(l, b, now) <==> LimitOk(l)
  {
    var after, level := Some(Spent(l, b, now)), Level(l, b, now);
    var retry := RetryAfter(l, b, now);
    assert Refill(l, 0.0) == 0.0;
    if LimitOk(l) {
      forall later: real | later >= now ensures Allows(l, after, later) <==> later >= now + retry {
        LevelRises(l, after, now, later);
        Divides(1.0 - level, l.rate, later - now);
      }
    } else {
      var later := if retry >= 0.0 then now + retry else now;
      NeverAllowed(l, after, now, later, level);
    }
  }

  lemma NeverAllowed(l: Limit, after: Option<Bucket>, now: real, later: real, level: real)
    requires l.rate >= 0.0 && !LimitOk(l) && now <= later && after == Some(Bucket(level, now)) && level < 1.0
    ensures !Allows(l, after, later)
  {
    if l.rate == 0.0 {
      assert Refill(l, later - now) == 0.0;
    }
  }

  // ---- the rate bound ----------------------------------------------------------------

  datatype Call = Call(key: Name, at: real)

  /** The calls come in the order of a monotone clock. */
  ghost predicate InTime(calls: seq<Call>) {
    forall i, j :: 0 <= i <= j < |calls| ==> calls[i].at <= calls[j].at
  }

  /** One check of the limiter, or of one that never evicts. */
  function StepOf(l: Limit, evicts: bool, m: Buckets, c: Call): Buckets {
    Checked(l, if evicts then Swept(m, c.at) else m, c.key, c.at)
  }

  function TableAfter(l: Limit, evicts: bool, calls: seq<Call>, n: nat): Buckets
    requires n <= |calls|
  {
    if n == 0 then map[] else StepOf(l, evicts, TableAfter(l, evicts, calls, n - 1), calls[n - 1])
  }

  /** Whether call `i` is allowed. */
  predicate AllowedAt(l: Limit, evicts: bool, calls: seq<Call>, i: nat)
    requires i < |calls|
  {
    var m := TableAfter(l, evicts, calls, i);
    Allows(l, Get(if evicts then Swept(m, calls[i].at) else m, calls[i].key), calls[i].at)
  }

  /** How many of the calls `i..j` of `key` are allowed. */
  function AllowedCount(l: Limit, evicts: bool, calls: seq<Call>, key: Name, i: nat, j: nat): nat
    requires i <= j <= |calls|
    decreases j
  {
    if i == j then 0
    else AllowedCount(l, evicts, calls, key, i, j - 1)
         + (if calls[j - 1].key == key && AllowedAt(l, evicts, calls, j - 1) then 1 else 0)
  }

  /** Sweeping shows in no level, now or later. */
  lemma SweepKeepsLevels(l: Limit, m: Buckets, key: Name, now: real)
    requires LimitOk(l) && EVICT_AFTER * l.rate >= l.burst && BucketsOk(l, m, now)
    ensures BucketsOk(l, Swept(m, now), now)
    ensures Level(l, Get(Swept(m, now), key), now) == Level(l, Get(m, key), now)
  {
    if key in m && Idle(m[key], now) {
      LongIdleIsFull(l, m[key], now);
    }
  }

  lemma TableStaysOk(l: Limit, evicts: bool, m: Buckets, c: Call)
    requires LimitOk(l) && BucketsOk(l, m, c.at)
    ensures BucketsOk(l, StepOf(l, evicts, m, c), c.at)
  {
    var swept := if evicts then Swept(m, c.at) else m;
    LevelAfterCheck(l, Get(swept, c.key), c.at);
  }

  lemma {:induction false} TableOk(l: Limit, evicts: bool, calls: seq<Call>, n: nat, now: real)
    requires LimitOk(l) && InTime(calls) && n <= |calls| && (n > 0 ==> calls[n - 1].at <= now)
    ensures BucketsOk(l, TableAfter(l, evicts, calls, n), now)
  {
    if n > 0 {
      TableOk(l, evicts, calls, n - 1, calls[n - 1].at);
      TableStaysOk(l, evicts, TableAfter(l, evicts, calls, n - 1), calls[n - 1]);
    }
  }

  /** One check lowers the level of its key by a token if it is allowed, and no other level. */
  lemma StepLevels(l: Limit, evicts: bool, m: Buckets, c: Call, key: Name)
    requires LimitOk(l) && (evicts ==> EVICT_AFTER * l.rate >= l.burst) && BucketsOk(l, m, c.at)
    ensures var swept := if evicts then Swept(m, c.at) else m;
            Level(l, Get(StepOf(l, evicts, m, c), key), c.at)
            == Level(l, Get(m, key), c.at) - (if c.key == key && Allows(l, Get(swept, key), c.at) then 1.0 else 0.0)
  {
    if evicts {
      SweepKeepsLevels(l, m, key, c.at);
    }
    var swept := if evicts then Swept(m, c.at) else m;
    LevelAfterCheck(l, Get(swept, c.key), c.at);
  }

  /** A bucket that has been idle for an hour counts as full if this is how fast it fills. */
  predicate Covers(l: Limit, evicts: bool, faster: Limit) {
    && faster.burst == l.burst && faster.rate >= l.rate
    && (evicts ==> EVICT_AFTER * faster.rate >= l.burst)
  }

  /** Filling faster never means fewer tokens. */
  lemma FasterIsMore(l: Limit, faster: Limit, b: Option<Bucket>, now: real)
    requires l.rate >= 0.0 && faster.burst == l.burst && faster.rate >= l.rate && (b.Some? ==> b.value.last <= now)
    ensures Level(l, b, now) <= Level(faster, b, now) <= l.burst
  {
    if b.Some? {
      FasterFills(l, faster, now - b.value.last);
    }
  }

  lemma FasterFills(l: Limit, faster: Limit, t: real)
    requires t >= 0.0 && l.rate <= faster.rate
    ensures Refill(l, t) <= Refill(faster, t)
  {
    Product(t, l.rate, faster.rate);
  }

  lemma Product(t: real, slow: real, fast: real)
    requires t >= 0.0 && slow <= fast
    ensures t * slow <= t * fast
  {
    var more := fast - slow;
    assert t * more >= 0.0;
    assert t * (slow + more) == t * slow + t * more;
  }

  /** Sweeping does not raise the level as the faster limit counts it. */
  lemma SweepIsCounted(l: Limit, evicts: bool, faster: Limit, m: Buckets, key: Name, now: real)
    requires LimitOk(l) && Covers(l, evicts, faster) && BucketsOk(l, m, now)
    ensures var swept := if evicts then Swept(m, now) else m;
            BucketsOk(l, swept, now) && Level(faster, Get(swept, key), now) == Level(faster, Get(m, key), now)
  {
    if evicts && key in m && Idle(m[key], now) {
      LongIdleIsFull(faster, m[key], now);
    }
  }

  /** One check takes at least a token off the level as the faster limit counts it if it is
      allowed, and never adds one. */
  lemma StepIsCounted(l: Limit, evicts: bool, faster: Limit, m: Buckets, c: Call, key: Name)
    requires LimitOk(l) && Covers(l, evicts, faster) && BucketsOk(l, m, c.at)
    ensures var swept := if evicts then Swept(m, c.at) else m;
            Level(faster, Get(StepOf(l, evicts, m, c), key), c.at)
            <= Level(faster, Get(m, key), c.at)
               - (if c.key == key && Allows(l, Get(swept, key), c.at) then 1.0 else 0.0)
  {
    var swept := if evicts then Swept(m, c.at) else m;
    SweepIsCounted(l, evicts, faster, m, key, c.at);
    if c.key == key {
      LevelAfterCheck(l, Get(swept, key), c.at);
      FasterIsMore(l, faster, Get(swept, key), c.at);
      assert Refill(faster, 0.0) == 0.0 && Refill(l, 0.0) == 0.0;
    }
  }

  lemma CountedIsNotNegative(l: Limit, faster: Limit, m: Buckets, key: Name, now: real)
    requires LimitOk(l) && faster.burst == l.burst && faster.rate >= l.rate && BucketsOk(l, m, now)
    ensures 0.0 <= Level(faster, Get(m, key), now) <= l.burst
  {
    if key in m {
      RefillGrows(faster, 0.0, now - m[key].last);
    }
  }

  /** What has been allowed since call `i`, and what could be allowed at once, was there at the
      start or has accrued since, as the faster limit counts it. */
  lemma {:induction false} Bounded(l: Limit, evicts: bool, faster: Limit, calls: seq<Call>, key: Name, i: nat, j: nat)
    requires LimitOk(l) && Covers(l, evicts, faster) && InTime(calls) && i < j <= |calls|
    ensures AllowedCount(l, evicts, calls, key, i, j) as real
              + Level(faster, Get(TableAfter(l, evicts, calls, j), key), calls[j - 1].at)
            <= l.burst + Refill(faster, calls[j - 1].at - calls[i].at)
    decreases j
  {
    var m, c := TableAfter(l, evicts, calls, j - 1), calls[j - 1];
    TableOk(l, evicts, calls, j - 1, c.at);
    StepIsCounted(l, evicts, faster, m, c, key);
    CountedIsNotNegative(l, faster, m, key, c.at);
    if i == j - 1 {
      assert Refill(faster, 0.0) == 0.0;
    } else {
      var t := calls[j - 2].at;
      Bounded(l, evicts, faster, calls, key, i, j - 1);
      TableOk(l, evicts, calls, j - 1, t);
      LevelRises(faster, Get(m, key), t, c.at);
      RefillAdds(faster, t - calls[i].at, c.at - t);
    }
  }

  /** The rate a limiter really keeps to. One that evicts gives a key a full burst for every
      hour of silence, which can be more than the configured rate comes to. */
  function KeptRate(l: Limit, evicts: bool): real {
    if evicts && EVICT_AFTER * l.rate < l.burst then l.burst / EVICT_AFTER else l.rate
  }

  /** Whatever the other keys do, any stretch of calls over T seconds allows one key at most
      the burst plus T times the rate the limiter keeps to, which is the configured one unless
      it evicts and an hour's refill does not cover the burst. */
  lemma RateBound(l: Limit, evicts: bool, calls: seq<Call>, key: Name, i: nat, j: nat)
    requires LimitOk(l) && InTime(calls) && i < j <= |calls|
    ensures AllowedCount(l, evicts, calls, key, i, j) as real
            <= l.burst + Refill(Limit(l.burst, KeptRate(l, evicts)), calls[j - 1].at - calls[i].at)
  {
    var faster := Limit(l.burst, KeptRate(l, evicts));
    Bounded(l, evicts, faster, calls, key, i, j);
    TableOk(l, evicts, calls, j, calls[j - 1].at);
    CountedIsNotNegative(l, faster, TableAfter(l, evicts, calls, j), key, calls[j - 1].at);
  }

  /** Two tables that give a key the same level go on doing so, whether or not either sweeps. */
  lemma SameStep(l: Limit, m: Buckets, m': Buckets, c: Call, key: Name, now: real)
    requires LimitOk(l) && EVICT_AFTER * l.rate >= l.burst && c.at <= now
    requires BucketsOk(l, m, c.at) && BucketsOk(l, m', c.at)
    requires Level(l, Get(m, key), c.at) == Level(l, Get(m', key), c.at)
    ensures Level(l, Get(StepOf(l, true, m, c), key), now) == Level(l, Get(StepOf(l, false, m', c), key), now)
  {
    StepLevels(l, true, m, c, key);
    StepLevels(l, false, m', c, key);
    SweepKeepsLevels(l, m, key, c.at);
    TableStaysOk(l, true, m, c);
    TableStaysOk(l, false, m', c);
    LevelRises(l, Get(StepOf(l, true, m, c), key), c.at, now);
    LevelRises(l, Get(StepOf(l, false, m', c), key), c.at, now);
  }

  function LevelOf(l: Limit, evicts: bool, calls: seq<Call>, n: nat, key: Name, now: real): real
    requires n <= |calls|
  {
    Level(l, Get(TableAfter(l, evicts, calls, n), key), now)
  }

  lemma {:induction false} SameLevels(l: Limit, calls: seq<Call>, key: Name, n: nat, now: real)
    requires LimitOk(l) && EVICT_AFTER * l.rate >= l.burst
    requires InTime(calls) && n <= |calls| && (n > 0 ==> calls[n - 1].at <= now)
    ensures LevelOf(l, true, calls, n, key, now) == LevelOf(l, false, calls, n, key, now)
  {
    if n > 0 {
      var c, m, m' := calls[n - 1], TableAfter(l, true, calls, n - 1), TableAfter(l, false, calls, n - 1);
      SameLevels(l, calls, key, n - 1, c.at);
      TableOk(l, true, calls, n - 1, c.at);
      TableOk(l, false, calls, n - 1, c.at);
      SameStep(l, m, m', c, key, now);
    }
  }

  /** The bucket a call finds. */
  function Found(l: Limit, evicts: bool, calls: seq<Call>, i: nat): Option<Bucket>
    requires i < |calls|
  {
    var m := TableAfter(l, evicts, calls, i);
    Get(if evicts then Swept(m, calls[i].at) else m, calls[i].key)
  }

  /** Two buckets that a check treats alike. */
  predicate SameAnswer(l: Limit, b: Option<Bucket>, b': Option<Bucket>, now: real) {
    (Allows(l, b, now) <==> Allows(l, b', now)) && RetryAfter(l, b, now) == RetryAfter(l, b', now)
  }

  lemma SameLevelSameAnswer(l: Limit, b: Option<Bucket>, b': Option<Bucket>, now: real)
    requires Level(l, b, now) == Level(l, b', now)
    ensures SameAnswer(l, b, b', now)
  {
  }

  lemma FoundLevel(l: Limit, calls: seq<Call>, i: nat)
    requires LimitOk(l) && Refill(l, EVICT_AFTER) >= l.burst && InTime(calls) && i < |calls|
    ensures Level(l, Found(l, true, calls, i), calls[i].at) == Level(l, Found(l, false, calls, i), calls[i].at)
  {
    SameLevels(l, calls, calls[i].key, i, calls[i].at);
    TableOk(l, true, calls, i, calls[i].at);
    SweepKeepsLevels(l, TableAfter(l, true, calls, i), calls[i].key, calls[i].at);
  }

  /** When an hour's refill covers the burst, the limiter answers every call as one that never
      evicts would: the same verdict and the same time to wait. */
  lemma EvictionIsInvisible(l: Limit, calls: seq<Call>, i: nat)
    requires LimitOk(l) && Refill(l, EVICT_AFTER) >= l.burst && InTime(calls) && i < |calls|
    ensures SameAnswer(l, Found(l, true, calls, i), Found(l, false, calls, i), calls[i].at)
    ensures AllowedAt(l, true, calls, i) <==> AllowedAt(l, false, calls, i)
  {
    FoundLevel(l, calls, i);
    SameLevelSameAnswer(l, Found(l, true, calls, i), Found(l, false, calls, i), calls[i].at);
  }
}
