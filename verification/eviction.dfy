/** What eviction costs when an hour's refill does not cover the burst
    (knowledge_desk/ratelimit.py:23-53): a run that breaks the configured rate. */
module Eviction {
  import opened Text
  import opened RateLimit

  const OTHERS: nat := SWEEP_ABOVE + 1
  const KEY: Name := "k"

  /** The names of the other keys. */
  function Other(i: nat): (r: Name)
    ensures |r| == i + 2
  {
    if i == 0 then "kx" else Other(i - 1) + "x"
  }

  /** Enough other keys for the next check to sweep, then `b` calls of one key at once, and
      after `later` seconds `b` more. */
  function CallAt(b: nat, later: real, i: nat): Call {
    if i < OTHERS then Call(Other(i), 0.0)
    else if i < OTHERS + b then Call(KEY, 0.0)
    else Call(KEY, later)
  }

  function Calls(b: nat, later: real): (r: seq<Call>)
    ensures |r| == OTHERS + 2 * b && forall i :: 0 <= i < |r| ==> r[i] == CallAt(b, later, i)
  {
    seq(OTHERS + 2 * b, i requires 0 <= i => CallAt(b, later, i))
  }

  // ---- before the pause --------------------------------------------------------------

  /** Every bucket was used at time zero, so none is idle. */
  predicate AllAtZero(m: Buckets) {
    forall key :: key in m ==> m[key].last == 0.0
  }

  function Others(n: nat): set<Name> {
    set i: nat | i < n :: Other(i)
  }

  lemma {:induction false} OthersCount(n: nat)
    ensures |Others(n)| == n
  {
    if n > 0 {
      OthersCount(n - 1);
      assert Others(n) == Others(n - 1) + {Other(n - 1)};
    }
  }

  lemma NoneSwept(m: Buckets)
    requires AllAtZero(m)
    ensures Swept(m, 0.0) == m
  {
  }

  lemma StepAtZero(l: Limit, m: Buckets, key: Name)
    requires AllAtZero(m)
    ensures StepOf(l, true, m, Call(key, 0.0)) == m[key := Spent(l, Get(m, key), 0.0)]
    ensures AllAtZero(StepOf(l, true, m, Call(key, 0.0)))
  {
    NoneSwept(m);
  }

  predicate OthersIn(m: Buckets, n: nat) {
    AllAtZero(m) && m.Keys == Others(n)
  }

  lemma OneOther(l: Limit, m: Buckets, n: nat)
    requires OthersIn(m, n)
    ensures OthersIn(StepOf(l, true, m, Call(Other(n), 0.0)), n + 1)
  {
    OthersStep(n);
    OneKeyMore(l, m, Other(n));
  }

  lemma OthersStep(n: nat)
    ensures Others(n + 1) == Others(n) + {Other(n)}
  {
  }

  lemma OneKeyMore(l: Limit, m: Buckets, key: Name)
    requires AllAtZero(m)
    ensures AllAtZero(StepOf(l, true, m, Call(key, 0.0)))
    ensures StepOf(l, true, m, Call(key, 0.0)).Keys == m.Keys + {key}
  {
    StepAtZero(l, m, key);
  }

  lemma {:induction false} AfterOthers(l: Limit, b: nat, later: real, n: nat)
    requires n <= OTHERS
    ensures OthersIn(TableAfter(l, true, Calls(b, later), n), n)
  {
    if n > 0 {
      AfterOthers(l, b, later, n - 1);
      OneOther(l, TableAfter(l, true, Calls(b, later), n - 1), n - 1);
    }
  }

  /** The table when the key has been allowed `j` times. */
  ghost predicate Drained(m: Buckets, b: nat, j: nat) {
    && AllAtZero(m) && Others(OTHERS) <= m.Keys
    && (j == 0 ==> KEY !in m) && (j > 0 ==> KEY in m && m[KEY].tokens == (b - j) as real)
  }

  lemma DrainOne(l: Limit, m: Buckets, b: nat, j: nat)
    requires l.burst == b as real && j < b && Drained(m, b, j)
    ensures Allows(l, Get(Swept(m, 0.0), KEY), 0.0)
    ensures Drained(StepOf(l, true, m, Call(KEY, 0.0)), b, j + 1)
  {
    NoneSwept(m);
    StepAtZero(l, m, KEY);
    assert Refill(l, 0.0) == 0.0;
  }

  lemma {:induction false} AfterFirst(l: Limit, b: nat, later: real, j: nat)
    requires l.burst == b as real && j <= b
    ensures Drained(TableAfter(l, true, Calls(b, later), OTHERS + j), b, j)
  {
    if j == 0 {
      AfterOthers(l, b, later, OTHERS);
      assert forall i: nat :: Other(i) != KEY;
    } else {
      AfterFirst(l, b, later, j - 1);
      DrainOne(l, TableAfter(l, true, Calls(b, later), OTHERS + j - 1), b, j - 1);
    }
  }

  // ---- after it ----------------------------------------------------------------------

  /** The sweep drops every bucket there is. */
  lemma AllSwept(m: Buckets, now: real)
    requires AllAtZero(m) && Others(OTHERS) <= m.Keys && now > EVICT_AFTER
    ensures Swept(m, now) == map[]
  {
    OthersCount(OTHERS);
    SubsetSize(Others(OTHERS), m.Keys);
    assert |m| == |m.Keys|;
  }

  /** The table when the key has been allowed `j` times more. */
  predicate Again(m: Buckets, b: nat, later: real, j: nat) {
    m == map[KEY := Bucket((b - j) as real, later)]
  }

  lemma FirstAgain(l: Limit, m: Buckets, b: nat, later: real)
    requires l.burst == b as real && b > 0 && Drained(m, b, b) && later > EVICT_AFTER
    ensures Allows(l, Get(Swept(m, later), KEY), later)
    ensures Again(StepOf(l, true, m, Call(KEY, later)), b, later, 1)
  {
    AllSwept(m, later);
  }

  lemma NextAgain(l: Limit, m: Buckets, b: nat, later: real, j: nat)
    requires l.burst == b as real && 0 < j < b && Again(m, b, later, j)
    ensures Allows(l, Get(Swept(m, later), KEY), later)
    ensures Again(StepOf(l, true, m, Call(KEY, later)), b, later, j + 1)
  {
    assert |m| == 1;
    assert Refill(l, 0.0) == 0.0;
  }

  lemma {:induction false} AfterSecond(l: Limit, b: nat, later: real, j: nat)
    requires l.burst == b as real && 0 < j <= b && later > EVICT_AFTER
    ensures Again(TableAfter(l, true, Calls(b, later), OTHERS + b + j), b, later, j)
  {
    if j == 1 {
      AfterFirst(l, b, later, b);
      FirstAgain(l, TableAfter(l, true, Calls(b, later), OTHERS + b), b, later);
    } else {
      AfterSecond(l, b, later, j - 1);
      NextAgain(l, TableAfter(l, true, Calls(b, later), OTHERS + b + j - 1), b, later, j - 1);
    }
  }

  // ---- the count ---------------------------------------------------------------------

  /** Call `k` is one of the key's, and allowed. */
  predicate Through(l: Limit, calls: seq<Call>, k: nat)
    requires k < |calls|
  {
    calls[k].key == KEY && AllowedAt(l, true, calls, k)
  }

  lemma ThroughAtFirst(l: Limit, b: nat, later: real, j: nat)
    requires l.burst == b as real && j < b
    ensures Through(l, Calls(b, later), OTHERS + j)
  {
    AfterFirst(l, b, later, j);
    DrainOne(l, TableAfter(l, true, Calls(b, later), OTHERS + j), b, j);
  }

  lemma ThroughAgain(l: Limit, b: nat, later: real, j: nat)
    requires l.burst == b as real && j < b && later > EVICT_AFTER
    ensures Through(l, Calls(b, later), OTHERS + b + j)
  {
    if j == 0 {
      AfterFirst(l, b, later, b);
      FirstAgain(l, TableAfter(l, true, Calls(b, later), OTHERS + b), b, later);
    } else {
      AfterSecond(l, b, later, j);
      NextAgain(l, TableAfter(l, true, Calls(b, later), OTHERS + b + j), b, later, j);
    }
  }

  lemma EachThrough(l: Limit, b: nat, later: real, i: nat)
    requires l.burst == b as real && OTHERS <= i < OTHERS + 2 * b && later > EVICT_AFTER
    ensures Through(l, Calls(b, later), i)
  {
    if i < OTHERS + b {
      ThroughAtFirst(l, b, later, i - OTHERS);
    } else {
      ThroughAgain(l, b, later, i - OTHERS - b);
    }
  }

  lemma {:induction false} AllCounted(l: Limit, calls: seq<Call>, i: nat, j: nat)
    requires i <= j <= |calls| && forall k :: i <= k < j ==> Through(l, calls, k)
    ensures AllowedCount(l, true, calls, KEY, i, j) == j - i
    decreases j
  {
    if i < j {
      AllCounted(l, calls, i, j - 1);
      assert Through(l, calls, j - 1);
    }
  }

  lemma CallsInTime(b: nat, later: real)
    requires later >= 0.0
    ensures InTime(Calls(b, later))
  {
  }

  /** Twice the burst gets through. */
  lemma TwoBursts(l: Limit, b: nat, later: real)
    requires l.burst == b as real && b > 0 && later > EVICT_AFTER
    ensures AllowedCount(l, true, Calls(b, later), KEY, OTHERS, OTHERS + 2 * b) == 2 * b
  {
    forall k | OTHERS <= k < OTHERS + 2 * b ensures Through(l, Calls(b, later), k) {
      EachThrough(l, b, later, k);
    }
    AllCounted(l, Calls(b, later), OTHERS, OTHERS + 2 * b);
  }

  // ---- the exact condition -----------------------------------------------------------

  /** The bound one would read off the settings, for one stretch of one run. */
  predicate KeepsRate(l: Limit, calls: seq<Call>, key: Name, i: nat, j: nat)
    requires i < j <= |calls|
  {
    AllowedCount(l, true, calls, key, i, j) as real <= l.burst + Refill(l, calls[j - 1].at - calls[i].at)
  }

  ghost predicate AlwaysKeepsRate(l: Limit) {
    forall calls, key, i: nat, j: nat :: InTime(calls) && i < j <= |calls| ==> KeepsRate(l, calls, key, i, j)
  }

  /** A pause a little longer than an hour, in which less than a burst accrues. */
  lemma ShortPause(l: Limit) returns (later: real)
    requires l.rate > 0.0 && Refill(l, EVICT_AFTER) < l.burst
    ensures later > EVICT_AFTER && Refill(l, later) < l.burst
  {
    var short := l.burst - Refill(l, EVICT_AFTER);
    HalfOf(short, l.rate);
    var more := short / (2.0 * l.rate);
    RefillAdds(l, EVICT_AFTER, more);
    later := EVICT_AFTER + more;
  }

  /** An evicting limiter with a whole number of tokens keeps to its configured rate in every
      run if and only if an hour's refill covers the burst. */
  lemma AlwaysKeepsRateIff(l: Limit, b: nat)
    requires LimitOk(l) && l.burst == b as real
    ensures AlwaysKeepsRate(l) <==> EVICT_AFTER * l.rate >= l.burst
  {
    if Refill(l, EVICT_AFTER) >= l.burst {
      forall calls, key, i: nat, j: nat | InTime(calls) && i < j <= |calls| ensures KeepsRate(l, calls, key, i, j) {
        RateBound(l, true, calls, key, i, j);
      }
    } else {
      var later := ShortPause(l);
      TwoBursts(l, b, later);
      CallsInTime(b, later);
      assert !KeepsRate(l, Calls(b, later), KEY, OTHERS, OTHERS + 2 * b);
    }
  }
}
