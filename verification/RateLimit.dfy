/**
 The per-key token bucket in front of the login route
 (internal/auth/ratelimit.go): lazy refill, and garbage collection of idle
 buckets once 1024 exist. Time is in seconds on a clock that never goes back.
 */
module RateLimit {

  const EXPIRE_AFTER: real := 600.0
  const GC_THRESHOLD: nat := 1024

  datatype Bucket = Bucket(tokens: real, lastFill: real, touched: real)

  type Buckets = map<string, Bucket>

  datatype Answer = Answer(allowed: bool, retryAfter: int)   // nanoseconds

  function Min(a: real, b: real): real {
    if a < b then a else b
  }

  /** Tokens gained over a stretch of time: the capacity in a minute. */
  function Gain(cap: real, elapsed: real): real {
    elapsed * (cap / 60.0)
  }

  /** The tokens a caller would find under `key` at time `t`; a missing bucket is a full one. */
  function Level(b: Buckets, cap: real, key: string, t: real): real {
    if key in b then Min(cap, b[key].tokens + Gain(cap, t - b[key].lastFill)) else cap
  }

  function Retry(cap: real, level: real): int
    requires cap >= 1.0
  {
    ((1.0 - level) / (cap / 60.0) * 1_000_000_000.0).Floor + 1_000_000_000
  }

  function Reply(cap: real, level: real): Answer
    requires cap >= 1.0
  {
    if level < 1.0 then Answer(false, Retry(cap, level)) else Answer(true, 0)
  }

  function Swept(b: Buckets, now: real): Buckets {
    if |b| < GC_THRESHOLD then b
    else map k | k in b && now - b[k].touched <= EXPIRE_AFTER :: b[k]
  }

  /** The table after a call, given what the sweep left of it. */
  function Charged(b: Buckets, cap: real, key: string, now: real): Buckets {
    var level := Level(b, cap, key, now);
    b[key := Bucket(if level < 1.0 then level else level - 1.0, now, now)]
  }

  function Allowed(b: Buckets, cap: real, key: string, now: real): (Answer, Buckets)
    requires cap >= 1.0
  {
    (Reply(cap, Level(Swept(b, now), cap, key, now)), Charged(Swept(b, now), cap, key, now))
  }

  /** Buckets outlive a sweep unless there are 1024 or more and they were not touched for ten minutes. */
  predicate Outlives(b: Buckets, key: string, now: real) {
    key in b && (|b| < 1024 || now - b[key].touched <= 600.0)
  }

  /** The tokens a call finds: a full bucket, or what was left plus what flowed in at the capacity a minute, capped. */
  function Found(b: Buckets, cap: real, key: string, now: real): real {
    if !Outlives(b, key, now) then cap
    else
      var filled := b[key].tokens + (now - b[key].lastFill) * (cap / 60.0);
      if cap < filled then cap else filled
  }

  /** Answer and buckets of a call, told from the buckets before. */
  ghost predicate AllowSays(b: Buckets, cap: real, key: string, now: real, a: Answer, b': Buckets)
    requires cap >= 1.0
  {
    var tokens := Found(b, cap, key, now);
    && (a.allowed <==> tokens >= 1.0)
    && a.retryAfter == (if a.allowed then 0 else ((1.0 - tokens) / (cap / 60.0) * 1_000_000_000.0).Floor + 1_000_000_000)
    && (forall k :: k in b' <==> k == key || Outlives(b, k, now))
    && (forall k :: k in b' && k != key ==> b'[k] == b[k])
    && b'[key] == Bucket(if a.allowed then tokens - 1.0 else tokens, now, now)
  }

  lemma AllowSpelledOut(b: Buckets, cap: real, key: string, now: real)
    requires cap >= 1.0
    ensures AllowSays(b, cap, key, now, Allowed(b, cap, key, now).0, Allowed(b, cap, key, now).1)
  {
  }

  class IPLimiter {
    var buckets: Buckets
    const capacity: real
    const refillPS: real
    const expireDur: real

    ghost predicate Valid() {
      capacity >= 1.0 && refillPS == capacity / 60.0 && expireDur == EXPIRE_AFTER
    }

    constructor (perMinute: int)
      ensures Valid() && buckets == map[]
      ensures capacity == if perMinute < 1 then 1.0 else perMinute as real
    {
      var cap := perMinute as real;
      if cap < 1.0 {
        cap := 1.0;
      }
      buckets := map[];
      capacity, refillPS, expireDur := cap, cap / 60.0, 600.0;
    }

    method Allow(key: string, now: real) returns (a: Answer)
      requires Valid()
      modifies this`buckets
      ensures (a, buckets) == Allowed(old(buckets), capacity, key, now)
      ensures AllowSays(old(buckets), capacity, key, now, a, buckets)
    {
      AllowSpelledOut(buckets, capacity, key, now);
      ExpireLocked(now);
      var b := if key in buckets then buckets[key] else Bucket(capacity, now, now);
      var elapsed := now - b.lastFill;
      b := b.(tokens := Min(capacity, b.tokens + elapsed * refillPS));
      assert b.tokens == Level(buckets, capacity, key, now) by {
        assert elapsed == 0.0 ==> elapsed * refillPS == 0.0;
      }
      b := b.(lastFill := now, touched := now);
      if b.tokens < 1.0 {
        var need := 1.0 - b.tokens;
        a := Answer(false, (need / refillPS * 1_000_000_000.0).Floor + 1_000_000_000);
      } else {
        b := b.(tokens := b.tokens - 1.0);
        a := Answer(true, 0);
      }
      buckets := buckets[key := b];
    }

    method ExpireLocked(now: real)
      requires Valid()
      modifies this`buckets
      ensures buckets == Swept(old(buckets), now)
      ensures forall k :: k in buckets <==> Outlives(old(buckets), k, now)
      ensures forall k :: k in buckets ==> buckets[k] == old(buckets)[k]
    {
      if |buckets| < 1024 {
        return;
      }
      var pending := buckets.Keys;
      while pending != {}
        invariant pending <= buckets.Keys <= old(buckets).Keys
        invariant forall k :: k in buckets ==> buckets[k] == old(buckets)[k]
        invariant forall k :: k in old(buckets) && k !in pending ==>
                    (k in buckets <==> now - old(buckets)[k].touched <= EXPIRE_AFTER)
      {
        var k :| k in pending;
        if now - buckets[k].touched > expireDur {
          buckets := buckets - {k};
        }
        pending := pending - {k};
      }
    }
  }

  // ---- real arithmetic ----

  lemma GainAdds(cap: real, a: real, b: real)
    ensures Gain(cap, a) + Gain(cap, b) == Gain(cap, a + b)
  {
  }

  lemma GainGrows(cap: real, a: real, b: real)
    requires cap >= 0.0 && a <= b
    ensures Gain(cap, a) <= Gain(cap, b)
  {
    GainAdds(cap, a, b - a);
  }

  lemma GainFills(cap: real, elapsed: real)
    requires cap >= 0.0 && elapsed >= EXPIRE_AFTER
    ensures Gain(cap, elapsed) >= cap
  {
    GainGrows(cap, EXPIRE_AFTER, elapsed);
  }

  // ---- what holds of every table ----

  /** Buckets as calls up to time `now` leave them. */
  ghost predicate Sane(b: Buckets, cap: real, now: real) {
    forall k :: k in b ==> 0.0 <= b[k].tokens <= cap && b[k].lastFill == b[k].touched <= now
  }

  lemma ChargeKeepsSane(b: Buckets, cap: real, key: string, now: real, before: real)
    requires cap >= 1.0 && Sane(b, cap, before) && before <= now
    ensures Sane(Charged(b, cap, key, now), cap, now)
  {
    LevelBounds(b, cap, key, now);
  }

  lemma AllowedKeepsSane(b: Buckets, cap: real, key: string, now: real, before: real)
    requires cap >= 1.0 && Sane(b, cap, before) && before <= now
    ensures Sane(Allowed(b, cap, key, now).1, cap, now)
  {
    ChargeKeepsSane(Swept(b, now), cap, key, now, before);
  }

  lemma LevelBounds(b: Buckets, cap: real, key: string, now: real)
    requires cap >= 1.0 && Sane(b, cap, now)
    ensures 0.0 <= Level(b, cap, key, now) <= cap
  {
    if key in b {
      GainGrows(cap, 0.0, now - b[key].lastFill);
    }
  }

  /** Sweeping changes no level, now or later: what it deletes has long refilled. */
  lemma SweepKeepsLevels(b: Buckets, cap: real, key: string, now: real, t: real)
    requires cap >= 1.0 && Sane(b, cap, now) && now <= t
    ensures Level(Swept(b, now), cap, key, t) == Level(b, cap, key, t)
  {
    if key in b && key !in Swept(b, now) {
      GainFills(cap, t - b[key].lastFill);
    }
  }

  /** Between calls a level rises by at most the gain. */
  lemma LevelRises(b: Buckets, cap: real, key: string, s: real, t: real)
    requires cap >= 1.0 && Sane(b, cap, s) && s <= t
    ensures Level(b, cap, key, s) <= Level(b, cap, key, t) <= Level(b, cap, key, s) + Gain(cap, t - s)
  {
    GainGrows(cap, 0.0, t - s);
    if key in b {
      GainAdds(cap, s - b[key].lastFill, t - s);
    }
  }

  lemma ChargeSpends(b: Buckets, cap: real, key: string, now: real, k: string)
    requires cap >= 1.0 && Sane(b, cap, now)
    ensures Level(Charged(b, cap, key, now), cap, k, now) ==
            Level(b, cap, k, now) - if k == key && Reply(cap, Level(b, cap, key, now)).allowed then 1.0 else 0.0
  {
    LevelBounds(b, cap, key, now);
    assert Gain(cap, now - now) == 0.0;
  }

  /** A call costs its own key one token if admitted and no other key anything. */
  lemma CallSpends(b: Buckets, cap: real, key: string, now: real, k: string)
    requires cap >= 1.0 && Sane(b, cap, now)
    ensures var (a, b') := Allowed(b, cap, key, now);
            && (a.allowed <==> Level(b, cap, key, now) >= 1.0)
            && Level(b', cap, k, now) == Level(b, cap, k, now) - if k == key && a.allowed then 1.0 else 0.0
  {
    SweepKeepsLevels(b, cap, key, now, now);
    SweepKeepsLevels(b, cap, k, now, now);
    ChargeSpends(Swept(b, now), cap, key, now, k);
  }

  // ---- runs ----

  datatype Call = Call(key: string, at: real)

  predicate InOrder(calls: seq<Call>, from: real) {
    calls == [] || (from <= calls[0].at && InOrder(calls[1..], calls[0].at))
  }

  /** How many calls on `key` within [s,t] are admitted in a run that starts with table `b`. */
  function Admitted(b: Buckets, cap: real, calls: seq<Call>, key: string, s: real, t: real): nat
    requires cap >= 1.0
    decreases |calls|
  {
    if calls == [] then 0
    else
      var (a, b') := Allowed(b, cap, calls[0].key, calls[0].at);
      (if calls[0].key == key && s <= calls[0].at <= t && a.allowed then 1 else 0)
      + Admitted(b', cap, calls[1..], key, s, t)
  }

  lemma {:induction false} NoneAfterWindow(b: Buckets, cap: real, calls: seq<Call>, key: string, s: real, t: real, now: real)
    requires cap >= 1.0 && InOrder(calls, now) && t < now
    ensures Admitted(b, cap, calls, key, s, t) == 0
    decreases |calls|
  {
    if calls != [] {
      NoneAfterWindow(Allowed(b, cap, calls[0].key, calls[0].at).1, cap, calls[1..], key, s, t, calls[0].at);
    }
  }

  /** Inside the window: what is there plus what flows in bounds what is spent. */
  lemma {:induction false} WindowSpends(b: Buckets, cap: real, calls: seq<Call>, key: string, s: real, t: real, now: real)
    requires cap >= 1.0 && Sane(b, cap, now) && InOrder(calls, now) && s <= now <= t
    ensures Admitted(b, cap, calls, key, s, t) as real <= Level(b, cap, key, now) + Gain(cap, t - now)
    decreases |calls|
  {
    if calls == [] {
      LevelBounds(b, cap, key, now);
      GainGrows(cap, 0.0, t - now);
    } else if calls[0].at > t {
      NoneAfterWindow(b, cap, calls, key, s, t, calls[0].at);
      LevelBounds(b, cap, key, now);
      GainGrows(cap, 0.0, t - now);
    } else {
      var at, b' := calls[0].at, Allowed(b, cap, calls[0].key, calls[0].at).1;
      AllowedKeepsSane(b, cap, calls[0].key, at, now);
      WindowSpends(b', cap, calls[1..], key, s, t, at);
      CallSpends(b, cap, calls[0].key, at, key);
      LevelRises(b, cap, key, now, at);
      GainAdds(cap, at - now, t - at);
    }
  }

  lemma {:induction false} WindowBoundFrom(b: Buckets, cap: real, calls: seq<Call>, key: string, s: real, t: real, now: real)
    requires cap >= 1.0 && Sane(b, cap, now) && InOrder(calls, now) && s <= t
    ensures Admitted(b, cap, calls, key, s, t) as real <= cap + Gain(cap, t - s)
    decreases |calls|
  {
    GainGrows(cap, 0.0, t - s);
    if calls == [] {
    } else if t < now {
      NoneAfterWindow(b, cap, calls, key, s, t, now);
    } else if s <= now {
      WindowSpends(b, cap, calls, key, s, t, now);
      LevelBounds(b, cap, key, now);
      GainGrows(cap, t - now, t - s);
    } else if calls[0].at < s {
      AllowedKeepsSane(b, cap, calls[0].key, calls[0].at, now);
      WindowBoundFrom(Allowed(b, cap, calls[0].key, calls[0].at).1, cap, calls[1..], key, s, t, calls[0].at);
    } else {
      LaterSane(b, cap, now, s);
      WindowSpends(b, cap, calls, key, s, t, s);
      LevelBounds(b, cap, key, s);
    }
  }

  lemma LaterSane(b: Buckets, cap: real, now: real, later: real)
    requires Sane(b, cap, now) && now <= later
    ensures Sane(b, cap, later)
  {
  }

  /**
   For every run of the limiter and every window of time, the calls admitted
   for one key within the window are at most the capacity plus the refill over
   the window, whatever other keys do and whenever buckets are swept.
   */
  lemma AdmittedInAnyWindow(cap: real, calls: seq<Call>, start: real, key: string, s: real, t: real)
    requires cap >= 1.0 && InOrder(calls, start) && s <= t
    ensures Admitted(map[], cap, calls, key, s, t) as real <= cap + cap / 60.0 * (t - s)
  {
    WindowBoundFrom(map[], cap, calls, key, s, t, start);
  }

  /** The answers of a run; with `gc` off no bucket is ever deleted. */
  function Answers(b: Buckets, cap: real, calls: seq<Call>, gc: bool): seq<Answer>
    requires cap >= 1.0
    decreases |calls|
  {
    if calls == [] then []
    else
      var c := calls[0];
      var b1 := if gc then Swept(b, c.at) else b;
      [Reply(cap, Level(b1, cap, c.key, c.at))] + Answers(Charged(b1, cap, c.key, c.at), cap, calls[1..], gc)
  }

  predicate FullBy(b: Bucket, cap: real, now: real) {
    b.tokens + Gain(cap, now - b.lastFill) >= cap
  }

  /** `a` is `b` but for buckets that, by `now`, have refilled. */
  ghost predicate SameButFull(a: Buckets, b: Buckets, cap: real, now: real) {
    && (forall k :: k in a ==> k in b && a[k] == b[k])
    && (forall k :: k in b && k !in a ==> FullBy(b[k], cap, now))
  }

  lemma StaysFull(b: Bucket, cap: real, before: real, now: real)
    requires cap >= 1.0 && before <= now && FullBy(b, cap, before)
    ensures FullBy(b, cap, now)
  {
    GainGrows(cap, before - b.lastFill, now - b.lastFill);
  }

  lemma IdleIsFull(b: Bucket, cap: real, now: real)
    requires cap >= 1.0 && b.tokens >= 0.0 && now - b.lastFill >= EXPIRE_AFTER
    ensures FullBy(b, cap, now)
  {
    GainFills(cap, now - b.lastFill);
  }

  lemma SweepSameButFull(a: Buckets, b: Buckets, cap: real, before: real, now: real)
    requires cap >= 1.0 && Sane(b, cap, before) && before <= now && SameButFull(a, b, cap, before)
    ensures SameButFull(Swept(a, now), b, cap, now)
  {
    forall k | k in b && k !in Swept(a, now) ensures FullBy(b[k], cap, now) {
      if k in a {
        IdleIsFull(b[k], cap, now);
      } else {
        StaysFull(b[k], cap, before, now);
      }
    }
  }

  /** Both tables see the same level and stay as close. */
  lemma ChargeSameButFull(a: Buckets, b: Buckets, cap: real, key: string, now: real)
    requires cap >= 1.0 && SameButFull(a, b, cap, now)
    ensures Level(a, cap, key, now) == Level(b, cap, key, now)
    ensures SameButFull(Charged(a, cap, key, now), Charged(b, cap, key, now), cap, now)
  {
  }

  lemma {:induction false} SweepingUnobservableFrom(a: Buckets, b: Buckets, cap: real, calls: seq<Call>, now: real)
    requires cap >= 1.0 && Sane(b, cap, now) && InOrder(calls, now) && SameButFull(a, b, cap, now)
    ensures Answers(a, cap, calls, true) == Answers(b, cap, calls, false)
    decreases |calls|
  {
    if calls != [] {
      var c := calls[0];
      var a1 := Swept(a, c.at);
      SweepSameButFull(a, b, cap, now, c.at);
      ChargeSameButFull(a1, b, cap, c.key, c.at);
      ChargeKeepsSane(b, cap, c.key, c.at, now);
      SweepingUnobservableFrom(Charged(a1, cap, c.key, c.at), Charged(b, cap, c.key, c.at), cap, calls[1..], c.at);
    }
  }

  /** No sequence of calls can tell the limiter from one that keeps every bucket for ever. */
  lemma SweepingIsUnobservable(cap: real, calls: seq<Call>, start: real)
    requires cap >= 1.0 && InOrder(calls, start)
    ensures Answers(map[], cap, calls, true) == Answers(map[], cap, calls, false)
  {
    SweepingUnobservableFrom(map[], map[], cap, calls, start);
  }

  // ---- Retry-After ----

  /** The table after a run of calls. */
  function Ran(b: Buckets, cap: real, calls: seq<Call>): Buckets
    requires cap >= 1.0
    decreases |calls|
  {
    if calls == [] then b else Ran(Allowed(b, cap, calls[0].key, calls[0].at).1, cap, calls[1..])
  }

  /** Calls on other keys leave a key's level to rise. */
  lemma {:induction false} OthersOnlyLetRise(b: Buckets, cap: real, calls: seq<Call>, key: string, now: real, t: real)
    requires cap >= 1.0 && Sane(b, cap, now) && InOrder(calls, now)
    requires forall c :: c in calls ==> c.key != key && c.at <= t
    requires now <= t
    ensures Sane(Ran(b, cap, calls), cap, t)
    ensures Level(Ran(b, cap, calls), cap, key, t) == Level(b, cap, key, t)
    decreases |calls|
  {
    if calls == [] {
      LaterSane(b, cap, now, t);
    } else {
      var c := calls[0];
      assert c in calls;
      var b1 := Allowed(b, cap, c.key, c.at).1;
      LaterSane(b, cap, now, c.at);
      SweepKeepsLevels(b, cap, key, c.at, t);
      assert Level(b1, cap, key, t) == Level(Swept(b, c.at), cap, key, t);
      AllowedKeepsSane(b, cap, c.key, c.at, now);
      OthersOnlyLetRise(b1, cap, calls[1..], key, c.at, t);
    }
  }

  /** The whole seconds put into the Retry-After header. */
  function HeaderSeconds(retryAfter: int): int {
    retryAfter / 1_000_000_000
  }

  /** The header is more than the time to the next token, by at most a second. */
  lemma HeaderCoversWait(cap: real, level: real)
    requires cap >= 1.0 && 0.0 <= level < 1.0
    ensures var wait := (1.0 - level) / (cap / 60.0);
            wait < HeaderSeconds(Retry(cap, level)) as real <= wait + 1.0
  {
    var wait := (1.0 - level) / (cap / 60.0);
    WaitIsPositive(cap, level);
    var ns := (wait * 1_000_000_000.0).Floor;
    assert HeaderSeconds(Retry(cap, level)) == ns / 1_000_000_000 + 1;
    FloorOfSeconds(wait);
  }

  lemma WaitIsPositive(cap: real, level: real)
    requires cap >= 1.0 && level < 1.0
    ensures (1.0 - level) / (cap / 60.0) > 0.0
  {
  }

  lemma FloorOfSeconds(x: real)
    requires x >= 0.0
    ensures (x * 1_000_000_000.0).Floor / 1_000_000_000 == x.Floor
  {
    var ns, q := (x * 1_000_000_000.0).Floor, x.Floor;
    assert q as real <= x < q as real + 1.0;
    assert q * 1_000_000_000 <= ns < (q + 1) * 1_000_000_000 by {
      assert (q * 1_000_000_000) as real == q as real * 1_000_000_000.0;
      assert ((q + 1) * 1_000_000_000) as real == (q as real + 1.0) * 1_000_000_000.0;
    }
  }

  lemma WaitGains(cap: real, level: real, waited: real)
    requires cap >= 1.0
    ensures level + Gain(cap, waited) >= 1.0 <==> waited >= (1.0 - level) / (cap / 60.0)
  {
    var r := cap / 60.0;
    var wait := (1.0 - level) / r;
    assert wait * r == 1.0 - level;
    if waited >= wait {
      GainGrows(cap, wait, waited);
    } else {
      assert (wait - waited) * r > 0.0;
      GainAdds(cap, waited, wait - waited);
    }
  }

  /**
   A denied caller who makes no other call meanwhile is admitted next time if
   and only if the time to the missing part of a token has passed; the whole
   seconds of Retry-After always suffice, and are less than a second more than
   that, whatever other keys do in between.
   */
  lemma RetryAfterSuffices(b: Buckets, cap: real, key: string, now: real, others: seq<Call>, again: real)
    requires cap >= 1.0 && Sane(b, cap, now)
    requires !Allowed(b, cap, key, now).0.allowed
    requires InOrder(others, now) && now <= again && forall c :: c in others ==> c.key != key && c.at <= again
    ensures var (denial, b') := Allowed(b, cap, key, now);
            var wait := (1.0 - Level(b, cap, key, now)) / (cap / 60.0);
            && (Allowed(Ran(b', cap, others), cap, key, again).0.allowed <==> again - now >= wait)
            && wait < HeaderSeconds(denial.retryAfter) as real <= wait + 1.0
            && (again - now >= HeaderSeconds(denial.retryAfter) as real ==>
                  Allowed(Ran(b', cap, others), cap, key, again).0.allowed)
  {
    var (denial, b') := Allowed(b, cap, key, now);
    var level := Level(b, cap, key, now);
    SweepKeepsLevels(b, cap, key, now, now);
    LevelBounds(b, cap, key, now);
    AllowedKeepsSane(b, cap, key, now, now);
    HeaderCoversWait(cap, level);
    OthersOnlyLetRise(b', cap, others, key, now, again);
    CallSpends(Ran(b', cap, others), cap, key, again, key);
    assert b'[key].tokens == level && b'[key].lastFill == now;
    WaitGains(cap, level, again - now);
  }
}
