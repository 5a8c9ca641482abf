/**
 Exponential backoff per username (internal/auth/ratelimit.go) and the login
 handler that consults it behind the rate limiter (internal/api/auth/auth.go).
 Times and delays are in seconds.
 */
module LoginBackoff {
  import opened RateLimit

  const BASE: int := 30
  const MAX: int := 3600

  datatype Backoff = Backoff(failures: nat, nextAllow: real, touched: real)

  type States = map<string, Backoff>

  function Pow2(n: nat): nat {
    if n == 0 then 1 else 2 * Pow2(n - 1)
  }

  function MinInt(a: int, b: int): int {
    if a < b then a else b
  }

  /** 30s shifted left, the shift clamped to 8, the result to an hour. */
  function Delay(failures: nat): int
    requires failures >= 1
  {
    MinInt(BASE * Pow2(MinInt(failures - 1, 8)), MAX)
  }

  predicate MayAttempt(b: States, user: string, now: real) {
    user !in b || now > b[user].nextAllow
  }

  function Failed(b: States, user: string, now: real): States {
    var n := (if user in b then b[user].failures else 0) + 1;
    b[user := Backoff(n, now + Delay(n) as real, now)]
  }

  function Succeeded(b: States, user: string): States {
    b - {user}
  }

  class UserBackoff {
    var state: States

    constructor ()
      ensures state == map[]
    {
      state := map[];
    }

    method CanAttempt(user: string, now: real) returns (ok: bool, retryAfter: real)
      ensures ok == MayAttempt(state, user, now)
      ensures ok <==> user !in state || now > state[user].nextAllow
      ensures ok ==> retryAfter == 0.0
      ensures !ok ==> user in state && retryAfter == state[user].nextAllow - now >= 0.0
    {
      if user !in state || now > state[user].nextAllow {
        return true, 0.0;
      }
      return false, state[user].nextAllow - now;
    }

    method Failure(user: string, now: real) returns (delay: int)
      modifies this`state
      ensures state == Failed(old(state), user, now)
      ensures user in state && state[user].failures == (if user in old(state) then old(state)[user].failures else 0) + 1
      ensures delay == MinInt(30 * Pow2(state[user].failures - 1), 3600)
      ensures forall u :: u != user ==> (u in state <==> u in old(state)) && (u in state ==> state[u] == old(state)[u])
      ensures forall at :: MayAttempt(state, user, at) <==> at > now + delay as real
      ensures delay == Delay(state[user].failures)
    {
      ClampedShiftIsCappedExponential((if user in state then state[user].failures else 0) + 1);
      var st := if user in state then state[user] else Backoff(0, 0.0, 0.0);
      st := st.(failures := st.failures + 1);
      delay := BASE * Pow2(MinInt(st.failures - 1, 8));
      if delay > MAX {
        delay := MAX;
      }
      st := st.(nextAllow := now + delay as real, touched := now);
      state := state[user := st];
    }

    method Success(user: string)
      modifies this`state
      ensures state == Succeeded(old(state), user)
      ensures forall now :: MayAttempt(state, user, now)
      ensures forall u :: u != user ==> (u in state <==> u in old(state)) && (u in state ==> state[u] == old(state)[u])
    {
      state := state - {user};
    }
  }

  // ---- the login handler ----

  datatype Body = Malformed | Blank | Credentials

  datatype Verdict = UnknownUser | BadPassword | TotpMissing | BadTotp | Right

  /** A login request with the clock readings of its three gates and what checking its credentials would say. */
  datatype Attempt = Attempt(ip: string, body: Body, user: string, verdict: Verdict, atLimiter: real, atGate: real, atVerdict: real)

  datatype Response = TooManyRequests | BadRequest | Unauthorized | LoggedIn

  datatype Gate = Gate(buckets: Buckets, backoff: States)

  predicate CountsAsFailure(v: Verdict) {
    v == UnknownUser || v == BadPassword || v == BadTotp
  }

  function Login(g: Gate, cap: real, a: Attempt): (Response, Gate)
    requires cap >= 1.0
  {
    var (answer, buckets) := Allowed(g.buckets, cap, a.ip, a.atLimiter);
    var g1 := g.(buckets := buckets);
    if !answer.allowed then (TooManyRequests, g1)
    else if a.body != Credentials then (BadRequest, g1)
    else if !MayAttempt(g1.backoff, a.user, a.atGate) then (TooManyRequests, g1)
    else if CountsAsFailure(a.verdict) then (Unauthorized, g1.(backoff := Failed(g1.backoff, a.user, a.atVerdict)))
    else if a.verdict == TotpMissing then (Unauthorized, g1)
    else (LoggedIn, g1.(backoff := Succeeded(g1.backoff, a.user)))
  }

  /** The attempt passes both gates with a well-formed body: its credentials are looked at. */
  ghost predicate Reaches(g: Gate, cap: real, a: Attempt)
    requires cap >= 1.0
  {
    && Found(g.buckets, cap, a.ip, a.atLimiter) >= 1.0
    && a.body == Credentials
    && (a.user !in g.backoff || a.atGate > g.backoff[a.user].nextAllow)
  }

  /** Which response an attempt gets. */
  ghost predicate LoginReplies(g: Gate, cap: real, a: Attempt, r: Response)
    requires cap >= 1.0
  {
    && (r == LoggedIn <==> Reaches(g, cap, a) && a.verdict == Right)
    && (r == Unauthorized <==> Reaches(g, cap, a) && a.verdict != Right)
    && (r == BadRequest <==> Found(g.buckets, cap, a.ip, a.atLimiter) >= 1.0 && a.body != Credentials)
    && (r == TooManyRequests <==>
          || Found(g.buckets, cap, a.ip, a.atLimiter) < 1.0
          || (a.body == Credentials && a.user in g.backoff && a.atGate <= g.backoff[a.user].nextAllow))
  }

  /** What it leaves in the backoff table: a refusal that counts is entered, a success removed, anything else changes nothing. */
  ghost predicate LoginLeaves(g: Gate, cap: real, a: Attempt, after: States)
    requires cap >= 1.0
  {
    if Reaches(g, cap, a) && a.verdict in {UnknownUser, BadPassword, BadTotp} then
      var n := (if a.user in g.backoff then g.backoff[a.user].failures else 0) + 1;
      after == g.backoff[a.user := Backoff(n, a.atVerdict + MinInt(30 * Pow2(n - 1), 3600) as real, a.atVerdict)]
    else if Reaches(g, cap, a) && a.verdict == Right then
      after == g.backoff - {a.user}
    else after == g.backoff
  }

  lemma FailedSpelledOut(b: States, user: string, now: real)
    ensures var n := (if user in b then b[user].failures else 0) + 1;
            Failed(b, user, now) == b[user := Backoff(n, now + MinInt(30 * Pow2(n - 1), 3600) as real, now)]
  {
    ClampedShiftIsCappedExponential((if user in b then b[user].failures else 0) + 1);
  }

  lemma LimiterSpelledOut(b: Buckets, cap: real, key: string, now: real)
    requires cap >= 1.0
    ensures Allowed(b, cap, key, now).0.allowed <==> Found(b, cap, key, now) >= 1.0
    ensures AllowSays(b, cap, key, now, Allowed(b, cap, key, now).0, Allowed(b, cap, key, now).1)
  {
    AllowSpelledOut(b, cap, key, now);
  }

  lemma LoginSpelledOut(g: Gate, cap: real, a: Attempt)
    requires cap >= 1.0
    ensures var (r, g') := Login(g, cap, a);
            && LoginReplies(g, cap, a, r) && LoginLeaves(g, cap, a, g'.backoff)
            && g'.buckets == Allowed(g.buckets, cap, a.ip, a.atLimiter).1
  {
    LimiterSpelledOut(g.buckets, cap, a.ip, a.atLimiter);
    FailedSpelledOut(g.backoff, a.user, a.atVerdict);
  }

  method LoginHandler(limiter: IPLimiter, backoff: UserBackoff, a: Attempt) returns (r: Response)
    requires limiter.Valid()
    modifies limiter`buckets, backoff`state
    ensures (r, Gate(limiter.buckets, backoff.state)) == Login(Gate(old(limiter.buckets), old(backoff.state)), limiter.capacity, a)
    ensures LoginReplies(Gate(old(limiter.buckets), old(backoff.state)), limiter.capacity, a, r)
    ensures LoginLeaves(Gate(old(limiter.buckets), old(backoff.state)), limiter.capacity, a, backoff.state)
  {
    LoginSpelledOut(Gate(limiter.buckets, backoff.state), limiter.capacity, a);
    var answer := limiter.Allow(a.ip, a.atLimiter);
    if !answer.allowed {
      return TooManyRequests;
    }
    if a.body != Credentials {
      return BadRequest;
    }
    var ok, retryAfter := backoff.CanAttempt(a.user, a.atGate);
    if !ok {
      return TooManyRequests;
    }
    match a.verdict {
      case UnknownUser =>
        var _ := backoff.Failure(a.user, a.atVerdict);
        return Unauthorized;
      case BadPassword =>
        var _ := backoff.Failure(a.user, a.atVerdict);
        return Unauthorized;
      case TotpMissing =>
        return Unauthorized;
      case BadTotp =>
        var _ := backoff.Failure(a.user, a.atVerdict);
        return Unauthorized;
      case Right =>
        backoff.Success(a.user);
        return LoggedIn;
    }
  }

  /** The responses of a run of the handler. */
  function Responses(g: Gate, cap: real, attempts: seq<Attempt>): (rs: seq<Response>)
    requires cap >= 1.0
    ensures |rs| == |attempts|
    decreases |attempts|
  {
    if attempts == [] then []
    else [Login(g, cap, attempts[0]).0] + Responses(Login(g, cap, attempts[0]).1, cap, attempts[1..])
  }

  /** In every run an attempt logs in only with the right credentials, so a username that never has them never does. */
  lemma {:induction false} OnlyRightLogsIn(g: Gate, cap: real, attempts: seq<Attempt>, i: nat)
    requires cap >= 1.0 && i < |attempts| && Responses(g, cap, attempts)[i] == LoggedIn
    ensures attempts[i].verdict == Right && attempts[i].body == Credentials
    decreases |attempts|
  {
    if i == 0 {
      LoginSpelledOut(g, cap, attempts[0]);
    } else {
      OnlyRightLogsIn(Login(g, cap, attempts[0]).1, cap, attempts[1..], i - 1);
    }
  }

  // ---- the delay in closed form ----

  lemma {:induction false} Pow2Grows(m: nat, n: nat)
    requires m <= n
    ensures Pow2(m) <= Pow2(n)
  {
    if m < n {
      Pow2Grows(m, n - 1);
    }
  }

  lemma Pow2Of7()
    ensures Pow2(7) == 128 && Pow2(8) == 256
  {
    assert Pow2(3) == 8;
    assert Pow2(6) == 64;
  }

  /** The clamp on the shift is unobservable: the delay is the unclamped exponential capped at an hour. */
  lemma ClampedShiftIsCappedExponential(k: nat)
    requires k >= 1
    ensures Delay(k) == MinInt(BASE * Pow2(k - 1), MAX)
  {
    if k - 1 > 8 {
      Pow2Of7();
      Pow2Grows(8, k - 1);
    }
  }

  /** Sum of the first `m` delays. */
  function TotalDelay(m: nat): int {
    if m == 0 then 0 else TotalDelay(m - 1) + Delay(m)
  }

  lemma {:induction false} TotalDelayClosedForm(m: nat)
    ensures TotalDelay(m) == if m <= 7 then 30 * (Pow2(m) - 1) else 3810 + 3600 * (m - 7)
  {
    if m > 0 {
      TotalDelayClosedForm(m - 1);
      ClampedShiftIsCappedExponential(m);
      Pow2Of7();
      if m <= 7 {
        Pow2Grows(m - 1, 6);
      } else {
        Pow2Grows(7, m - 1);
      }
    }
  }

  // ---- spacing of failures, over every run of logins ----

  /** Logins for `user` are handled one at a time; others are unconstrained. */
  predicate OneAtATime(attempts: seq<Attempt>, user: string, from: real) {
    attempts == [] ||
    if attempts[0].user == user then
      from <= attempts[0].atGate <= attempts[0].atVerdict && OneAtATime(attempts[1..], user, attempts[0].atVerdict)
    else OneAtATime(attempts[1..], user, from)
  }

  predicate NeverRight(attempts: seq<Attempt>, user: string) {
    forall a :: a in attempts && a.user == user ==> a.verdict != Right
  }

  /** The attempt gets as far as having its credentials refused. */
  predicate Fails(g: Gate, cap: real, a: Attempt)
    requires cap >= 1.0
  {
    && Allowed(g.buckets, cap, a.ip, a.atLimiter).0.allowed
    && a.body == Credentials
    && MayAttempt(g.backoff, a.user, a.atGate)
    && CountsAsFailure(a.verdict)
  }

  /** When `user` failed, in a run of the handler. */
  function FailureTimes(g: Gate, cap: real, attempts: seq<Attempt>, user: string): seq<real>
    requires cap >= 1.0
    decreases |attempts|
  {
    if attempts == [] then []
    else
      var a := attempts[0];
      (if a.user == user && Fails(g, cap, a) then [a.atVerdict] else [])
      + FailureTimes(Login(g, cap, a).1, cap, attempts[1..], user)
  }

  /** Each time lies more than the due delay after the one before, the `n`-th failure having been at `last`. */
  predicate SpacedAfter(times: seq<real>, n: nat, last: real)
    requires n >= 1
  {
    times == [] || (times[0] > last + Delay(n) as real && SpacedAfter(times[1..], n + 1, times[0]))
  }

  lemma {:induction false} FailuresSpacedAfter(g: Gate, cap: real, attempts: seq<Attempt>, user: string, n: nat, last: real, from: real)
    requires cap >= 1.0 && n >= 1
    requires OneAtATime(attempts, user, from) && NeverRight(attempts, user)
    requires user in g.backoff && g.backoff[user].failures == n && g.backoff[user].nextAllow == last + Delay(n) as real
    ensures SpacedAfter(FailureTimes(g, cap, attempts, user), n, last)
    decreases |attempts|
  {
    if attempts != [] {
      var a := attempts[0];
      assert a in attempts;
      var g' := Login(g, cap, a).1;
      if a.user == user && Fails(g, cap, a) {
        FailuresSpacedAfter(g', cap, attempts[1..], user, n + 1, a.atVerdict, a.atVerdict);
        var rest := FailureTimes(g', cap, attempts[1..], user);
        assert ([a.atVerdict] + rest)[1..] == rest;
      } else {
        FailuresSpacedAfter(g', cap, attempts[1..], user, n, last, if a.user == user then a.atVerdict else from);
        assert [] + FailureTimes(g', cap, attempts[1..], user) == FailureTimes(g', cap, attempts[1..], user);
      }
    }
  }

  lemma {:induction false} FirstFailure(g: Gate, cap: real, attempts: seq<Attempt>, user: string, from: real)
    requires cap >= 1.0 && user !in g.backoff
    requires OneAtATime(attempts, user, from) && NeverRight(attempts, user)
    ensures var times := FailureTimes(g, cap, attempts, user); times == [] || SpacedAfter(times[1..], 1, times[0])
    decreases |attempts|
  {
    if attempts != [] {
      var a := attempts[0];
      assert a in attempts;
      var g' := Login(g, cap, a).1;
      var rest := FailureTimes(g', cap, attempts[1..], user);
      if a.user == user && Fails(g, cap, a) {
        FailuresSpacedAfter(g', cap, attempts[1..], user, 1, a.atVerdict, a.atVerdict);
        assert ([a.atVerdict] + rest)[1..] == rest;
      } else {
        FirstFailure(g', cap, attempts[1..], user, if a.user == user then a.atVerdict else from);
        assert [] + rest == rest;
      }
    }
  }

  lemma {:induction false} SpacingAddsUp(times: seq<real>, n: nat, last: real, i: nat)
    requires n >= 1 && SpacedAfter(times, n, last) && i < |times|
    ensures times[i] - last > (TotalDelay(n + i) - TotalDelay(n - 1)) as real
    ensures times[i] > (if i == 0 then last else times[i - 1]) + Delay(n + i) as real
  {
    assert TotalDelay(n) == TotalDelay(n - 1) + Delay(n);
    if i > 0 {
      assert times[1..][i - 1] == times[i];
      SpacingAddsUp(times[1..], n + 1, times[0], i - 1);
    }
  }

  /**
   While one username never logs in and its attempts are handled one at a time,
   its failure k+1 comes more than min(30*2^(k-1), 3600) seconds after failure
   k, and the first k+2 failures span more than the closed-form sum of k+1 delays.
   */
  lemma FailuresBackOff(buckets: Buckets, backoff: States, cap: real, attempts: seq<Attempt>, user: string, from: real, k: nat)
    requires cap >= 1.0 && user !in backoff
    requires OneAtATime(attempts, user, from) && NeverRight(attempts, user)
    requires k + 1 < |FailureTimes(Gate(buckets, backoff), cap, attempts, user)|
    ensures var times := FailureTimes(Gate(buckets, backoff), cap, attempts, user);
            && times[k + 1] - times[k] > MinInt(30 * Pow2(k), 3600) as real
            && times[k + 1] - times[0] > (if k + 1 <= 7 then 30 * (Pow2(k + 1) - 1) else 3810 + 3600 * (k - 6)) as real
  {
    var times := FailureTimes(Gate(buckets, backoff), cap, attempts, user);
    FirstFailure(Gate(buckets, backoff), cap, attempts, user, from);
    SpacingAddsUp(times[1..], 1, times[0], k);
    ClampedShiftIsCappedExponential(k + 1);
    TotalDelayClosedForm(k + 1);
  }
}
