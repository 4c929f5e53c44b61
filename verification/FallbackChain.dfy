/** Retry with exponential backoff inside a chain of fallback providers behind one breaker.
    What each provider answers is an oracle: attempt number to result. */
module FallbackChain {
  import opened Text
  import opened Arithmetic
  import B = CircuitBreaker

  /** A provider call returns a response or raises. Rate-limit and authentication errors are
      kinds of provider error; `Escaped` is any exception outside that family. */
  datatype Result =
    | Response(text: string)
    | RateLimited(retryAfter: Option<real>)
    | AuthFailed
    | ProviderFailed
    | Escaped

  type Provider = nat -> Result

  /** Jitter draws, one per retry; `0.5 + random() / 2`. */
  type Jitter = nat -> real

  ghost predicate Factors(j: Jitter) { forall i :: 0.5 <= j(i) < 1.0 }

  datatype RetryPolicy = RetryPolicy(retries: int, baseDelay: real, maxDelay: real)

  function Extra(p: RetryPolicy): nat { if p.retries < 0 then 0 else p.retries }

  /** The attempt whose result is final: the first one that is not rate-limited, or the last
      one allowed. */
  function LastAttempt(p: RetryPolicy, f: Provider, i: nat): (k: nat)
    requires i <= Extra(p)
    ensures i <= k <= Extra(p)
    ensures forall m | i <= m < k :: f(m).RateLimited?
    ensures k == Extra(p) || !f(k).RateLimited?
    decreases Extra(p) - i
  {
    if i == Extra(p) || !f(i).RateLimited? then i else LastAttempt(p, f, i + 1)
  }

  function RMin(a: real, b: real): real { if a <= b then a else b }
  function RMax(a: real, b: real): real { if a >= b then a else b }

  function Power(n: nat): (r: real)
    ensures r >= 1.0
  {
    Pow2(n) as real
  }

  /** The sleep after a rate-limited attempt, before jitter. */
  function Delay(p: RetryPolicy, r: Result, attempt: nat): real {
    var wanted := if r.RateLimited? && r.retryAfter.Some? then r.retryAfter.value else p.baseDelay * Power(attempt);
    RMin(p.maxDelay, RMax(0.0, wanted))
  }

  function Scale(delay: real, factor: real): real { delay * factor }

  function Nap(p: RetryPolicy, r: Result, attempt: nat, factor: real): real { Scale(Delay(p, r, attempt), factor) }

  function Slept(p: RetryPolicy, f: Provider, j: Jitter, n: nat): real {
    if n == 0 then 0.0 else Slept(p, f, j, n - 1) + Nap(p, f(n - 1), n - 1, j(n - 1))
  }

  lemma Scaled(d: real, x: real)
    requires d >= 0.0 && 0.5 <= x < 1.0
    ensures 0.0 <= Scale(d, x) <= d
  {
    NonNegative(d, x);
    NonNegative(d, 1.0 - x);
    assert d * x == d - d * (1.0 - x);
  }

  lemma DelayBounds(p: RetryPolicy, r: Result, attempt: nat)
    requires p.maxDelay >= 0.0
    ensures 0.0 <= Delay(p, r, attempt) <= p.maxDelay
    ensures r == RateLimited(None) && p.baseDelay >= 0.0 ==> Delay(p, r, attempt) <= p.baseDelay * Power(attempt)
  {
    if p.baseDelay >= 0.0 {
      NonNegative(p.baseDelay, Power(attempt));
    }
  }

  lemma NapBounds(p: RetryPolicy, r: Result, attempt: nat, factor: real)
    requires p.maxDelay >= 0.0 && 0.5 <= factor < 1.0
    ensures 0.0 <= Nap(p, r, attempt, factor) <= p.maxDelay
    ensures r == RateLimited(None) && p.baseDelay >= 0.0 ==> Nap(p, r, attempt, factor) <= p.baseDelay * Power(attempt)
  {
    hide Delay, Power, Scale;
    var d, nap := Delay(p, r, attempt), Nap(p, r, attempt, factor);
    DelayBounds(p, r, attempt);
    Scaled(d, factor);
    assert 0.0 <= nap <= d;
  }

  lemma NonNegative(a: real, b: real)
    requires a >= 0.0 && b >= 0.0
    ensures a * b >= 0.0
  {}

  lemma OneMoreTime(n: nat, x: real)
    requires n > 0
    ensures n as real * x == (n - 1) as real * x + x
  {
    var a := (n - 1) as real;
    assert n as real == a + 1.0;
    assert (a + 1.0) * x == a * x + x;
  }

  /** How long a rate-limited attempt is followed by: a hint counts as it is, cut to the
      range from nothing to the cap; without hints the first delay is the base so cut, and
      each further one is twice the one before, up to the cap. */
  lemma DelaysDouble(p: RetryPolicy, hint: real, attempt: nat)
    requires p.maxDelay >= 0.0
    ensures Delay(p, RateLimited(Some(hint)), attempt)
         == if hint < 0.0 then 0.0 else if hint > p.maxDelay then p.maxDelay else hint
    ensures Delay(p, RateLimited(None), 0)
         == if p.baseDelay < 0.0 then 0.0 else if p.baseDelay > p.maxDelay then p.maxDelay else p.baseDelay
    ensures var d := Delay(p, RateLimited(None), attempt);
            Delay(p, RateLimited(None), attempt + 1) == if 2.0 * d > p.maxDelay then p.maxDelay else 2.0 * d
  {
    FirstDelay(p, hint, attempt);
    var x, y := Uncapped(p, attempt);
    hide Delay;
  }

  lemma FirstDelay(p: RetryPolicy, hint: real, attempt: nat)
    ensures Delay(p, RateLimited(Some(hint)), attempt) == RMin(p.maxDelay, RMax(0.0, hint))
    ensures Delay(p, RateLimited(None), 0) == RMin(p.maxDelay, RMax(0.0, p.baseDelay))
  {
    assert Power(0) == 1.0;
  }

  lemma Uncapped(p: RetryPolicy, attempt: nat) returns (x: real, y: real)
    ensures Delay(p, RateLimited(None), attempt) == RMin(p.maxDelay, RMax(0.0, x))
    ensures Delay(p, RateLimited(None), attempt + 1) == RMin(p.maxDelay, RMax(0.0, y)) && y == 2.0 * x
  {
    x, y := p.baseDelay * Power(attempt), p.baseDelay * Power(attempt + 1);
    assert Power(attempt + 1) == 2.0 * Power(attempt);
  }

  /** The jitter leaves at least half of the delay, that half exactly where it is smallest,
      and is felt: a smaller factor makes a shorter sleep. */
  lemma HalfAtLeast(p: RetryPolicy, r: Result, attempt: nat, factor: real)
    requires p.maxDelay >= 0.0 && 0.5 <= factor < 1.0
    ensures Delay(p, r, attempt) / 2.0 <= Nap(p, r, attempt, factor) <= Delay(p, r, attempt)
    ensures Nap(p, r, attempt, 0.5) == Delay(p, r, attempt) / 2.0
    ensures Delay(p, r, attempt) > 0.0 && factor > 0.5 ==> Nap(p, r, attempt, 0.5) < Nap(p, r, attempt, factor)
  {
    hide Delay;
    var d := Delay(p, r, attempt);
    DelayBounds(p, r, attempt);
    Scaled(d, factor);
    NonNegative(d, factor - 0.5);
    assert d * factor == d / 2.0 + d * (factor - 0.5);
  }

  /** Retries that are asked to wait at least `h` sleep for at least half of that each. */
  lemma {:induction false} SleepsAtLeast(p: RetryPolicy, f: Provider, j: Jitter, n: nat, h: real)
    requires Factors(j) && 0.0 <= h <= p.maxDelay
    requires forall m | 0 <= m < n :: f(m).RateLimited? && f(m).retryAfter.Some? && f(m).retryAfter.value >= h
    ensures Slept(p, f, j, n) >= n as real * (h / 2.0)
  {
    hide Nap, Delay;
    if n > 0 {
      SleepsAtLeast(p, f, j, n - 1, h);
      HalfAtLeast(p, f(n - 1), n - 1, j(n - 1));
      DelaysDouble(p, f(n - 1).retryAfter.value, n - 1);
      OneMoreTime(n, h / 2.0);
    }
  }

  lemma {:induction false} CappedBy(p: RetryPolicy, f: Provider, j: Jitter, n: nat)
    requires Factors(j) && p.maxDelay >= 0.0
    ensures 0.0 <= Slept(p, f, j, n) <= n as real * p.maxDelay
  {
    hide Nap;
    if n > 0 {
      CappedBy(p, f, j, n - 1);
      NapBounds(p, f(n - 1), n - 1, j(n - 1));
      OneMoreTime(n, p.maxDelay);
    }
  }

  lemma {:induction false} GeometricBy(p: RetryPolicy, f: Provider, j: Jitter, n: nat)
    requires Factors(j) && p.maxDelay >= 0.0 && p.baseDelay >= 0.0
    requires forall m | 0 <= m < n :: f(m) == RateLimited(None)
    ensures Slept(p, f, j, n) <= p.baseDelay * (Power(n) - 1.0)
  {
    hide Nap;
    if n > 0 {
      GeometricBy(p, f, j, n - 1);
      NapBounds(p, f(n - 1), n - 1, j(n - 1));
      Doubling(p.baseDelay, Power(n - 1));
    }
  }

  lemma Doubling(a: real, x: real)
    ensures a * (2.0 * x - 1.0) == a * (x - 1.0) + a * x
  {}

  lemma PowerGrows(m: nat, n: nat)
    requires m <= n
    ensures Power(m) <= Power(n)
  {
    Pow2Grows(m, n);
  }

  lemma RealMulLe(a: real, b: real, x: real)
    requires a <= b && x >= 0.0
    ensures a * x <= b * x
  {}

  /** One provider's retries never sleep longer than the retries times the cap, hints or
      not; nor, without hints, than the geometric sum of the uncapped backoff. */
  lemma SleepBounds(p: RetryPolicy, f: Provider, j: Jitter)
    requires Factors(j) && p.maxDelay >= 0.0 && p.baseDelay >= 0.0
    ensures Slept(p, f, j, LastAttempt(p, f, 0)) <= Extra(p) as real * p.maxDelay
    ensures (forall m :: f(m).RateLimited? ==> f(m).retryAfter.None?) ==>
              Slept(p, f, j, LastAttempt(p, f, 0)) <= p.baseDelay * (Power(Extra(p)) - 1.0)
  {
    hide Slept, Power, LastAttempt;
    var n := LastAttempt(p, f, 0);
    CappedBy(p, f, j, n);
    RealMulLe(n as real, Extra(p) as real, p.maxDelay);
    if forall m :: f(m).RateLimited? ==> f(m).retryAfter.None? {
      GeometricBy(p, f, j, n);
      PowerGrows(n, Extra(p));
      RealMulLe(Power(n) - 1.0, Power(Extra(p)) - 1.0, p.baseDelay);
    }
  }

  /** `retry_with_backoff` around one provider. */
  method RetryWithBackoff(p: RetryPolicy, f: Provider, j: Jitter) returns (r: Result, calls: nat, slept: real)
    ensures calls == LastAttempt(p, f, 0) + 1 <= Extra(p) + 1
    ensures forall m | 0 <= m < calls - 1 :: f(m).RateLimited?
    ensures calls == 1 || calls <= p.retries + 1
    ensures r.RateLimited? ==> calls >= p.retries + 1
    ensures r == f(LastAttempt(p, f, 0))
    ensures slept == Slept(p, f, j, LastAttempt(p, f, 0))
  {
    hide Nap;
    var attempt := 0;
    slept := 0.0;
    while true
      invariant attempt <= Extra(p) && LastAttempt(p, f, attempt) == LastAttempt(p, f, 0)
      invariant slept == Slept(p, f, j, attempt)
      decreases Extra(p) - attempt
    {
      r := f(attempt);
      if !r.RateLimited? || attempt >= p.retries {
        return r, attempt + 1, slept;
      }
      slept := slept + Nap(p, r, attempt, j(attempt));
      attempt := attempt + 1;
    }
  }

  /** What one provider amounts to after its retries. */
  function Final(p: RetryPolicy, f: Provider): Result { f(LastAttempt(p, f, 0)) }

  /** That is the first result that is no rate limit, or that of the last attempt allowed. */
  lemma FinalIs(p: RetryPolicy, f: Provider, k: nat)
    requires forall m | 0 <= m < k :: f(m).RateLimited?
    requires k == 0 || k <= p.retries
    requires f(k).RateLimited? ==> k >= p.retries
    ensures Final(p, f) == f(k)
  {
    var last := LastAttempt(p, f, 0);
    assert f(last).RateLimited? ==> last == Extra(p);
  }

  /** The chain goes on past provider errors other than authentication. */
  predicate MovesOn(r: Result) { r.RateLimited? || r.ProviderFailed? }

  /** The provider whose result the chain ends with, if any. */
  function Deciding(p: RetryPolicy, chain: seq<Provider>): Option<nat>
    decreases |chain|
  {
    if chain == [] then None
    else if !MovesOn(Final(p, chain[0])) then Some(0)
    else match Deciding(p, chain[1..]) case None => None case Some(i) => Some(i + 1)
  }

  /** The chain ends with the first provider that answers, or that fails in a way no other
      provider can mend. */
  lemma {:induction false} DecidingIsFirst(p: RetryPolicy, chain: seq<Provider>)
    ensures Deciding(p, chain).None? <==> forall i | 0 <= i < |chain| :: MovesOn(Final(p, chain[i]))
    ensures Deciding(p, chain).Some? ==>
              var i := Deciding(p, chain).value;
              && i < |chain| && !MovesOn(Final(p, chain[i]))
              && forall k | 0 <= k < i :: MovesOn(Final(p, chain[k]))
    decreases |chain|
  {
    if chain != [] {
      DecidingIsFirst(p, chain[1..]);
      assert forall i | 0 < i < |chain| :: chain[i] == chain[1..][i - 1];
    }
  }

  function ChainResult(p: RetryPolicy, chain: seq<Provider>): Result {
    match Deciding(p, chain)
    case Some(i) => DecidingIsFirst(p, chain); Final(p, chain[i])
    case None => ProviderFailed
  }

  /** So a chain's result is that of the first provider whose retries end with a response, a
      failed authentication or a foreign exception, and a provider error if there is none. */
  lemma ChainAnswers(p: RetryPolicy, chain: seq<Provider>, i: nat)
    requires i <= |chain|
    requires forall k | 0 <= k < i :: Final(p, chain[k]).RateLimited? || Final(p, chain[k]).ProviderFailed?
    requires i < |chain| ==> var r := Final(p, chain[i]); r.Response? || r.AuthFailed? || r.Escaped?
    ensures ChainResult(p, chain) == if i < |chain| then Final(p, chain[i]) else ProviderFailed
  {
    hide Final, Deciding;
    DecidingIsFirst(p, chain);
  }

  /** The sleep over the first `n` providers; each draws its own jitter. */
  function TotalSlept(p: RetryPolicy, chain: seq<Provider>, js: nat -> Jitter, n: nat): real
    requires n <= |chain|
  {
    if n == 0 then 0.0
    else TotalSlept(p, chain, js, n - 1) + Slept(p, chain[n - 1], js(n - 1), LastAttempt(p, chain[n - 1], 0))
  }

  /** The calls of the first `n` providers: at least one each, and retries + 1 at most. */
  function TotalCalls(p: RetryPolicy, chain: seq<Provider>, n: nat): (calls: nat)
    requires n <= |chain|
    ensures n <= calls <= n * (Extra(p) + 1)
  {
    if n == 0 then 0
    else
      assert n * (Extra(p) + 1) == (n - 1) * (Extra(p) + 1) + Extra(p) + 1;
      TotalCalls(p, chain, n - 1) + LastAttempt(p, chain[n - 1], 0) + 1
  }

  /** A chain that asks `n` providers sleeps at most `n` times what one may. */
  lemma {:induction false} ChainSleepBounds(p: RetryPolicy, chain: seq<Provider>, js: nat -> Jitter, n: nat)
    requires n <= |chain| && p.maxDelay >= 0.0 && p.baseDelay >= 0.0 && forall i :: Factors(js(i))
    ensures TotalSlept(p, chain, js, n) <= n as real * (Extra(p) as real * p.maxDelay)
    ensures (forall i, m | 0 <= i < n :: chain[i](m).RateLimited? ==> chain[i](m).retryAfter.None?) ==>
              TotalSlept(p, chain, js, n) <= n as real * (p.baseDelay * (Power(Extra(p)) - 1.0))
  {
    hide Slept, Power, LastAttempt;
    if n > 0 {
      ChainSleepBounds(p, chain, js, n - 1);
      SleepBounds(p, chain[n - 1], js(n - 1));
      OneMoreTime(n, Extra(p) as real * p.maxDelay);
      OneMoreTime(n, p.baseDelay * (Power(Extra(p)) - 1.0));
    }
  }

  lemma OneMoreProvider(p: RetryPolicy, chain: seq<Provider>, js: nat -> Jitter, i: nat)
    requires i < |chain|
    ensures TotalCalls(p, chain, i + 1) == TotalCalls(p, chain, i) + LastAttempt(p, chain[i], 0) + 1
    ensures TotalSlept(p, chain, js, i + 1)
         == TotalSlept(p, chain, js, i) + Slept(p, chain[i], js(i), LastAttempt(p, chain[i], 0))
  {
    hide LastAttempt, Slept;
  }

  /** `_call_chain`: at most retries + 1 calls per provider, and none behind the one that
      decides. */
  method CallChain(p: RetryPolicy, chain: seq<Provider>, js: nat -> Jitter)
    returns (r: Result, calls: nat, asked: nat, slept: real)
    ensures r == ChainResult(p, chain)
    ensures asked == match Deciding(p, chain) case Some(i) => i + 1 case None => |chain|
    ensures asked <= |chain| && asked <= calls <= asked * (Extra(p) + 1)
    ensures calls == TotalCalls(p, chain, asked)
    ensures slept == TotalSlept(p, chain, js, asked)
  {
    hide LastAttempt, Slept, Deciding, Extra;
    calls, asked, slept := 0, 0, 0.0;
    assert TotalCalls(p, chain, 0) == 0 && TotalSlept(p, chain, js, 0) == 0.0;
    hide TotalCalls, TotalSlept;
    DecidingIsFirst(p, chain);
    for i := 0 to |chain|
      invariant asked == i && calls == TotalCalls(p, chain, i)
      invariant slept == TotalSlept(p, chain, js, i)
      invariant forall k | 0 <= k < i :: MovesOn(Final(p, chain[k]))
    {
      var n, nap;
      r, n, nap := RetryWithBackoff(p, chain[i], js(i));
      OneMoreProvider(p, chain, js, i);
      calls, asked, slept := calls + n, i + 1, slept + nap;
      if !MovesOn(r) {
        return;
      }
    }
    r := ProviderFailed;
  }

  /** One extraction through the breaker: nothing is called and nothing recorded when the
      circuit rejects it; otherwise exactly one outcome is recorded, a success just when the
      chain has a response. */
  method Extract(breaker: B.CircuitBreaker, enterAt: int, endAt: int, p: RetryPolicy, chain: seq<Provider>,
      js: nat -> Jitter)
    returns (r: Result, calls: nat)
    modifies breaker
    ensures calls <= |chain| * (Extra(p) + 1)
    ensures B.Before(breaker.config, old(breaker.Abs()), enterAt).None? ==>
              calls == 0 && r == ProviderFailed && breaker.Abs() == old(breaker.Abs())
    ensures B.Before(breaker.config, old(breaker.Abs()), enterAt).Some? ==>
              var b := B.Before(breaker.config, old(breaker.Abs()), enterAt).value;
              && r == ChainResult(p, chain)
              && breaker.Abs() == if r.Response? then B.OnSuccess(b) else B.OnFailure(breaker.config, b, endAt)
  {
    var retryAfter := breaker.BeforeCall(enterAt);
    if retryAfter.Some? {
      return ProviderFailed, 0;
    }
    var asked, slept;
    r, calls, asked, slept := CallChain(p, chain, js);
    assert asked * (Extra(p) + 1) <= |chain| * (Extra(p) + 1) by { MulLe(asked, |chain|, Extra(p) + 1); }
    if r.Response? {
      breaker.RecordSuccess();
    } else {
      breaker.RecordFailure(endAt);
    }
  }

  lemma MulLe(a: nat, b: nat, m: nat)
    requires a <= b
    ensures a * m <= b * m
  {}
}
