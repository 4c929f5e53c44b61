/** The circuit breaker, under any interleaving of the calls that share it. Each of its three
    lock-protected sections is one step; times are ticks of a monotonic clock. */
module CircuitBreaker {
  import opened Text

  datatype Mode = Closed | Open | HalfOpen

  /** The constructor's clamped arguments. */
  datatype Config = Config(threshold: nat, reset: nat)

  function MakeConfig(failureThreshold: int, resetTimeout: int): (c: Config)
    ensures c.threshold >= 1 && c.threshold >= failureThreshold
    ensures c.threshold == 1 || c.threshold == failureThreshold
    ensures c.reset >= 0 && c.reset >= resetTimeout && (c.reset == 0 || c.reset == resetTimeout)
  {
    Config(if failureThreshold < 1 then 1 else failureThreshold, if resetTimeout < 0 then 0 else resetTimeout)
  }

  /** The breaker's three fields. */
  datatype Breaker = Breaker(mode: Mode, failures: nat, openedAt: int)

  const NEW := Breaker(Closed, 0, 0)

  /** `_before_call`: the new state, or None if the call is rejected. */
  function Before(c: Config, b: Breaker, now: int): Option<Breaker> {
    if b.mode.Open? then
      if now - b.openedAt >= c.reset then Some(b.(mode := HalfOpen)) else None
    else Some(b)
  }

  function OnSuccess(b: Breaker): Breaker { Breaker(Closed, 0, b.openedAt) }

  function OnFailure(c: Config, b: Breaker, now: int): Breaker {
    var n := b.failures + 1;
    if b.mode.HalfOpen? || n >= c.threshold then Breaker(Open, n, now) else b.(failures := n)
  }

  /** The breaker with a record of what has happened: calls in flight, calls let through,
      failures since the last success or reset, the time of the last recorded failure, the
      times at which a trial began, and when the circuit first opened. */
  datatype State = State(
    now: int,
    b: Breaker,
    inFlight: nat,
    admitted: nat,
    sinceSuccess: nat,
    lastFailure: Option<int>,
    trials: seq<int>,
    firstOpen: Option<int>)

  datatype Step = Tick(elapsed: nat) | Enter | Succeed | Fail | Cancel | Reset

  const INIT := State(0, NEW, 0, 0, 0, None, [], None)

  predicate Enabled(s: State, step: Step) {
    step.Succeed? || step.Fail? || step.Cancel? ==> s.inFlight > 0
  }

  function Next(c: Config, s: State, step: Step): State
    requires Enabled(s, step)
  {
    match step
    case Tick(d) => s.(now := s.now + d)
    case Enter =>
      (match Before(c, s.b, s.now)
       case None => s
       case Some(b) =>
         s.(b := b, inFlight := s.inFlight + 1, admitted := s.admitted + 1,
            trials := if b.mode != s.b.mode then s.trials + [s.now] else s.trials))
    case Succeed => s.(b := OnSuccess(s.b), inFlight := s.inFlight - 1, sinceSuccess := 0)
    case Fail =>
      var b := OnFailure(c, s.b, s.now);
      s.(b := b, inFlight := s.inFlight - 1, sinceSuccess := s.sinceSuccess + 1, lastFailure := Some(s.now),
         firstOpen := if s.firstOpen.None? && b.mode.Open? then Some(s.now) else s.firstOpen)
    case Cancel => s.(inFlight := s.inFlight - 1)
    case Reset => s.(b := NEW, sinceSuccess := 0)
  }

  ghost predicate Run(c: Config, s: State, steps: seq<Step>, t: State)
    decreases |steps|
  {
    if steps == [] then s == t
    else Enabled(s, steps[0]) && Run(c, Next(c, s, steps[0]), steps[1..], t)
  }

  ghost predicate Inv(c: Config, s: State) {
    && (s.b.mode.Closed? <==> s.b.failures < c.threshold)
    && s.b.failures == s.sinceSuccess
    && (s.b.mode.Open? ==> Some(s.b.openedAt) == s.lastFailure && s.b.openedAt <= s.now)
    && (s.trials != [] ==> s.trials[|s.trials| - 1] <= s.now)
    && (s.trials != [] && s.b.mode.Open? ==> s.trials[|s.trials| - 1] <= s.b.openedAt)
    && (forall i | 0 < i < |s.trials| :: s.trials[i] - s.trials[i - 1] >= c.reset)
  }

  lemma InvStep(c: Config, s: State, step: Step)
    requires c.threshold >= 1 && Inv(c, s) && Enabled(s, step)
    ensures Inv(c, Next(c, s, step))
  {}

  lemma {:induction false} InvRun(c: Config, s: State, steps: seq<Step>, t: State)
    requires c.threshold >= 1 && Inv(c, s) && Run(c, s, steps, t)
    ensures Inv(c, t)
    decreases |steps|
  {
    if steps != [] {
      InvStep(c, s, steps[0]);
      InvRun(c, Next(c, s, steps[0]), steps[1..], t);
    }
  }

  /** Under any interleaving: the circuit is closed exactly while fewer failures than the
      threshold have been recorded since the last success; an open circuit dates from the
      latest recorded failure; and trials begin at least the reset timeout apart. */
  lemma BreakerLaws(c: Config, steps: seq<Step>, s: State)
    requires c.threshold >= 1 && Run(c, INIT, steps, s)
    ensures s.b.mode.Closed? <==> s.sinceSuccess < c.threshold
    ensures s.b.mode.Open? ==> s.lastFailure == Some(s.b.openedAt)
    ensures forall i, j | 0 <= i < j < |s.trials| :: s.trials[j] - s.trials[i] >= c.reset
  {
    InvRun(c, INIT, steps, s);
    forall i, j | 0 <= i < j < |s.trials|
      ensures s.trials[j] - s.trials[i] >= c.reset
    {
      Spread(c, s.trials, i, j);
    }
  }

  /** The reset timeout has passed since the latest recorded failure. */
  predicate Waited(c: Config, s: State) { s.lastFailure.Some? && s.now - s.lastFailure.value >= c.reset }

  /** Which calls get through, in every reachable state, and what each step makes of the
      circuit: it rejects a call exactly while it is open and the timeout since the latest
      failure has not passed; a call that gets through an open circuit makes it half-open; a
      failure opens it exactly if that makes as many since the last success as the threshold
      allows, and closes it never. */
  lemma AdmitsAndModes(c: Config, before: seq<Step>, s: State, step: Step)
    requires c.threshold >= 1 && Run(c, INIT, before, s) && Enabled(s, step)
    ensures Next(c, s, step).admitted
         == s.admitted + if step.Enter? && (!s.b.mode.Open? || Waited(c, s)) then 1 else 0
    ensures Next(c, s, step).b.mode
         == match step
            case Enter => if s.b.mode.Open? && Waited(c, s) then HalfOpen else s.b.mode
            case Succeed => Closed
            case Fail => if s.sinceSuccess + 1 >= c.threshold then Open else Closed
            case Reset => Closed
            case _ => s.b.mode
  {
    InvRun(c, INIT, before, s);
  }

  lemma {:induction false} Spread(c: Config, ts: seq<int>, i: nat, j: nat)
    requires i < j < |ts| && forall k | 0 < k < |ts| :: ts[k] - ts[k - 1] >= c.reset
    ensures ts[j] - ts[i] >= c.reset
    decreases j
  {
    if i < j - 1 {
      Spread(c, ts, i, j - 1);
    }
  }

  /** Calls made one after the other, none cancelled. */
  ghost predicate Sequential(c: Config, s: State, steps: seq<Step>)
    decreases |steps|
  {
    steps != [] ==>
      && Enabled(s, steps[0])
      && !steps[0].Cancel? && !steps[0].Reset?
      && (steps[0].Enter? ==> s.inFlight == 0)
      && Sequential(c, Next(c, s, steps[0]), steps[1..])
  }

  /** A half-open circuit lets through one trial call when calls are sequential. */
  lemma {:induction false} SequentialTrial(c: Config, s: State, steps: seq<Step>, t: State)
    requires Run(c, s, steps, t) && Sequential(c, s, steps)
    requires s.inFlight <= 1 && (s.b.mode.HalfOpen? ==> s.inFlight == 1)
    ensures t.inFlight <= 1 && (t.b.mode.HalfOpen? ==> t.inFlight == 1)
    decreases |steps|
  {
    if steps != [] {
      SequentialTrial(c, Next(c, s, steps[0]), steps[1..], t);
    }
  }

  function Enters(steps: seq<Step>): nat {
    if steps == [] then 0 else (if steps[0].Enter? then 1 else 0) + Enters(steps[1..])
  }

  /** It lets through exactly the calls that are made before the first one ends: it stays
      half-open until then and rejects none. So there is a single trial exactly when nobody
      else calls meanwhile. */
  lemma {:induction false} HalfOpenAdmitsAll(c: Config, s: State, steps: seq<Step>, t: State)
    requires s.b.mode.HalfOpen? && Run(c, s, steps, t)
    requires forall x | x in steps :: x.Tick? || x.Enter? || x.Cancel?
    ensures t.b == s.b && t.admitted == s.admitted + Enters(steps)
    decreases |steps|
  {
    if steps != [] {
      assert steps[0] in steps;
      HalfOpenAdmitsAll(c, Next(c, s, steps[0]), steps[1..], t);
    }
  }

  /** With concurrent callers that is any number. */
  lemma {:induction false} ConcurrentTrials(c: Config, s: State, n: nat)
    requires s.b.mode.HalfOpen?
    ensures var t := s.(inFlight := s.inFlight + n, admitted := s.admitted + n);
      Run(c, s, seq(n, _ => Enter), t) && t.b.mode.HalfOpen?
    decreases n
  {
    var steps := seq(n, _ => Enter);
    if n > 0 {
      ConcurrentTrials(c, Next(c, s, Enter), n - 1);
      assert steps[1..] == seq(n - 1, _ => Enter);
    }
  }

  ghost predicate SeqInv(c: Config, s: State) {
    && Inv(c, s) && s.inFlight <= 1 && s.admitted == s.b.failures + s.inFlight
    && (s.firstOpen.None? <==> s.b.mode.Closed?)
    && (s.b.mode.HalfOpen? ==> s.inFlight == 1)
    && (s.b.mode.Open? ==>
        s.inFlight == 0 && (s.b.failures - c.threshold) * c.reset <= s.b.openedAt - s.firstOpen.value)
    && (s.b.mode.HalfOpen? ==> (s.b.failures + 1 - c.threshold) * c.reset <= s.now - s.firstOpen.value)
  }

  lemma OneMore(k: int, r: nat)
    ensures (k + 1) * r == k * r + r
  {}

  lemma SeqInvStep(c: Config, s: State, step: Step)
    requires c.threshold >= 1 && SeqInv(c, s) && Enabled(s, step)
    requires step.Tick? || (step.Enter? && s.inFlight == 0) || step.Fail?
    ensures SeqInv(c, Next(c, s, step))
  {
    InvStep(c, s, step);
    OneMore(s.b.failures - c.threshold, c.reset);
    assert (c.threshold - c.threshold) * c.reset == 0;
  }

  lemma {:induction false} SeqInvRun(c: Config, s: State, steps: seq<Step>, t: State)
    requires c.threshold >= 1 && SeqInv(c, s) && Run(c, s, steps, t) && Sequential(c, s, steps)
    requires forall x | x in steps :: !x.Succeed?
    ensures SeqInv(c, t)
    decreases |steps|
  {
    if steps != [] {
      assert steps[0] in steps;
      SeqInvStep(c, s, steps[0]);
      SeqInvRun(c, Next(c, s, steps[0]), steps[1..], t);
    }
  }

  /** A dependency that only fails, called sequentially, is called at most `threshold` times
      plus once per reset timeout since the circuit first opened. */
  lemma FailingCallsBounded(c: Config, steps: seq<Step>, s: State)
    requires c.threshold >= 1 && c.reset > 0
    requires Run(c, INIT, steps, s) && Sequential(c, INIT, steps) && forall x | x in steps :: !x.Succeed?
    ensures s.firstOpen.None? ==> s.admitted <= c.threshold
    ensures s.firstOpen.Some? ==> s.admitted <= c.threshold + (s.now - s.firstOpen.value) / c.reset
  {
    SeqInvRun(c, INIT, steps, s);
    if s.firstOpen.Some? {
      var k := s.admitted - c.threshold;
      assert k * c.reset <= s.now - s.firstOpen.value;
      DivisionBound(k, c.reset, s.now - s.firstOpen.value);
    }
  }

  lemma DivisionBound(k: int, r: int, x: int)
    requires r > 0 && k * r <= x
    ensures k <= x / r
  {
    if k > x / r {
      assert (x / r + 1) * r == (x / r) * r + r;
      assert k * r >= (x / r + 1) * r by { MulMonotone(x / r + 1, k, r); }
    }
  }

  lemma MulMonotone(a: int, b: int, r: int)
    requires a <= b && r > 0
    ensures a * r <= b * r
  {}

  /** How a wrapped call ended. */
  datatype Ended = Returned | Raised | Cancelled

  class CircuitBreaker {
    const config: Config
    var mode: Mode
    var failures: nat
    var openedAt: int

    ghost function Abs(): Breaker
      reads this
    {
      Breaker(mode, failures, openedAt)
    }

    constructor (failureThreshold: int, resetTimeout: int)
      ensures config == MakeConfig(failureThreshold, resetTimeout) && Abs() == NEW
    {
      config := MakeConfig(failureThreshold, resetTimeout);
      mode, failures, openedAt := Closed, 0, 0;
    }

    method BeforeCall(now: int) returns (retryAfter: Option<int>)
      modifies this
      ensures retryAfter.None? <==> Before(config, old(Abs()), now).Some?
      ensures retryAfter.None? ==> Some(Abs()) == Before(config, old(Abs()), now)
      ensures retryAfter.Some? ==> Abs() == old(Abs()) && retryAfter.value == openedAt + config.reset - now > 0
    {
      if mode.Open? {
        var elapsed := now - openedAt;
        if elapsed >= config.reset {
          mode := HalfOpen;
        } else {
          return Some(config.reset - elapsed);
        }
      }
      return None;
    }

    method RecordSuccess()
      modifies this
      ensures Abs() == OnSuccess(old(Abs()))
    {
      failures := 0;
      mode := Closed;
    }

    method RecordFailure(now: int)
      modifies this
      ensures Abs() == OnFailure(config, old(Abs()), now)
    {
      failures := failures + 1;
      if mode.HalfOpen? || failures >= config.threshold {
        mode := Open;
        openedAt := now;
      }
    }

    /** `call` undisturbed by other callers: a rejected call records nothing, a finished one
        exactly its own outcome, a cancelled one only its entry. */
    method Call(enterAt: int, endAt: int, ended: Ended) returns (rejected: bool)
      modifies this
      ensures rejected <==> Before(config, old(Abs()), enterAt).None?
      ensures rejected ==> Abs() == old(Abs())
      ensures !rejected ==>
        var b := Before(config, old(Abs()), enterAt).value;
        Abs() == match ended
                 case Returned => OnSuccess(b)
                 case Raised => OnFailure(config, b, endAt)
                 case Cancelled => b
    {
      var retryAfter := BeforeCall(enterAt);
      if retryAfter.Some? {
        return true;
      }
      match ended {
        case Returned => RecordSuccess();
        case Raised => RecordFailure(endAt);
        case Cancelled =>
      }
      return false;
    }
  }
}
