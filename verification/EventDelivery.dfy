/** The retry queue for hosted-link lifecycle events: a FIFO with one post in flight and at
    most one retry timer. A step is one uninterrupted stretch of script: an `enqueue`, the
    settling of a post, the firing of the timer, or time passing. */
module EventDelivery {
  import opened Text
  import opened Arithmetic

  datatype Options = Options(maxAttempts: int, baseDelayMs: nat, maxDelayMs: nat)

  /** Events are named by their place in the enqueue order. `posting` is the event that the
      suspended `drain` has captured. `settled` and `posts` record what has happened: the
      events taken off the queue, in order, and how often each one was posted. */
  datatype State = State(
    now: int,
    queue: seq<nat>,
    attempts: seq<nat>,
    posting: Option<nat>,
    timer: Option<int>,
    settled: seq<nat>,
    posts: seq<nat>)

  const INIT := State(0, [], [], None, None, [], [])

  datatype Step = Enqueue | PostOk | PostFailed(reentrant: nat) | TimerFires | Tick(elapsed: nat) | Dispose

  // --------------------------------------------------------------------- transitions

  /** The part of `drain` before its `await`. */
  function Drain(s: State): State {
    if s.posting.Some? || s.queue == [] then s
    else
      var next := s.queue[0];
      s.(posting := Some(next), posts := Bump(s.posts, next))
  }

  function Bump(counts: seq<nat>, i: nat): seq<nat> {
    if i < |counts| then counts[i := counts[i] + 1] else counts
  }

  function Count(counts: seq<nat>, i: nat): nat { if i < |counts| then counts[i] else 0 }

  function Push(s: State): State {
    s.(queue := s.queue + [|s.attempts|], attempts := s.attempts + [0], posts := s.posts + [0])
  }

  function EnqueueOne(s: State): State { Drain(Push(s)) }

  /** `queue.shift()` does nothing on an empty queue. */
  function Shift(s: State): State {
    if s.queue == [] then s else s.(queue := s.queue[1..], settled := s.settled + [s.queue[0]])
  }

  function Backoff(o: Options, attempts: nat): nat
    requires attempts > 0
  {
    Min(o.baseDelayMs * Pow2(attempts - 1), o.maxDelayMs)
  }

  function ScheduleRetry(s: State, delay: nat): State {
    if s.timer.Some? then s else s.(timer := Some(s.now + delay))
  }

  /** The failure callback may itself enqueue events. */
  function EnqueueMany(s: State, n: nat): State
    decreases n
  {
    if n == 0 then s else EnqueueMany(EnqueueOne(s), n - 1)
  }

  function CountFailure(s: State, next: nat): State {
    s.(posting := None, attempts := Bump(s.attempts, next))
  }

  /** The catch block once the failure is counted, so `n` is at least 1. */
  function AfterFailure(o: Options, t: State, next: nat, reentrant: nat): State {
    var n := Count(t.attempts, next);
    if n >= o.maxAttempts || n == 0 then Drain(EnqueueMany(Shift(t), reentrant))
    else ScheduleRetry(t, Backoff(o, n))
  }

  predicate Enabled(s: State, step: Step) {
    match step
    case PostOk => s.posting.Some?
    case PostFailed(_) => s.posting.Some?
    case TimerFires => s.timer.Some? && s.now >= s.timer.value
    case _ => true
  }

  function Next(o: Options, s: State, step: Step): State
    requires Enabled(s, step)
  {
    match step
    case Enqueue => EnqueueOne(s)
    case PostOk => Drain(Shift(s.(posting := None)))
    case PostFailed(reentrant) =>
      AfterFailure(o, CountFailure(s, s.posting.value), s.posting.value, reentrant)
    case TimerFires => Drain(s.(timer := None))
    case Tick(d) => s.(now := s.now + d)
    case Dispose => s.(timer := None, queue := [])
  }

  ghost predicate Run(o: Options, s: State, steps: seq<Step>, t: State)
    decreases |steps|
  {
    if steps == [] then s == t
    else Enabled(s, steps[0]) && Run(o, Next(o, s, steps[0]), steps[1..], t)
  }

  // ------------------------------------------------------------------------ invariant

  /** How often an event is posted at most: a bound below one still means one post. */
  function Limit(o: Options): nat { if o.maxAttempts < 1 then 1 else o.maxAttempts }

  /** `[0, 1, ..., n - 1]`, the enqueue history. */
  predicate IsHistory(s: seq<nat>, n: nat) { |s| == n && forall i | 0 <= i < n :: s[i] == i }

  ghost predicate Core(o: Options, s: State) {
    && |s.posts| == |s.attempts|
    && IsHistory(s.settled + s.queue, |s.attempts|)
    && (s.posting.Some? ==> s.queue != [] && s.posting.value == s.queue[0])
    && (forall i | |s.settled| < i < |s.attempts| :: s.attempts[i] == 0 && s.posts[i] == 0)
    && (s.queue != [] ==> s.attempts[|s.settled|] < Limit(o))
    && (s.queue != [] ==> s.posts[|s.settled|] == s.attempts[|s.settled|] + if s.posting.Some? then 1 else 0)
    && (forall i | 0 <= i < |s.posts| :: s.posts[i] <= Limit(o))
    && (forall i | 0 <= i < |s.settled| :: s.posts[i] >= 1)
  }

  /** Between steps a non-empty queue is being posted or has a retry coming. */
  ghost predicate Inv(o: Options, s: State) {
    Core(o, s) && (s.queue != [] ==> s.posting.Some? || s.timer.Some?)
  }

  lemma HeadIs(o: Options, s: State)
    requires Core(o, s) && s.queue != []
    ensures s.queue[0] == |s.settled| < |s.attempts|
  {
    assert (s.settled + s.queue)[|s.settled|] == s.queue[0];
  }

  lemma DrainCore(o: Options, s: State)
    requires Core(o, s)
    ensures Inv(o, Drain(s))
  {
    if s.queue != [] {
      HeadIs(o, s);
    }
  }

  lemma PushCore(o: Options, s: State)
    requires Core(o, s)
    ensures Core(o, Push(s))
  {
    var t := Push(s);
    assert t.settled + t.queue == (s.settled + s.queue) + [|s.attempts|];
  }

  lemma ShiftCore(o: Options, s: State)
    requires |s.posts| == |s.attempts| && IsHistory(s.settled + s.queue, |s.attempts|) && s.queue != []
    requires s.posting.None?
    requires forall i | |s.settled| < i < |s.attempts| :: s.attempts[i] == 0 && s.posts[i] == 0
    requires forall i | 0 <= i < |s.posts| :: s.posts[i] <= Limit(o)
    requires forall i | 0 <= i <= |s.settled| :: i < |s.posts| && s.posts[i] >= 1
    ensures Core(o, Shift(s))
  {
    var t := Shift(s);
    assert t.settled + t.queue == s.settled + s.queue;
  }

  lemma {:induction false} EnqueueManyCore(o: Options, s: State, n: nat)
    requires Core(o, s)
    ensures Core(o, EnqueueMany(s, n))
    decreases n
  {
    if n > 0 {
      PushCore(o, s);
      DrainCore(o, Push(s));
      EnqueueManyCore(o, EnqueueOne(s), n - 1);
    }
  }

  lemma InvStep(o: Options, s: State, step: Step)
    requires Inv(o, s) && Enabled(s, step) && !step.Dispose?
    ensures Inv(o, Next(o, s, step))
  {
    match step {
      case Enqueue =>
        PushCore(o, s);
        DrainCore(o, Push(s));
      case PostOk =>
        HeadIs(o, s);
        ShiftCore(o, s.(posting := None));
        DrainCore(o, Shift(s.(posting := None)));
      case PostFailed(reentrant) =>
        HeadIs(o, s);
        var t := CountFailure(s, s.posting.value);
        if t.attempts[s.posting.value] >= o.maxAttempts {
          ShiftCore(o, t);
          EnqueueManyCore(o, Shift(t), reentrant);
          DrainCore(o, EnqueueMany(Shift(t), reentrant));
        }
      case TimerFires =>
        DrainCore(o, s.(timer := None));
      case Tick(_) =>
    }
  }

  lemma {:induction false} InvRun(o: Options, s: State, steps: seq<Step>, t: State)
    requires Inv(o, s) && Run(o, s, steps, t) && Dispose !in steps
    ensures Inv(o, t)
    decreases |steps|
  {
    if steps != [] {
      InvStep(o, s, steps[0]);
      InvRun(o, Next(o, s, steps[0]), steps[1..], t);
    }
  }

  /** Without `dispose`, in every state between steps: the events settled so far followed by
      the queue are the enqueue history in order; a waiting event is being posted or has a
      retry coming; the post in flight is for the head; the others are untouched; every
      settled event was posted, and none more often than the limit. */
  lemma Delivery(o: Options, steps: seq<Step>, s: State)
    requires Run(o, INIT, steps, s) && Dispose !in steps
    ensures IsHistory(s.settled + s.queue, |s.attempts|)
    ensures s.queue != [] ==> s.posting.Some? || s.timer.Some?
    ensures s.posting.Some? ==> s.queue != [] && s.posting.value == s.queue[0]
    ensures |s.posts| == |s.attempts|
    ensures forall i | 1 <= i < |s.queue| ::
        s.queue[i] < |s.attempts| && s.attempts[s.queue[i]] == 0 && s.posts[s.queue[i]] == 0
    ensures forall e | e in s.settled :: e < |s.posts| && s.posts[e] >= 1
    ensures forall e | 0 <= e < |s.posts| :: s.posts[e] <= Limit(o)
  {
    InvRun(o, INIT, steps, s);
    forall i | 1 <= i < |s.queue|
      ensures s.queue[i] == |s.settled| + i
    {
      assert (s.settled + s.queue)[|s.settled| + i] == s.queue[i];
    }
    forall e | e in s.settled
      ensures e < |s.settled|
    {
      var i :| 0 <= i < |s.settled| && s.settled[i] == e;
      assert (s.settled + s.queue)[i] == e;
    }
  }

  // --------------------------------------------------------------- bounded retrying

  /** Posts that may still end, counting every queued event up to the limit. */
  function Work(o: Options, s: State): int {
    if s.queue == [] then 0
    else if |s.settled| < |s.attempts| then |s.queue| * Limit(o) - s.attempts[|s.settled|]
    else 0
  }

  predicate Outcome(step: Step) { step.PostOk? || step.PostFailed? }

  predicate AddsEvents(step: Step) { step.Enqueue? || (step.PostFailed? && step.reentrant > 0) }

  lemma MulStep(n: nat, m: nat)
    requires n > 0
    ensures n * m == (n - 1) * m + m
  {}

  /** Every post that ends, either way, uses up work; nothing but new events adds any. */
  lemma OutcomeUsesWork(o: Options, s: State, step: Step)
    requires Inv(o, s) && Enabled(s, step) && !step.Dispose? && !AddsEvents(step)
    ensures Work(o, Next(o, s, step)) <= Work(o, s) - if Outcome(step) then 1 else 0
    ensures Work(o, s) >= 0
  {
    if s.queue != [] {
      HeadIs(o, s);
      MulStep(|s.queue|, Limit(o));
      assert (|s.queue| - 1) * Limit(o) >= 0;
    }
    if Outcome(step) {
      InvStep(o, s, step);
    }
  }

  function Outcomes(steps: seq<Step>): nat {
    if steps == [] then 0 else (if Outcome(steps[0]) then 1 else 0) + Outcomes(steps[1..])
  }

  /** Retrying stops: once no more events arrive, at most Work posts can still end, whatever
      the network does. */
  lemma {:induction false} RetriesAreBounded(o: Options, s: State, steps: seq<Step>, t: State)
    requires Inv(o, s) && Run(o, s, steps, t) && Dispose !in steps
    requires forall x | x in steps :: !AddsEvents(x)
    ensures Outcomes(steps) <= Work(o, s) - Work(o, t)
    ensures Work(o, t) >= 0
    decreases |steps|
  {
    if steps == [] {
      OutcomeUsesWork(o, s, Tick(0));
    } else {
      OutcomeUsesWork(o, s, steps[0]);
      InvStep(o, s, steps[0]);
      RetriesAreBounded(o, Next(o, s, steps[0]), steps[1..], t);
    }
  }

  // -------------------------------------------------------------- when retries come

  /** An idle queue starts a post exactly by an `enqueue`, or by the timer if anything is
      waiting, once it is due; the post is for the head. A post in flight is never replaced
      by an `enqueue`, and nothing else than the end of a post or a `dispose` takes from the
      queue. */
  lemma WhatStartsPosts(o: Options, s: State, step: Step)
    requires Inv(o, s) && Enabled(s, step) && !Outcome(step)
    ensures var t := Next(o, s, step);
            if s.posting.Some? then t.posting == s.posting
            else t.posting == if step.Enqueue? || (step.TimerFires? && s.queue != []) then Some(t.queue[0]) else None
    ensures step.TimerFires? ==> s.timer.Some? && s.now >= s.timer.value && Next(o, s, step).timer.None?
    ensures !step.Dispose? && !step.TimerFires? ==> Next(o, s, step).timer == s.timer
    ensures var t := Next(o, s, step);
            && t.queue == (if step.Dispose? then [] else if step.Enqueue? then s.queue + [|s.attempts|] else s.queue)
            && t.settled == s.settled
  {}

  /** The post in flight, if it fails now, is to be tried again. */
  predicate Retriable(o: Options, s: State) {
    s.posting.Some? && Count(s.attempts, s.posting.value) + 1 < o.maxAttempts
  }

  /** The back-off that such a failure asks for. */
  function Asked(o: Options, s: State): nat
    requires Retriable(o, s)
  {
    Backoff(o, Count(s.attempts, s.posting.value) + 1)
  }

  /** When the timer is due after such a failure: a timer that is pending stays as it is. */
  function RetryAt(o: Options, s: State): int
    requires Retriable(o, s)
  {
    if s.timer.Some? then s.timer.value else s.now + Asked(o, s)
  }

  /** Steps without `dispose` from `s` to `t`, with no post in flight. */
  ghost predicate Waits(o: Options, s: State, steps: seq<Step>, t: State)
    decreases |steps|
  {
    && s.posting.None?
    && if steps == [] then s == t
       else Enabled(s, steps[0]) && !steps[0].Dispose? && Waits(o, Next(o, s, steps[0]), steps[1..], t)
  }

  /** After that wait, the step `x` starts the next post. */
  ghost predicate NextPost(o: Options, s: State, steps: seq<Step>, t: State, x: Step) {
    Waits(o, s, steps, t) && Enabled(t, x) && !x.Dispose? && Next(o, t, x).posting.Some?
  }

  lemma FailureArms(o: Options, s: State, reentrant: nat)
    requires Inv(o, s) && Retriable(o, s)
    ensures var s1 := Next(o, s, PostFailed(reentrant));
            && s1.posting.None? && s1.queue == s.queue && s1.now == s.now && s1.timer == Some(RetryAt(o, s))
  {
    HeadIs(o, s);
  }

  /** The failed post is to be tried again and finds no timer, so it arms its own. */
  predicate Arms(o: Options, s: State) { Retriable(o, s) && s.timer.None? && s.posting.value < |s.attempts| }

  /** How long from the failure to the retry that it arms. */
  function Armed(o: Options, s: State, reentrant: nat): (delay: int)
    requires Arms(o, s)
  {
    var s1 := Next(o, s, PostFailed(reentrant));
    if s1.timer.Some? then s1.timer.value - s.now else -1
  }

  /** The delays that failures arm: the smaller of base and cap after the first, and after
      each further one, of whatever event and in whatever state, the smaller of the cap and
      twice the delay of the failure before. */
  lemma DelaysDouble(o: Options, s: State, r: nat, t: State, q: nat)
    requires Arms(o, s) && Arms(o, t)
    ensures s.attempts[s.posting.value] == 0 ==>
              Armed(o, s, r) == if o.baseDelayMs < o.maxDelayMs then o.baseDelayMs else o.maxDelayMs
    ensures t.attempts[t.posting.value] == s.attempts[s.posting.value] + 1 ==>
              Armed(o, t, q) == if 2 * Armed(o, s, r) < o.maxDelayMs then 2 * Armed(o, s, r) else o.maxDelayMs
  {
    var n := s.attempts[s.posting.value];
    assert Armed(o, s, r) == Backoff(o, n + 1);
    if t.attempts[t.posting.value] == n + 1 {
      assert Armed(o, t, q) == Backoff(o, n + 2);
      TwiceAsLong(o, n + 1);
    }
  }

  lemma TwiceAsLong(o: Options, n: nat)
    requires n > 0
    ensures Backoff(o, n + 1) == if 2 * Backoff(o, n) < o.maxDelayMs then 2 * Backoff(o, n) else o.maxDelayMs
  {
    assert Pow2(n) == 2 * Pow2(n - 1);
    assert o.baseDelayMs * Pow2(n) == 2 * (o.baseDelayMs * Pow2(n - 1));
  }

  /** What the end of a post does to the queue: an accepted event leaves it, and so does one
      that failed for the last time allowed, followed by the post of the next; any other
      failure leaves the queue alone, with a retry pending. */
  lemma OutcomeSettles(o: Options, s: State, x: Step)
    requires Inv(o, s) && Enabled(s, x) && Outcome(x)
    ensures var s1 := Next(o, s, x);
            if x.PostOk? || s.attempts[|s.settled|] + 1 >= o.maxAttempts then
              && s1.settled == s.settled + [s.queue[0]]
              && s.queue[1..] <= s1.queue
              && |s1.queue| == |s.queue| - 1 + (if x.PostFailed? then x.reentrant else 0)
              && s1.posting == (if s1.queue == [] then None else Some(s1.queue[0]))
              && s1.timer == s.timer
            else
              && s1.settled == s.settled && s1.queue == s.queue && s1.posting.None? && s1.timer.Some?
              && (s.timer.Some? ==> s1.timer == s.timer)
  {
    HeadIs(o, s);
    if x.PostFailed? {
      var t := Shift(CountFailure(s, s.posting.value));
      ManyJoin(t, x.reentrant);
    }
  }

  lemma {:induction false} ManyJoin(s: State, n: nat)
    ensures var t := EnqueueMany(s, n);
            && s.queue <= t.queue && |t.queue| == |s.queue| + n
            && t.settled == s.settled && t.timer == s.timer && t.now == s.now
            && (s.posting.Some? ==> t.posting == s.posting)
            && (s.posting.None? ==> t.posting == if n == 0 then None else Some(t.queue[0]))
    decreases n
  {
    if n > 0 {
      ManyJoin(EnqueueOne(s), n - 1);
    }
  }

  /** While the head waits for its retry, only time can pass. */
  lemma {:induction false} OnlyTimePasses(o: Options, s: State, steps: seq<Step>, t: State)
    requires s.queue != [] && Waits(o, s, steps, t)
    ensures t == s.(now := t.now) && t.now >= s.now
    decreases |steps|
  {
    if steps != [] {
      OnlyTimePasses(o, Next(o, s, steps[0]), steps[1..], t);
    }
  }

  /** The next post after such a failure is for the same event, and is started by an
      `enqueue` or by the timer, not before the timer is due. */
  lemma NextPostIs(o: Options, s: State, reentrant: nat, steps: seq<Step>, t: State, x: Step)
    requires Inv(o, s) && Retriable(o, s) && NextPost(o, Next(o, s, PostFailed(reentrant)), steps, t, x)
    ensures Next(o, t, x).posting == s.posting && t.now >= s.now
    ensures x.Enqueue? || (x.TimerFires? && t.now >= RetryAt(o, s))
  {
    var s1 := Next(o, s, PostFailed(reentrant));
    FailureArms(o, s, reentrant);
    OnlyTimePasses(o, s1, steps, t);
  }

  /** The next post comes no sooner than the back-off asks, on every continuation in which
      an `enqueue` may or may not start it. */
  ghost predicate KeepsBackoff(o: Options, s: State, reentrant: nat, enqueues: bool)
    requires Retriable(o, s)
  {
    forall steps, t, x | NextPost(o, Next(o, s, PostFailed(reentrant)), steps, t, x) && (x.Enqueue? ==> enqueues) ::
      t.now >= s.now + Asked(o, s)
  }

  /** The retry of a failed post keeps its back-off exactly when no timer was pending at the
      failure, or one that was not due sooner, provided no `enqueue` starts it; if one may,
      then only when there is no back-off to keep. */
  lemma BackoffKeptIff(o: Options, before: seq<Step>, s: State, reentrant: nat)
    requires Run(o, INIT, before, s) && Dispose !in before && Retriable(o, s)
    ensures KeepsBackoff(o, s, reentrant, false)
       <==> Asked(o, s) == 0 || s.timer.None? || s.timer.value >= s.now + Asked(o, s)
    ensures KeepsBackoff(o, s, reentrant, true) <==> Asked(o, s) == 0
  {
    hide Next, Backoff;
    InvRun(o, INIT, before, s);
    forall steps, t, x | NextPost(o, Next(o, s, PostFailed(reentrant)), steps, t, x)
      ensures t.now >= s.now && (x.Enqueue? || t.now >= RetryAt(o, s))
    {
      NextPostIs(o, s, reentrant, steps, t, x);
    }
    var steps, t := RetriesWhenDue(o, s, reentrant);
    EnqueueRetries(o, s, reentrant);
  }

  /** Nothing but the timer delays the retry. */
  lemma RetriesWhenDue(o: Options, s: State, reentrant: nat) returns (steps: seq<Step>, t: State)
    requires Inv(o, s) && Retriable(o, s)
    ensures NextPost(o, Next(o, s, PostFailed(reentrant)), steps, t, TimerFires)
    ensures t.now == if RetryAt(o, s) > s.now then RetryAt(o, s) else s.now
  {
    var s1 := Next(o, s, PostFailed(reentrant));
    FailureArms(o, s, reentrant);
    HeadIs(o, s);
    var nap := Tick(if RetryAt(o, s) > s.now then RetryAt(o, s) - s.now else 0);
    steps, t := [nap], Next(o, s1, nap);
    assert [nap][1..] == [];
    assert Waits(o, t, [], t);
  }

  lemma EnqueueRetries(o: Options, s: State, reentrant: nat)
    requires Inv(o, s) && Retriable(o, s)
    ensures NextPost(o, Next(o, s, PostFailed(reentrant)), [], Next(o, s, PostFailed(reentrant)), Enqueue)
    ensures Next(o, s, PostFailed(reentrant)).now == s.now
  {
    FailureArms(o, s, reentrant);
    HeadIs(o, s);
  }

  /** A run in which an `enqueue` retries the failed head at once. */
  lemma EnqueueSkipsBackoff(o: Options)
    requires o.maxAttempts > 1 && o.baseDelayMs > 0 && o.maxDelayMs > 0
    ensures exists s ::
              && Run(o, INIT, [Enqueue, PostFailed(0), Enqueue], s)
              && s.now == 0 && s.timer.Some? && s.timer.value > s.now && s.posting == Some(0) && s.posts == [2, 0]
  {
    var s1 := Next(o, INIT, Enqueue);
    assert s1 == State(0, [0], [0], Some(0), None, [], [1]);
    var s2 := Next(o, s1, PostFailed(0));
    assert s2.attempts == [1] && s2.timer == Some(Backoff(o, 1)) && s2.queue == [0];
    var s3 := Next(o, s2, Enqueue);
    assert s3.posts == [2, 0] && s3.posting == Some(0);
    var steps := [Enqueue, PostFailed(0), Enqueue];
    assert steps[1..] == [PostFailed(0), Enqueue] && steps[1..][1..] == [Enqueue] && steps[1..][1..][1..] == [];
    assert Run(o, s2, [Enqueue], s3) by { assert [Enqueue][1..] == []; }
    assert Run(o, s1, [PostFailed(0), Enqueue], s3) by { assert [PostFailed(0), Enqueue][1..] == [Enqueue]; }
    assert Run(o, INIT, steps, s3);
  }

  /** And one in which the second failure finds the timer of the first still pending: the
      retry comes after the first back-off and not after the second. With the default base of
      250 ms, after 250 ms and not 500. */
  lemma PendingTimerSkipsBackoff(o: Options)
    requires o.maxAttempts > 2 && Backoff(o, 1) < Backoff(o, 2)
    ensures exists s, t ::
              && Run(o, INIT, [Enqueue, PostFailed(0), Enqueue, PostFailed(0)], s)
              && s.attempts == [2, 0] && s.now == 0
              && Run(o, s, [Tick(Backoff(o, 1)), TimerFires], t)
              && t.posting == Some(0) && t.now == Backoff(o, 1) < Backoff(o, 2)
    ensures o.baseDelayMs == 250 && o.maxDelayMs == 4000 ==> Backoff(o, 1) == 250 && Backoff(o, 2) == 500
  {
    hide Backoff, Run;
    var s := State(0, [0, 1], [2, 0], None, Some(Backoff(o, 1)), [], [2, 0]);
    SecondFailure(o);
    TwoSteps(o, s, Tick(Backoff(o, 1)), TimerFires);
    DefaultBackoff(o);
  }

  /** The second failure leaves the timer of the first as it is. */
  lemma SecondFailure(o: Options)
    requires o.maxAttempts > 2
    ensures Run(o, INIT, [Enqueue, PostFailed(0), Enqueue, PostFailed(0)],
                State(0, [0, 1], [2, 0], None, Some(Backoff(o, 1)), [], [2, 0]))
  {
    hide Backoff, Run;
    var s1 := Next(o, INIT, Enqueue);
    assert s1 == State(0, [0], [0], Some(0), None, [], [1]);
    var s2 := Next(o, s1, PostFailed(0));
    assert s2 == State(0, [0], [1], None, Some(Backoff(o, 1)), [], [1]);
    var s3 := Next(o, s2, Enqueue);
    assert s3 == State(0, [0, 1], [1, 0], Some(0), Some(Backoff(o, 1)), [], [2, 0]);
    FourSteps(o, INIT, Enqueue, PostFailed(0), Enqueue, PostFailed(0));
  }

  lemma TwoSteps(o: Options, s: State, a: Step, b: Step)
    requires Enabled(s, a) && Enabled(Next(o, s, a), b)
    ensures Run(o, s, [a, b], Next(o, Next(o, s, a), b))
  {
    hide Next;
    assert [b][1..] == [] && [a, b][1..] == [b];
    assert Run(o, Next(o, s, a), [b], Next(o, Next(o, s, a), b));
  }

  lemma DefaultBackoff(o: Options)
    ensures o.baseDelayMs == 250 && o.maxDelayMs == 4000 ==> Backoff(o, 1) == 250 && Backoff(o, 2) == 500
  {
    assert Pow2(0) == 1 && Pow2(1) == 2;
  }

  lemma FourSteps(o: Options, s: State, a: Step, b: Step, c: Step, d: Step)
    requires Enabled(s, a)
    requires var s1 := Next(o, s, a);
      Enabled(s1, b) && (var s2 := Next(o, s1, b); Enabled(s2, c) && (var s3 := Next(o, s2, c); Enabled(s3, d)))
    ensures Run(o, s, [a, b, c, d], Next(o, Next(o, Next(o, Next(o, s, a), b), c), d))
  {
    hide Next;
    var s1 := Next(o, s, a);
    var s2 := Next(o, s1, b);
    var s3 := Next(o, s2, c);
    var s4 := Next(o, s3, d);
    assert [d][1..] == [] && [c, d][1..] == [d] && [b, c, d][1..] == [c, d] && [a, b, c, d][1..] == [b, c, d];
    assert Run(o, s4, [], s4);
    assert Run(o, s3, [d], s4);
    assert Run(o, s2, [c, d], s4);
    assert Run(o, s1, [b, c, d], s4);
  }

  // --------------------------------------------------------------------- disposing

  /** Some event was taken off the queue without ever having been posted. */
  ghost predicate DroppedUnposted(s: State) { exists e | e in s.settled :: Count(s.posts, e) == 0 }

  /** The post in flight is for the head, and whatever was settled was posted. */
  ghost predicate Aligned(s: State) {
    && |s.posts| == |s.attempts|
    && (forall i | 0 <= i < |s.queue| :: s.queue[i] < |s.posts|)
    && (forall i | 0 <= i < |s.settled| :: Count(s.posts, s.settled[i]) >= 1)
    && (s.posting.Some? ==> s.queue != [] && s.posting.value == s.queue[0] && Count(s.posts, s.queue[0]) >= 1)
  }

  lemma AlignedDrain(s: State)
    requires Aligned(s)
    ensures Aligned(Drain(s))
  {}

  lemma AlignedShift(s: State)
    requires Aligned(s) && s.posting.None? && (s.queue != [] ==> Count(s.posts, s.queue[0]) >= 1)
    ensures Aligned(Shift(s))
  {}

  lemma AlignedPush(s: State)
    requires Aligned(s)
    ensures Aligned(Push(s))
  {}

  lemma {:induction false} AlignedEnqueueMany(s: State, n: nat)
    requires Aligned(s)
    ensures Aligned(EnqueueMany(s, n))
    decreases n
  {
    if n > 0 {
      AlignedPush(s);
      AlignedDrain(Push(s));
      AlignedEnqueueMany(EnqueueOne(s), n - 1);
    }
  }

  /** From a queue whose head was posted, if it has one, the end of a post leaves an aligned
      one. */
  lemma AlignedOutcome(o: Options, s: State, x: Step)
    requires Aligned(s.(posting := None)) && s.posting.Some? && Outcome(x)
    requires s.queue != [] ==> Count(s.posts, s.queue[0]) >= 1
    ensures Aligned(Next(o, s, x))
  {
    if x.PostOk? {
      AlignedShift(s.(posting := None));
      AlignedDrain(Shift(s.(posting := None)));
    } else {
      AlignedFailure(o, CountFailure(s, s.posting.value), s.posting.value, x.reentrant);
    }
  }

  lemma AlignedFailure(o: Options, t: State, next: nat, reentrant: nat)
    requires Aligned(t) && t.posting.None? && (t.queue != [] ==> Count(t.posts, t.queue[0]) >= 1)
    ensures Aligned(AfterFailure(o, t, next, reentrant))
  {
    hide Backoff;
    AlignedShift(t);
    AlignedEnqueueMany(Shift(t), reentrant);
    AlignedDrain(EnqueueMany(Shift(t), reentrant));
  }

  lemma AlignedStep(o: Options, s: State, step: Step)
    requires Aligned(s) && Enabled(s, step) && (step.Dispose? ==> s.posting.None?)
    ensures Aligned(Next(o, s, step))
  {
    match step {
      case Enqueue =>
        AlignedPush(s);
        AlignedDrain(Push(s));
      case TimerFires => AlignedDrain(s.(timer := None));
      case PostOk => AlignedOutcome(o, s, step);
      case PostFailed(_) => AlignedOutcome(o, s, step);
      case Tick(_) =>
      case Dispose =>
    }
  }

  /** A run that disposes only between posts. */
  ghost predicate TidyRun(o: Options, s: State, steps: seq<Step>, t: State)
    decreases |steps|
  {
    if steps == [] then s == t
    else
      && Enabled(s, steps[0])
      && (steps[0].Dispose? ==> s.posting.None?)
      && TidyRun(o, Next(o, s, steps[0]), steps[1..], t)
  }

  lemma {:induction false} AlignedRun(o: Options, s: State, steps: seq<Step>, t: State)
    requires Aligned(s) && TidyRun(o, s, steps, t)
    ensures Aligned(t)
    decreases |steps|
  {
    hide Aligned, Next;
    if steps != [] {
      AlignedStep(o, s, steps[0]);
      AlignedRun(o, Next(o, s, steps[0]), steps[1..], t);
    }
  }

  /** Disposing between posts is harmless: no event that was never posted is ever settled. */
  lemma TidyDisposeIsHarmless(o: Options, steps: seq<Step>, s: State)
    requires TidyRun(o, INIT, steps, s)
    ensures !DroppedUnposted(s)
  {
    AlignedRun(o, INIT, steps, s);
  }

  /** After a `dispose` during a post: the queue holds only events that arrived since, none
      of them posted, and there is no timer. */
  ghost predicate Detached(s: State, e: nat, attempts: nat) {
    && s.posting == Some(e) && s.timer.None? && Count(s.attempts, e) == attempts && e < |s.attempts|
    && Aligned(s.(posting := None))
    && (forall i | 0 <= i < |s.queue| :: Count(s.posts, s.queue[i]) == 0)
    && (forall i, j | 0 <= i < j < |s.queue| :: s.queue[i] != s.queue[j])
  }

  lemma {:induction false} DetachedRun(o: Options, s: State, steps: seq<Step>, t: State, e: nat, attempts: nat)
    requires Detached(s, e, attempts) && Run(o, s, steps, t)
    requires forall x | x in steps :: !Outcome(x) && !x.Dispose?
    ensures Detached(t, e, attempts) && (t.queue != [] <==> s.queue != [] || Enqueue in steps)
    decreases |steps|
  {
    if steps != [] {
      assert steps[0] in steps;
      var s1 := Next(o, s, steps[0]);
      DetachedStep(o, s, steps[0], e, attempts);
      DetachedRun(o, s1, steps[1..], t, e, attempts);
    }
  }

  lemma DetachedStep(o: Options, s: State, x: Step, e: nat, attempts: nat)
    requires Detached(s, e, attempts) && Enabled(s, x) && !Outcome(x) && !x.Dispose?
    ensures Detached(Next(o, s, x), e, attempts)
    ensures Next(o, s, x).queue != [] <==> s.queue != [] || x.Enqueue?
  {
    if x.Enqueue? {
      AlignedPush(s.(posting := None));
    }
  }

  /** A settled event that can no longer be posted. */
  ghost predicate Orphan(s: State, e: nat) {
    && e < |s.posts| == |s.attempts| && s.posts[e] == 0
    && e in s.settled && e !in s.queue && s.posting != Some(e)
  }

  lemma {:induction false} OrphanEnqueueMany(s: State, n: nat, e: nat)
    requires Orphan(s, e)
    ensures Orphan(EnqueueMany(s, n), e)
    decreases n
  {
    if n > 0 {
      OrphanEnqueueMany(EnqueueOne(s), n - 1, e);
    }
  }

  lemma OrphanStep(o: Options, s: State, x: Step, e: nat)
    requires Orphan(s, e) && Enabled(s, x)
    ensures Orphan(Next(o, s, x), e)
  {
    hide Backoff;
    if x.PostFailed? {
      var t := CountFailure(s, s.posting.value);
      OrphanEnqueueMany(Shift(t), x.reentrant, e);
    }
  }

  lemma {:induction false} OrphanRun(o: Options, s: State, steps: seq<Step>, t: State, e: nat)
    requires Orphan(s, e) && TidyRun(o, s, steps, t)
    ensures Orphan(t, e)
    decreases |steps|
  {
    hide Next, Orphan;
    if steps != [] {
      OrphanStep(o, s, steps[0], e);
      OrphanRun(o, Next(o, s, steps[0]), steps[1..], t, e);
    }
  }

  /** The end of a detached post takes an event off the queue that was never posted. */
  lemma DetachedDrops(o: Options, s: State, x: Step, e: nat, attempts: nat)
    requires Detached(s, e, attempts) && Outcome(x) && s.queue != [] && (x.PostOk? || attempts + 1 >= o.maxAttempts)
    ensures Orphan(Next(o, s, x), s.queue[0])
  {
    hide Backoff;
    var t := if x.PostOk? then s.(posting := None) else CountFailure(s, e);
    var g := s.queue[0];
    assert g !in s.queue[1..];
    assert Orphan(Shift(t), g);
    if x.PostFailed? {
      OrphanEnqueueMany(Shift(t), x.reentrant, g);
    }
  }

  lemma DetachedSpares(o: Options, s: State, x: Step, e: nat, attempts: nat)
    requires Detached(s, e, attempts) && Outcome(x)
    requires s.queue == [] || (x.PostFailed? && attempts + 1 < o.maxAttempts)
    ensures Aligned(Next(o, s, x))
  {
    hide Backoff;
    if s.queue == [] {
      AlignedOutcome(o, s, x);
    }
  }

  /** Disposing during a post, on a run that otherwise disposes between posts only: an event
      is settled without ever having been posted exactly when one arrives before that post
      ends, and the post then succeeds or was the last attempt. */
  lemma DisposeDropsIff(o: Options, before: seq<Step>, s: State, during: seq<Step>, s2: State, x: Step,
      after: seq<Step>, t: State)
    requires TidyRun(o, INIT, before, s) && s.posting.Some?
    requires Run(o, Next(o, s, Dispose), during, s2) && forall y | y in during :: !Outcome(y) && !y.Dispose?
    requires Enabled(s2, x) && Outcome(x) && TidyRun(o, Next(o, s2, x), after, t)
    ensures DroppedUnposted(t)
       <==> Enqueue in during && (x.PostOk? || Count(s.attempts, s.posting.value) + 1 >= o.maxAttempts)
  {
    AlignedRun(o, INIT, before, s);
    var e, attempts := s.posting.value, Count(s.attempts, s.posting.value);
    assert Detached(Next(o, s, Dispose), e, attempts);
    DetachedRun(o, Next(o, s, Dispose), during, s2, e, attempts);
    hide Next;
    if s2.queue != [] && (x.PostOk? || attempts + 1 >= o.maxAttempts) {
      DetachedDrops(o, s2, x, e, attempts);
      OrphanRun(o, Next(o, s2, x), after, t, s2.queue[0]);
    } else {
      DetachedSpares(o, s2, x, e, attempts);
      AlignedRun(o, Next(o, s2, x), after, t);
    }
  }

  /** A run in which the post that ends after a `dispose` takes a newer event off the queue
      that was never posted. */
  lemma DisposeDropsNewerEvent(o: Options)
    ensures exists s ::
              && Run(o, INIT, [Enqueue, Dispose, Enqueue, PostOk], s)
              && 1 in s.settled && s.posts == [1, 0] && s.queue == [] && s.posting.None?
  {
    var s1 := Next(o, INIT, Enqueue);
    assert s1 == State(0, [0], [0], Some(0), None, [], [1]);
    var s2 := Next(o, s1, Dispose);
    var s3 := Next(o, s2, Enqueue);
    assert s3 == State(0, [1], [0, 0], Some(0), None, [], [1, 0]);
    var s4 := Next(o, s3, PostOk);
    assert s4 == State(0, [], [0, 0], None, None, [1], [1, 0]);
    var steps := [Enqueue, Dispose, Enqueue, PostOk];
    assert Run(o, s3, [PostOk], s4) by { assert [PostOk][1..] == []; }
    assert Run(o, s2, [Enqueue, PostOk], s4) by { assert [Enqueue, PostOk][1..] == [PostOk]; }
    assert Run(o, s1, [Dispose, Enqueue, PostOk], s4)
        by { assert [Dispose, Enqueue, PostOk][1..] == [Enqueue, PostOk]; }
    assert steps[1..] == [Dispose, Enqueue, PostOk];
    assert Run(o, INIT, steps, s4);
  }

  // ------------------------------------------------------------------- the queue object

  class EventDelivery {
    const options: Options
    var now: int
    var queue: seq<nat>
    var attempts: seq<nat>
    var inFlight: bool
    var next: nat
    var retryTimer: Option<int>
    ghost var settled: seq<nat>
    ghost var posts: seq<nat>

    ghost function Abs(): State
      reads this
    {
      State(now, queue, attempts, if inFlight then Some(next) else None, retryTimer, settled, posts)
    }

    constructor (options: Options)
      ensures this.options == options && Abs() == INIT
    {
      this.options := options;
      now, queue, attempts, inFlight, next, retryTimer := 0, [], [], false, 0, None;
      settled, posts := [], [];
    }

    /** Queues an event and tries to deliver it. */
    method Enqueue()
      requires Inv(options, Abs())
      modifies this
      ensures Abs() == Next(options, old(Abs()), Step.Enqueue) && Inv(options, Abs())
    {
      InvStep(options, Abs(), Step.Enqueue);
      queue := queue + [|attempts|];
      attempts, posts := attempts + [0], posts + [0];
      StartPost();
    }

    /** `drain` up to the point where the post is issued. */
    method StartPost()
      modifies this
      ensures Abs() == Drain(old(Abs()))
    {
      if inFlight {
        return;
      }
      if |queue| == 0 {
        return;
      }
      next := queue[0];
      inFlight := true;
      posts := Bump(posts, next);
    }

    method TakeHead()
      modifies this`queue, this`settled
      ensures Abs() == Shift(old(Abs()))
    {
      if |queue| > 0 {
        settled := settled + [queue[0]];
        queue := queue[1..];
      }
    }

    /** `drain` resumed by an accepted post. */
    method OnPosted()
      requires Inv(options, Abs()) && inFlight
      modifies this
      ensures Abs() == Next(options, old(Abs()), PostOk) && Inv(options, Abs())
    {
      InvStep(options, Abs(), PostOk);
      inFlight := false;
      TakeHead();
      if |queue| > 0 {
        StartPost();
      }
    }

    /** `drain` resumed by a failed post; `reentrant` events are enqueued by the callback
        that reports an exhausted event. */
    method OnFailed(reentrant: nat)
      requires Inv(options, Abs()) && inFlight
      modifies this
      ensures Abs() == Next(options, old(Abs()), PostFailed(reentrant)) && Inv(options, Abs())
    {
      InvStep(options, Abs(), PostFailed(reentrant));
      HeadIs(options, Abs());
      inFlight := false;
      attempts := attempts[next := attempts[next] + 1];
      RetryOrGiveUp(reentrant);
    }

    method RetryOrGiveUp(reentrant: nat)
      requires next < |attempts| && attempts[next] > 0
      modifies this
      ensures Abs() == AfterFailure(options, old(Abs()), old(next), reentrant)
    {
      if attempts[next] >= options.maxAttempts {
        TakeHead();
        ReportFailure(reentrant);
        if |queue| > 0 {
          StartPost();
        }
        return;
      }
      var delay := Backoff(options, attempts[next]);
      if retryTimer.None? {
        retryTimer := Some(now + delay);
      }
    }

    method ReportFailure(reentrant: nat)
      modifies this
      ensures Abs() == EnqueueMany(old(Abs()), reentrant)
      decreases reentrant
    {
      if reentrant > 0 {
        queue := queue + [|attempts|];
        attempts, posts := attempts + [0], posts + [0];
        StartPost();
        ReportFailure(reentrant - 1);
      }
    }

    method OnTimer()
      requires Inv(options, Abs()) && retryTimer.Some? && now >= retryTimer.value
      modifies this
      ensures Abs() == Next(options, old(Abs()), TimerFires) && Inv(options, Abs())
    {
      InvStep(options, Abs(), TimerFires);
      retryTimer := None;
      StartPost();
    }
  }
}
