/** Access jobs dispatched over a Redis stream, as a state machine over all workers.

    A step is one atomic effect of one participant: a Redis command, a committed row
    update, the passage of time, or the death of a worker. Any interleaving of enabled
    steps is a run. Times are milliseconds on one clock. */
module AccessJobs {

  type Scope = string
  type JobId = nat
  type AttemptId = nat

  const LOCK_TTL := 360_000
  const LOCK_WAIT := 250
  const RECLAIM_IDLE := 30_000
  const PAYLOAD_TTL := 3_600_000

  datatype Status = Pending | Running | Completed | Failed | Blocked | MfaRequired | Cancelled

  predicate Unsettled(s: Status) { s == Pending || s == Running }

  /** How the executor of an attempt ends. */
  datatype Outcome = Success | Mfa | Error | CancelledRun

  /** What an attempt does once its lock is released. */
  datatype Rest = ToComplete | ToMarkFailed | ToFinish

  /** Where an attempt to process a job stands. `since` is the time its lock was taken. */
  datatype Phase =
    | Claimed
    | Waiting(deadline: int)
    | Locked(since: int)
    | Executing(since: int)
    | Releasing(since: int, rest: Rest)
    | WritingBlocked
    | WritingCompleted
    | MarkingFailed
    | DeletingPayload
    | Acking

  datatype Attempt = Attempt(job: JobId, phase: Phase)

  /** A lock key: the token of the attempt that set it, and when Redis expires it. */
  datatype Lock = Lock(token: AttemptId, expires: int)

  datatype Job = Job(scope: Scope, status: Status, dispatched: bool)

  /** `stream` holds the un-acked message of each dispatched job with the time of its last
      delivery, if any. `nextId` exceeds every identifier and token handed out so far. */
  datatype State = State(
    now: int,
    locks: map<Scope, Lock>,
    stream: map<JobId, Delivery>,
    payloads: map<JobId, int>,
    jobs: map<JobId, Job>,
    attempts: map<AttemptId, Attempt>,
    nextId: nat)

  datatype Delivery = Undelivered | DeliveredAt(time: int)

  datatype Step =
    | Tick(elapsed: nat)
    | Dispatch(scope: Scope)
    | RunInline(scope: Scope)
    | Claim(job: JobId)
    | LoadPayload(a: AttemptId, resolves: bool)
    | TryLock(a: AttemptId)
    | WriteRunning(a: AttemptId)
    | Finish(a: AttemptId, outcome: Outcome)
    | Release(a: AttemptId)
    | WriteSettled(a: AttemptId)
    | MarkFailed(a: AttemptId)
    | DeletePayload(a: AttemptId)
    | Ack(a: AttemptId)
    | Crash(a: AttemptId)
    | CancelWait(a: AttemptId)

  const INIT := State(0, map[], map[], map[], map[], map[], 0)

  // ---------------------------------------------------------------- transitions

  predicate LockHeld(s: State, c: Scope) { c in s.locks && s.now < s.locks[c].expires }

  predicate Claimable(s: State, j: JobId) {
    j in s.stream &&
    match s.stream[j]
    case Undelivered => true
    case DeliveredAt(t) => s.now - t >= RECLAIM_IDLE
  }

  predicate Live(s: State, a: AttemptId) { a in s.attempts && s.attempts[a].job in s.jobs }

  predicate Enabled(s: State, step: Step) {
    match step
    case Tick(_) => true
    case Dispatch(_) => true
    case RunInline(_) => true
    case Claim(j) => Claimable(s, j)
    case LoadPayload(a, _) => Live(s, a) && s.attempts[a].phase.Claimed?
    case TryLock(a) => Live(s, a) && s.attempts[a].phase.Waiting?
    case WriteRunning(a) => Live(s, a) && s.attempts[a].phase.Locked?
    case Finish(a, _) => Live(s, a) && s.attempts[a].phase.Executing?
    case Release(a) => Live(s, a) && s.attempts[a].phase.Releasing?
    case WriteSettled(a) => Live(s, a) && (s.attempts[a].phase.WritingBlocked? || s.attempts[a].phase.WritingCompleted?)
    case MarkFailed(a) => Live(s, a) && s.attempts[a].phase.MarkingFailed?
    case DeletePayload(a) => Live(s, a) && s.attempts[a].phase.DeletingPayload?
    case Ack(a) => Live(s, a) && s.attempts[a].phase.Acking?
    case Crash(a) => Live(s, a)
    case CancelWait(a) => Live(s, a) && s.attempts[a].phase.Waiting?
  }

  ghost predicate SameAttemptsBut(s: State, t: State, a: AttemptId) {
    && (forall b | b != a ::
        (b in t.attempts <==> b in s.attempts) && (b in s.attempts ==> t.attempts[b] == s.attempts[b]))
    && (a in t.attempts ==> a in s.attempts && t.attempts[a].job == s.attempts[a].job)
  }

  /** Only the status of `j`, and the presence of its message, may differ. */
  ghost predicate SameJobsBut(s: State, t: State, j: JobId) {
    && t.jobs.Keys == s.jobs.Keys
    && (forall k | k in s.jobs :: t.jobs[k].dispatched == s.jobs[k].dispatched && t.jobs[k].scope == s.jobs[k].scope)
    && (forall k | k in s.jobs && k != j :: t.jobs[k] == s.jobs[k])
    && (forall k :: k in t.stream ==> k in s.stream)
    && (forall k | k in s.stream && k != j :: k in t.stream)
  }

  /** Moves an attempt on. A job run inline has no worker around it: where the dispatched
      path would go on to mark, delete and ack, the attempt is over. */
  function MoveTo(s: State, a: AttemptId, p: Phase): (t: State)
    requires Live(s, a)
    ensures t == s.(attempts := t.attempts)
    ensures SameAttemptsBut(s, t, a)
  {
    var t := s.attempts[a];
    if !s.jobs[t.job].dispatched && (p.MarkingFailed? || p.DeletingPayload?)
    then s.(attempts := s.attempts - {a})
    else s.(attempts := s.attempts[a := t.(phase := p)])
  }

  function SetStatus(s: State, j: JobId, status: Status): (t: State)
    requires j in s.jobs
    ensures t == s.(jobs := t.jobs)
    ensures SameJobsBut(s, t, j)
  {
    s.(jobs := s.jobs[j := s.jobs[j].(status := status)])
  }

  function AfterFinish(outcome: Outcome): (Status, Rest) {
    match outcome
    case Success => (Running, ToComplete)
    case Mfa => (MfaRequired, ToFinish)
    case Error => (Failed, ToMarkFailed)
    case CancelledRun => (Cancelled, ToFinish)
  }

  function AfterRelease(rest: Rest): Phase {
    match rest
    case ToComplete => WritingCompleted
    case ToMarkFailed => MarkingFailed
    case ToFinish => DeletingPayload
  }

  /** The release script: the key goes only if it still carries this attempt's token. */
  function ReleaseLock(s: State, c: Scope, token: AttemptId): (t: State)
    ensures t == s.(locks := t.locks)
  {
    if LockHeld(s, c) && s.locks[c].token == token then s.(locks := s.locks - {c}) else s
  }

  function Next(s: State, step: Step): State
    requires Enabled(s, step)
  {
    match step
    case Tick(d) => s.(now := s.now + d)
    case Dispatch(c) =>
      var j := s.nextId;
      s.(jobs := s.jobs[j := Job(c, Pending, true)],
         payloads := s.payloads[j := s.now + PAYLOAD_TTL],
         stream := s.stream[j := Undelivered],
         nextId := j + 1)
    case RunInline(c) =>
      var j := s.nextId;
      s.(jobs := s.jobs[j := Job(c, Pending, false)],
         attempts := s.attempts[j + 1 := Attempt(j, Waiting(s.now + LOCK_WAIT))],
         nextId := j + 2)
    case Claim(j) =>
      s.(stream := s.stream[j := DeliveredAt(s.now)],
         attempts := s.attempts[s.nextId := Attempt(j, Claimed)],
         nextId := s.nextId + 1)
    case LoadPayload(a, resolves) =>
      var j := s.attempts[a].job;
      if j in s.payloads && s.now < s.payloads[j] && resolves
      then MoveTo(s, a, Waiting(s.now + LOCK_WAIT))
      else MoveTo(s, a, MarkingFailed)
    case TryLock(a) =>
      var c := s.jobs[s.attempts[a].job].scope;
      if !LockHeld(s, c) then
        MoveTo(s.(locks := s.locks[c := Lock(a, s.now + LOCK_TTL)]), a, Locked(s.now))
      else if s.attempts[a].phase.deadline <= s.now then MoveTo(s, a, WritingBlocked)
      else s
    case WriteRunning(a) =>
      MoveTo(SetStatus(s, s.attempts[a].job, Running), a, Executing(s.attempts[a].phase.since))
    case Finish(a, outcome) =>
      var (status, rest) := AfterFinish(outcome);
      var s' := if outcome.Success? then s else SetStatus(s, s.attempts[a].job, status);
      MoveTo(s', a, Releasing(s.attempts[a].phase.since, rest))
    case Release(a) =>
      var c := s.jobs[s.attempts[a].job].scope;
      MoveTo(ReleaseLock(s, c, a), a, AfterRelease(s.attempts[a].phase.rest))
    case WriteSettled(a) =>
      if s.attempts[a].phase.WritingBlocked?
      then MoveTo(SetStatus(s, s.attempts[a].job, Blocked), a, MarkingFailed)
      else MoveTo(SetStatus(s, s.attempts[a].job, Completed), a, DeletingPayload)
    case MarkFailed(a) =>
      var j := s.attempts[a].job;
      MoveTo(if Unsettled(s.jobs[j].status) then SetStatus(s, j, Failed) else s, a, DeletingPayload)
    case DeletePayload(a) =>
      MoveTo(s.(payloads := s.payloads - {s.attempts[a].job}), a, Acking)
    case Ack(a) =>
      s.(stream := s.stream - {s.attempts[a].job}, attempts := s.attempts - {a})
    case Crash(a) => s.(attempts := s.attempts - {a})
    case CancelWait(a) => MoveTo(s, a, DeletingPayload)
  }

  /** `steps`, taken in order from `s`, lead to `t`. */
  ghost predicate Run(s: State, steps: seq<Step>, t: State)
    decreases |steps|
  {
    if steps == [] then s == t
    else Enabled(s, steps[0]) && Run(Next(s, steps[0]), steps[1..], t)
  }

  ghost predicate Reachable(s: State) { Reaches(INIT, s) }

  lemma {:induction false} RunConcat(s: State, x: seq<Step>, t: State, y: seq<Step>, u: State)
    requires Run(s, x, t) && Run(t, y, u)
    ensures Run(s, x + y, u)
    decreases |x|
  {
    if x == [] {
      assert x + y == y;
    } else {
      RunConcat(Next(s, x[0]), x[1..], t, y, u);
      assert (x + y)[0] == x[0] && (x + y)[1..] == x[1..] + y;
    }
  }

  lemma RunSnoc(s: State, x: seq<Step>, t: State, step: Step)
    requires Run(s, x, t) && Enabled(t, step)
    ensures Run(s, x + [step], Next(t, step))
  {
    assert Run(t, [step], Next(t, step)) by {
      assert [step][1..] == [];
    }
    RunConcat(s, x, t, [step], Next(t, step));
  }

  /** Some run leads from `s` to `t`. */
  ghost predicate Reaches(s: State, t: State) { exists steps :: Run(s, steps, t) }

  lemma ReachesSelf(s: State)
    ensures Reaches(s, s)
  {
    assert Run(s, [], s);
  }

  lemma ReachesNext(s: State, t: State, step: Step)
    requires Reaches(s, t) && Enabled(t, step)
    ensures Reaches(s, Next(t, step))
  {
    var steps :| Run(s, steps, t);
    RunSnoc(s, steps, t, step);
  }

  lemma ReachesTransitive(s: State, t: State, u: State)
    requires Reaches(s, t) && Reaches(t, u)
    ensures Reaches(s, u)
  {
    var x :| Run(s, x, t);
    var y :| Run(t, y, u);
    RunConcat(s, x, t, y, u);
  }

  // ------------------------------------------------------------ mutual exclusion

  predicate Critical(p: Phase) { p.Locked? || p.Executing? || p.Releasing? }

  /** The attempt has been in its critical section for the whole lifetime of its key. */
  predicate Overdue(s: State, a: AttemptId)
    requires a in s.attempts && Critical(s.attempts[a].phase)
  {
    s.now >= s.attempts[a].phase.since + LOCK_TTL
  }

  function ScopeOf(s: State, a: AttemptId): Scope
    requires Live(s, a)
  {
    s.jobs[s.attempts[a].job].scope
  }

  predicate InCritical(s: State, a: AttemptId) { Live(s, a) && Critical(s.attempts[a].phase) }

  predicate NeedsWorker(p: Phase) { p.MarkingFailed? || p.DeletingPayload? || p.Claimed? || p.Acking? }

  /** Identifiers are fresh, and only dispatched jobs have messages and workers. */
  ghost predicate Ids(s: State) {
    && (forall j | j in s.jobs :: j < s.nextId)
    && (forall j | j in s.stream :: j in s.jobs && s.jobs[j].dispatched)
    && (forall c | c in s.locks :: s.locks[c].token < s.nextId)
    && (forall a | a in s.attempts :: a < s.nextId && s.attempts[a].job in s.jobs)
    && (forall a | Live(s, a) && NeedsWorker(s.attempts[a].phase) :: s.jobs[s.attempts[a].job].dispatched)
  }

  /** An attempt in its critical section owns the key of its scope while that key lives. */
  predicate Owns(s: State, a: AttemptId)
    requires InCritical(s, a)
  {
    var since := s.attempts[a].phase.since;
    && since <= s.now
    && (!Overdue(s, a) ==>
          ScopeOf(s, a) in s.locks && s.locks[ScopeOf(s, a)] == Lock(a, since + LOCK_TTL))
  }

  ghost predicate Inv(s: State) {
    Ids(s) && forall a | InCritical(s, a) :: Owns(s, a)
  }

  /** Moving an attempt on keeps the invariant, unless it would invent a critical section. */
  lemma MoveToInv(s: State, a: AttemptId, p: Phase)
    requires Inv(s) && Live(s, a)
    requires p.Claimed? || p.Acking? ==> s.jobs[s.attempts[a].job].dispatched
    requires Critical(p) ==> InCritical(s, a) && s.attempts[a].phase.since == p.since
    ensures Inv(MoveTo(s, a, p))
  {
    var t := MoveTo(s, a, p);
    assert Ids(t);
    forall b | InCritical(t, b)
      ensures Owns(t, b)
    {
      assert InCritical(s, b) && Owns(s, b);
    }
  }

  lemma SetStatusInv(s: State, j: JobId, status: Status)
    requires Inv(s) && j in s.jobs
    ensures Inv(SetStatus(s, j, status))
  {
    var t := SetStatus(s, j, status);
    assert Ids(t);
    forall b | InCritical(t, b)
      ensures Owns(t, b)
    {
      assert InCritical(s, b) && Owns(s, b);
    }
  }

  /** Every step keeps the invariant. */
  lemma InvStep(s: State, step: Step)
    requires Inv(s) && Enabled(s, step)
    ensures Inv(Next(s, step))
  {
    match step {
      case Tick(_) => InvPassive(s, step);
      case Dispatch(_) => InvPassive(s, step);
      case RunInline(_) => InvPassive(s, step);
      case Claim(_) => InvPassive(s, step);
      case Ack(_) => InvPassive(s, step);
      case Crash(_) => InvPassive(s, step);
      case _ => InvActive(s, step);
    }
  }

  lemma IdsPassive(s: State, step: Step)
    requires Ids(s) && Enabled(s, step)
    requires step.Tick? || step.Dispatch? || step.RunInline? || step.Claim? || step.Ack? || step.Crash?
    ensures Ids(Next(s, step))
    ensures forall a | InCritical(Next(s, step), a) ::
              && InCritical(s, a) && Next(s, step).attempts[a] == s.attempts[a]
              && ScopeOf(Next(s, step), a) == ScopeOf(s, a)
  {}

  lemma InvPassive(s: State, step: Step)
    requires Inv(s) && Enabled(s, step)
    requires step.Tick? || step.Dispatch? || step.RunInline? || step.Claim? || step.Ack? || step.Crash?
    ensures Inv(Next(s, step))
  {
    IdsPassive(s, step);
    hide Ids;
    var t := Next(s, step);
    forall a | InCritical(t, a)
      ensures Owns(t, a)
    {
      assert InCritical(s, a) && Owns(s, a);
    }
  }

  lemma InvActive(s: State, step: Step)
    requires Inv(s) && Enabled(s, step)
    requires !(step.Tick? || step.Dispatch? || step.RunInline? || step.Claim? || step.Ack? || step.Crash?)
    ensures Inv(Next(s, step))
  {
    hide Next, Inv;
    match step {
      case LoadPayload(_, _) => InvMoving(s, step);
      case CancelWait(_) => InvMoving(s, step);
      case TryLock(a) => InvTryLock(s, a);
      case Release(a) => InvRelease(s, a);
      case DeletePayload(a) => InvDeletePayload(s, a);
      case _ => InvWriting(s, step);
    }
  }

  lemma InvMoving(s: State, step: Step)
    requires Inv(s) && Enabled(s, step) && (step.LoadPayload? || step.CancelWait?)
    ensures Inv(Next(s, step))
  {
    hide MoveTo, Inv;
    MoveToInv(s, step.a, Waiting(s.now + LOCK_WAIT));
    MoveToInv(s, step.a, MarkingFailed);
    MoveToInv(s, step.a, DeletingPayload);
  }

  lemma InvWriting(s: State, step: Step)
    requires Inv(s) && Enabled(s, step)
    requires step.WriteRunning? || step.Finish? || step.WriteSettled? || step.MarkFailed?
    ensures Inv(Next(s, step))
  {
    hide MoveTo, SetStatus, Inv;
    var a := step.a;
    var p := s.attempts[a].phase;
    match step {
      case WriteRunning(_) => InvWrite(s, a, Running, Executing(p.since));
      case Finish(_, o) =>
        var (status, rest) := AfterFinish(o);
        InvWrite(s, a, status, Releasing(p.since, rest));
        MoveToInv(s, a, Releasing(p.since, rest));
      case WriteSettled(_) =>
        InvWrite(s, a, Blocked, MarkingFailed);
        InvWrite(s, a, Completed, DeletingPayload);
      case MarkFailed(_) =>
        InvWrite(s, a, Failed, DeletingPayload);
        MoveToInv(s, a, DeletingPayload);
    }
  }

  lemma InvWrite(s: State, a: AttemptId, status: Status, p: Phase)
    requires Inv(s) && Live(s, a) && !p.Claimed? && !p.Acking?
    requires Critical(p) ==> InCritical(s, a) && s.attempts[a].phase.since == p.since
    ensures Inv(MoveTo(SetStatus(s, s.attempts[a].job, status), a, p))
  {
    hide Inv;
    SetStatusInv(s, s.attempts[a].job, status);
    MoveToInv(SetStatus(s, s.attempts[a].job, status), a, p);
  }

  lemma InvDeletePayload(s: State, a: AttemptId)
    requires Inv(s) && Enabled(s, DeletePayload(a))
    ensures Inv(Next(s, DeletePayload(a)))
  {
    MoveToInv(s, a, Acking);
    InvPayloads(MoveTo(s, a, Acking), s.payloads - {s.attempts[a].job});
  }

  lemma InvPayloads(s: State, payloads: map<JobId, int>)
    requires Inv(s)
    ensures Inv(s.(payloads := payloads))
  {
    var t := s.(payloads := payloads);
    forall b | InCritical(t, b)
      ensures Owns(t, b)
    {
      assert InCritical(s, b) && Owns(s, b);
    }
  }

  lemma InvTryLock(s: State, a: AttemptId)
    requires Inv(s) && Enabled(s, TryLock(a))
    ensures Inv(Next(s, TryLock(a)))
  {
    var c := ScopeOf(s, a);
    var t := Next(s, TryLock(a));
    if !LockHeld(s, c) {
      assert Ids(t);
      forall b | InCritical(t, b)
        ensures Owns(t, b)
      {
        if b != a {
          assert InCritical(s, b) && Owns(s, b);
        }
      }
    } else {
      MoveToInv(s, a, WritingBlocked);
    }
  }

  lemma InvRelease(s: State, a: AttemptId)
    requires Inv(s) && Enabled(s, Release(a))
    ensures Inv(Next(s, Release(a)))
  {
    var q := AfterRelease(s.attempts[a].phase.rest);
    MoveToInv(s, a, q);
    var s1 := MoveTo(s, a, q);
    var t := s1.(locks := ReleaseLock(s, ScopeOf(s, a), a).locks);
    assert t == Next(s, Release(a));
    forall b | InCritical(t, b)
      ensures Owns(t, b)
    {
      assert b != a && InCritical(s1, b) && Owns(s1, b);
    }
  }

  lemma {:induction false} InvRun(s: State, steps: seq<Step>, t: State)
    requires Inv(s) && Run(s, steps, t)
    ensures Inv(t)
    decreases |steps|
  {
    if steps != [] {
      InvStep(s, steps[0]);
      InvRun(Next(s, steps[0]), steps[1..], t);
    }
  }

  lemma ReachableInv(s: State)
    requires Reachable(s)
    ensures Inv(s)
  {
    var steps :| Run(INIT, steps, s);
    InvRun(INIT, steps, s);
  }

  /** Mutual exclusion, with no assumption on how long an executor runs: of two attempts
      that are in the critical section of one scope, one has outlived its lock. */
  lemma MutualExclusion(s: State, a: AttemptId, b: AttemptId)
    requires Reachable(s)
    requires InCritical(s, a) && InCritical(s, b) && a != b && ScopeOf(s, a) == ScopeOf(s, b)
    ensures Overdue(s, a) || Overdue(s, b)
  {
    ReachableInv(s);
    assert Owns(s, a) && Owns(s, b);
  }

  /** A live lock key disappears or changes hands only when the attempt whose token it
      carries releases it. */
  lemma OnlyOwnerReleases(s: State, step: Step, c: Scope)
    requires Enabled(s, step) && LockHeld(s, c)
    requires step != Release(s.locks[c].token)
    ensures c in Next(s, step).locks && Next(s, step).locks[c] == s.locks[c]
  {
    match step {
      case Release(a) =>
      case TryLock(a) =>
      case _ =>
    }
  }

  /** The bound in MutualExclusion is needed: once an executor has outlived its lock, a
      second one for the same scope can be started while the first still runs. */
  lemma OverrunBreaksExclusion(s: State, a: AttemptId) returns (steps: seq<Step>, t: State, b: AttemptId)
    requires Reachable(s) && InCritical(s, a) && s.attempts[a].phase.Executing? && Overdue(s, a)
    ensures Run(s, steps, t) && forall step | step in steps ::
        step.Tick? || step.RunInline? || step == TryLock(b) || step == WriteRunning(b)
    ensures InCritical(t, a) && InCritical(t, b) && a != b && ScopeOf(t, a) == ScopeOf(t, b)
    ensures t.attempts[a].phase.Executing? && t.attempts[b].phase.Executing?
  {
    ReachableInv(s);
    var c := ScopeOf(s, a);
    var d := if LockHeld(s, c) then s.locks[c].expires - s.now else 0;
    b := s.nextId + 1;
    var s1 := Next(s, Tick(d));
    InvStep(s, Tick(d));
    assert !LockHeld(s1, c) && InCritical(s1, a);
    var steps1;
    steps1, t := StartSecond(s1, a, b);
    steps := [Tick(d)] + steps1;
    assert steps[1..] == steps1;
  }

  lemma StartSecond(s: State, a: AttemptId, b: AttemptId) returns (steps: seq<Step>, t: State)
    requires Inv(s) && InCritical(s, a) && s.attempts[a].phase.Executing? && !LockHeld(s, ScopeOf(s, a))
    requires b == s.nextId + 1
    ensures Run(s, steps, t) && steps == [RunInline(ScopeOf(s, a)), TryLock(b), WriteRunning(b)]
    ensures InCritical(t, a) && InCritical(t, b) && a != b && ScopeOf(t, a) == ScopeOf(t, b)
    ensures t.attempts[a].phase.Executing? && t.attempts[b].phase.Executing?
  {
    var c := ScopeOf(s, a);
    InlineWaits(s, a, b);
    hide *;
    var s1 := Next(s, RunInline(c));
    AcquiresFreeLock(s1, b);
    var s2 := Next(s1, TryLock(b));
    StartsRunning(s2, b);
    KeepsExecuting(s1, a, TryLock(b));
    KeepsExecuting(s2, a, WriteRunning(b));
    t := Next(s2, WriteRunning(b));
    steps := [RunInline(c), TryLock(b), WriteRunning(b)];
    RunOfThree(s, RunInline(c), TryLock(b), WriteRunning(b));
  }

  predicate ExecutingIn(s: State, a: AttemptId, c: Scope) {
    Live(s, a) && ScopeOf(s, a) == c && s.attempts[a].phase.Executing?
  }

  lemma InlineWaits(s: State, a: AttemptId, b: AttemptId)
    requires Inv(s) && InCritical(s, a) && s.attempts[a].phase.Executing? && !LockHeld(s, ScopeOf(s, a))
    requires b == s.nextId + 1
    ensures var c := ScopeOf(s, a);
            var s1 := Next(s, RunInline(c));
            && Enabled(s, RunInline(c)) && a != b && ExecutingIn(s1, a, c)
            && Enabled(s1, TryLock(b)) && ScopeOf(s1, b) == c && !LockHeld(s1, c)
  {}

  lemma StartsRunning(s: State, b: AttemptId)
    requires Enabled(s, WriteRunning(b))
    ensures ExecutingIn(Next(s, WriteRunning(b)), b, ScopeOf(s, b))
  {}

  lemma KeepsExecuting(s: State, a: AttemptId, step: Step)
    requires Enabled(s, step) && !Passive(step) && step.a != a && Live(s, a) && ExecutingIn(s, a, ScopeOf(s, a))
    ensures ExecutingIn(Next(s, step), a, ScopeOf(s, a))
  {
    hide Next;
    ActiveFrame(s, step);
  }

  lemma AcquiresFreeLock(s: State, b: AttemptId)
    requires Enabled(s, TryLock(b)) && !LockHeld(s, ScopeOf(s, b))
    ensures Enabled(Next(s, TryLock(b)), WriteRunning(b)) && ScopeOf(Next(s, TryLock(b)), b) == ScopeOf(s, b)
  {}

  lemma RunOfThree(s: State, x: Step, y: Step, z: Step)
    requires Enabled(s, x) && Enabled(Next(s, x), y) && Enabled(Next(Next(s, x), y), z)
    ensures Run(s, [x, y, z], Next(Next(Next(s, x), y), z))
  {
    var u := Next(Next(s, x), y);
    assert [z][1..] == [] && [y, z][1..] == [z] && [x, y, z][1..] == [y, z];
    assert Run(u, [z], Next(u, z));
    assert Run(Next(s, x), [y, z], Next(u, z));
  }

  // ---------------------------------------------------------------- no job is lost

  predicate On(s: State, a: AttemptId, j: JobId) { a in s.attempts && s.attempts[a].job == j }

  /** The attempt has yet to write a settled status. */
  predicate Obliged(p: Phase) {
    !p.DeletingPayload? && !p.Acking? && !(p.Releasing? && p.rest.ToFinish?)
  }

  predicate ObligedOn(s: State, a: AttemptId, j: JobId) { On(s, a, j) && Obliged(s.attempts[a].phase) }

  predicate Dispatched(s: State, j: JobId) { j in s.jobs && s.jobs[j].dispatched }

  /** Nothing is left that would ever settle the job. */
  ghost predicate Lost(s: State, j: JobId) {
    Dispatched(s, j) && Unsettled(s.jobs[j].status) && j !in s.stream && forall a :: !On(s, a, j)
  }

  /** The job is settled, or some attempt will settle it, or its message is waiting and no
      attempt is about to ack it. */
  ghost predicate Safe(s: State, j: JobId)
    requires Dispatched(s, j)
  {
    || !Unsettled(s.jobs[j].status)
    || (exists a :: ObligedOn(s, a, j))
    || (j in s.stream && forall a :: !On(s, a, j))
  }

  ghost predicate AllSafe(s: State) { forall j | Dispatched(s, j) :: Safe(s, j) }

  /** Which deaths and cancellations are harmless: the job is settled, or another attempt
      still has to settle it, or (for a death) the message is un-acked and no other attempt
      on the job is left to ack it. Every other step is harmless. */
  ghost predicate Harmless(s: State, step: Step)
    requires Enabled(s, step)
  {
    step.Crash? || step.CancelWait? ==>
      var j := s.attempts[step.a].job;
      || !s.jobs[j].dispatched
      || !Unsettled(s.jobs[j].status)
      || (exists b :: b != step.a && ObligedOn(s, b, j))
      || (step.Crash? && j in s.stream && forall b :: On(s, b, j) ==> b == step.a)
  }

  ghost predicate HarmlessRun(s: State, steps: seq<Step>, t: State)
    decreases |steps|
  {
    if steps == [] then s == t
    else Enabled(s, steps[0]) && Harmless(s, steps[0]) && HarmlessRun(Next(s, steps[0]), steps[1..], t)
  }

  /** A harmless step leaves every job safe. */
  lemma SafeStep(s: State, step: Step, j: JobId)
    requires Inv(s) && AllSafe(s) && Enabled(s, step) && Harmless(s, step)
    requires Dispatched(Next(s, step), j)
    ensures Safe(Next(s, step), j)
  {
    var t := Next(s, step);
    if !Dispatched(s, j) {
      assert step.Dispatch? && j == s.nextId;
      assert forall a :: !On(t, a, j);
    } else if step.Claim? && step.job == j {
      assert ObligedOn(t, s.nextId, j);
    } else if !ActsOn(s, step, j) {
      SafeElsewhere(s, step, j);
    } else {
      SafeActing(s, step);
    }
  }

  predicate Passive(step: Step) { step.Tick? || step.Dispatch? || step.RunInline? || step.Claim? }

  /** The step is taken by an attempt on the job, or claims its message. */
  predicate ActsOn(s: State, step: Step, j: JobId)
    requires Enabled(s, step)
  {
    if step.Claim? then step.job == j else !Passive(step) && s.attempts[step.a].job == j
  }

  /** A step of one attempt touches only that attempt and the job it works on. */
  lemma ActiveFrame(s: State, step: Step)
    requires Enabled(s, step) && !Passive(step)
    ensures SameAttemptsBut(s, Next(s, step), step.a)
    ensures SameJobsBut(s, Next(s, step), s.attempts[step.a].job)
  {
    ActiveAttempts(s, step);
    ActiveJobs(s, step);
  }

  lemma ActiveAttempts(s: State, step: Step)
    requires Enabled(s, step) && !Passive(step)
    ensures SameAttemptsBut(s, Next(s, step), step.a)
  {
    var a := step.a;
    var p := s.attempts[a].phase;
    match step {
      case TryLock(_) =>
        var c := ScopeOf(s, a);
        assert SameAttemptsBut(s, MoveTo(s.(locks := s.locks[c := Lock(a, s.now + LOCK_TTL)]), a, Locked(s.now)), a);
      case WriteRunning(_) =>
      case Finish(_, _) =>
      case Release(_) =>
      case WriteSettled(_) =>
      case MarkFailed(_) =>
      case _ =>
    }
  }

  lemma ActiveJobs(s: State, step: Step)
    requires Enabled(s, step) && !Passive(step)
    ensures SameJobsBut(s, Next(s, step), s.attempts[step.a].job)
  {
    var t := Next(s, step);
    if step.WriteRunning? || step.Finish? || step.WriteSettled? || step.MarkFailed? {
      var j := s.attempts[step.a].job;
      assert t.stream == s.stream;
      assert t.jobs == s.jobs || t.jobs == SetStatus(s, j, t.jobs[j].status).jobs;
    } else {
      assert t.jobs == s.jobs;
    }
  }

  /** A step that does not act on the job leaves its row, message and attempts alone. */
  lemma Elsewhere(s: State, step: Step, j: JobId)
    requires Ids(s) && Enabled(s, step) && j in s.jobs && !ActsOn(s, step, j)
    ensures var t := Next(s, step);
      && j in t.jobs && t.jobs[j] == s.jobs[j] && (j in t.stream <==> j in s.stream)
      && (forall a :: On(t, a, j) <==> On(s, a, j))
      && (forall a | On(s, a, j) :: t.attempts[a] == s.attempts[a])
  {
    if !Passive(step) {
      ActiveFrame(s, step);
    }
  }

  lemma SafeElsewhere(s: State, step: Step, j: JobId)
    requires Inv(s) && Enabled(s, step) && Dispatched(s, j) && Safe(s, j) && !ActsOn(s, step, j)
    ensures Dispatched(Next(s, step), j) && Safe(Next(s, step), j)
  {
    Elsewhere(s, step, j);
    assert forall a :: ObligedOn(s, a, j) ==> ObligedOn(Next(s, step), a, j);
  }

  lemma SafeActing(s: State, step: Step)
    requires Inv(s) && Enabled(s, step) && Harmless(s, step)
    requires !Passive(step) && Dispatched(s, s.attempts[step.a].job) && Safe(s, s.attempts[step.a].job)
    ensures Dispatched(Next(s, step), s.attempts[step.a].job) && Safe(Next(s, step), s.attempts[step.a].job)
  {
    hide Next;
    var j := s.attempts[step.a].job;
    ActiveFrame(s, step);
    if step.Crash? {
      SafeCrash(s, step.a);
    } else if Obliged(s.attempts[step.a].phase) && !step.CancelWait? {
      SettlesOrStays(s, step);
    } else {
      assert On(s, step.a, j);
      OthersStayObliged(s, step);
      KeepsStatus(s, step);
    }
  }

  lemma KeepsStatus(s: State, step: Step)
    requires Enabled(s, step) && !Passive(step) && (step.CancelWait? || !Obliged(s.attempts[step.a].phase))
    ensures Next(s, step).jobs == s.jobs
  {}

  lemma OthersStayObliged(s: State, step: Step)
    requires Enabled(s, step) && !Passive(step)
    ensures forall b, j :: b != step.a && ObligedOn(s, b, j) ==> ObligedOn(Next(s, step), b, j)
  {
    hide Next;
    ActiveFrame(s, step);
  }

  lemma SafeCrash(s: State, a: AttemptId)
    requires Ids(s) && Enabled(s, Crash(a)) && Harmless(s, Crash(a))
    requires Dispatched(s, s.attempts[a].job) && Safe(s, s.attempts[a].job)
    ensures Safe(Next(s, Crash(a)), s.attempts[a].job)
  {
    var t, j := Next(s, Crash(a)), s.attempts[a].job;
    assert forall b :: On(t, b, j) ==> b != a && On(s, b, j);
    assert forall b :: b != a && ObligedOn(s, b, j) ==> ObligedOn(t, b, j);
  }

  /** An attempt gives up its obligation only by writing a settled status. */
  lemma SettlesOrStays(s: State, step: Step)
    requires Inv(s) && Enabled(s, step) && !Passive(step) && !step.Crash? && !step.CancelWait?
    requires Dispatched(s, s.attempts[step.a].job) && Obliged(s.attempts[step.a].phase)
    ensures ObligedOn(Next(s, step), step.a, s.attempts[step.a].job)
         || !Unsettled(Next(s, step).jobs[s.attempts[step.a].job].status)
  {
    hide MoveTo, Inv;
    var p := s.attempts[step.a].phase;
    match step {
      case LoadPayload(a, _) =>
        StaysObliged(s, a, Waiting(s.now + LOCK_WAIT));
        StaysObliged(s, a, MarkingFailed);
      case TryLock(a) =>
        StaysObliged(s.(locks := s.locks[ScopeOf(s, a) := Lock(a, s.now + LOCK_TTL)]), a, Locked(s.now));
        StaysObliged(s, a, WritingBlocked);
      case WriteRunning(a) => StaysObliged(SetStatus(s, s.attempts[a].job, Running), a, Executing(p.since));
      case Finish(a, _) => StaysObliged(s, a, Releasing(p.since, ToComplete));
      case Release(a) => StaysObliged(ReleaseLock(s, ScopeOf(s, a), a), a, AfterRelease(p.rest));
      case _ =>
    }
  }

  lemma StaysObliged(s: State, a: AttemptId, p: Phase)
    requires Live(s, a) && Dispatched(s, s.attempts[a].job) && Obliged(p)
    ensures ObligedOn(MoveTo(s, a, p), a, s.attempts[a].job)
  {}

  lemma {:induction false} SafeRun(s: State, steps: seq<Step>, t: State)
    requires Inv(s) && AllSafe(s) && HarmlessRun(s, steps, t)
    ensures Inv(t) && AllSafe(t)
    decreases |steps|
  {
    if steps != [] {
      var s1 := Next(s, steps[0]);
      InvStep(s, steps[0]);
      forall j | Dispatched(s1, j)
        ensures Safe(s1, j)
      {
        SafeStep(s, steps[0], j);
      }
      SafeRun(s1, steps[1..], t);
    }
  }

  /** No dispatched job is lost: under any redelivery and any harmless deaths and
      cancellations, its message is un-acked, or an attempt on it is in flight, or it is
      settled. */
  lemma NoJobLost(steps: seq<Step>, s: State, j: JobId)
    requires HarmlessRun(INIT, steps, s) && Dispatched(s, j)
    ensures j in s.stream || (exists a :: On(s, a, j)) || !Unsettled(s.jobs[j].status)
  {
    SafeRun(INIT, steps, s);
    assert Safe(s, j);
    if a :| ObligedOn(s, a, j) {
      assert On(s, a, j);
    }
  }

  /** The harmlessness condition is exact: after any other death or cancellation, the
      attempts already past their last status write can finish and leave the job lost. */
  lemma HarmfulStepLosesJob(s: State, step: Step) returns (steps: seq<Step>, t: State)
    requires Inv(s) && Enabled(s, step) && !Harmless(s, step)
    ensures Run(Next(s, step), steps, t) && Lost(t, s.attempts[step.a].job)
    ensures forall x | x in steps :: x.Release? || x.DeletePayload? || x.Ack?
  {
    var s1 := Next(s, step);
    var j := s.attempts[step.a].job;
    InvStep(s, step);
    assert forall b :: ObligedOn(s1, b, j) ==> b != step.a && ObligedOn(s, b, j);
    if step.CancelWait? {
      assert On(s1, step.a, j);
    } else if j in s.stream {
      var b :| On(s, b, j) && b != step.a;
      assert On(s1, b, j);
    }
    steps, t := Drain(s1, j);
  }

  /** Unsettled, with no attempt obliged to settle it, and nobody to redeliver it to. */
  ghost predicate Doomed(s: State, j: JobId) {
    && Dispatched(s, j) && Unsettled(s.jobs[j].status)
    && (forall a :: !ObligedOn(s, a, j))
    && (j !in s.stream || exists a :: On(s, a, j))
  }

  function Workers(s: State, j: JobId): set<AttemptId> { set a | a in s.attempts && s.attempts[a].job == j }

  lemma Drain(s: State, j: JobId) returns (steps: seq<Step>, t: State)
    requires Inv(s) && Doomed(s, j)
    ensures Run(s, steps, t) && Lost(t, j)
    ensures forall x | x in steps :: x.Release? || x.DeletePayload? || x.Ack?
    decreases |Workers(s, j)|, 1, 0
  {
    if a :| On(s, a, j) {
      steps, t := DrainFrom(s, j, a);
    } else {
      steps, t := [], s;
    }
  }

  function FinishingStep(p: Phase, a: AttemptId): Step
    requires !Obliged(p)
  {
    match p
    case Releasing(_, _) => Release(a)
    case DeletingPayload => DeletePayload(a)
    case Acking => Ack(a)
  }

  function StepsLeft(p: Phase): nat {
    match p case Releasing(_, _) => 2 case DeletingPayload => 1 case _ => 0
  }

  lemma {:induction false} DrainFrom(s: State, j: JobId, a: AttemptId) returns (steps: seq<Step>, t: State)
    requires Inv(s) && Doomed(s, j) && On(s, a, j)
    ensures Run(s, steps, t) && Lost(t, j)
    ensures forall x | x in steps :: x.Release? || x.DeletePayload? || x.Ack?
    decreases |Workers(s, j)|, 0, StepsLeft(s.attempts[a].phase)
  {
    assert !ObligedOn(s, a, j);
    var step := FinishingStep(s.attempts[a].phase, a);
    var s1 := Next(s, step);
    InvStep(s, step);
    DrainKeepsDoom(s, j, a);
    var rest;
    if step.Ack? {
      assert Workers(s1, j) == Workers(s, j) - {a} && a in Workers(s, j);
      rest, t := Drain(s1, j);
    } else {
      assert Workers(s1, j) == Workers(s, j);
      rest, t := DrainFrom(s1, j, a);
    }
    steps := [step] + rest;
    assert steps[1..] == rest;
  }

  lemma DrainKeepsDoom(s: State, j: JobId, a: AttemptId)
    requires Inv(s) && Doomed(s, j) && On(s, a, j) && !Obliged(s.attempts[a].phase)
    ensures var s1 := Next(s, FinishingStep(s.attempts[a].phase, a));
      && Doomed(s1, j)
      && (!s.attempts[a].phase.Acking? ==>
            On(s1, a, j) && StepsLeft(s1.attempts[a].phase) < StepsLeft(s.attempts[a].phase))
      && forall b | b != a ::
          (b in s1.attempts <==> b in s.attempts) && (b in s.attempts ==> s1.attempts[b] == s.attempts[b])
  {
    var step := FinishingStep(s.attempts[a].phase, a);
    var s1 := Next(s, step);
    ActiveFrame(s, step);
    assert s1.jobs == s.jobs;
    assert forall b | b != a :: ObligedOn(s1, b, j) <==> ObligedOn(s, b, j);
    assert !step.Ack? ==> On(s1, a, j);
  }

  /** A lost job stays lost, whatever happens next. */
  lemma {:induction false} LostForever(s: State, j: JobId, steps: seq<Step>, t: State)
    requires Inv(s) && Lost(s, j) && Run(s, steps, t)
    ensures Lost(t, j)
    decreases |steps|
  {
    if steps != [] {
      var s1 := Next(s, steps[0]);
      InvStep(s, steps[0]);
      assert !Passive(steps[0]) ==> On(s, steps[0].a, s.attempts[steps[0].a].job);
      Elsewhere(s, steps[0], j);
      LostForever(s1, j, steps[1..], t);
    }
  }

  /** Settled is not final under redelivery, but only an attempt on the job itself changes
      its status, and never by marking it failed. */
  lemma StatusChangedByOwnAttempt(s: State, step: Step, j: JobId)
    requires Inv(s) && Enabled(s, step) && j in s.jobs && j in Next(s, step).jobs
    requires Next(s, step).jobs[j].status != s.jobs[j].status
    ensures step.WriteRunning? || step.Finish? || step.WriteSettled? || step.MarkFailed?
    ensures step.MarkFailed? ==> Unsettled(s.jobs[j].status)
    ensures s.attempts[step.a].job == j
  {
    if !Passive(step) {
      ActiveFrame(s, step);
    }
  }

  /** Redelivery can hand one job to two attempts, so a settled status is not final: here a
      job is reported blocked, and later completed. */
  lemma BlockedThenCompleted() returns (s: State, t: State)
    ensures Reaches(INIT, s) && s.jobs == map[0 := Job("site", Blocked, true)]
    ensures Reaches(s, t) && t.jobs == map[0 := Job("site", Completed, true)]
  {
    var s1 := FirstAttemptExecutes();
    var s2 := Next(s1, Tick(RECLAIM_IDLE));
    ReachesNext(INIT, s1, Tick(RECLAIM_IDLE));
    s := SecondAttemptBlocked(s2);
    ReachesTransitive(INIT, s2, s);
    t := FirstAttemptCompletes(s);
  }

  lemma FirstAttemptExecutes() returns (s: State)
    ensures Reaches(INIT, s)
    ensures s == State(0, map["site" := Lock(1, LOCK_TTL)], map[0 := DeliveredAt(0)], map[0 := PAYLOAD_TTL],
                       map[0 := Job("site", Running, true)], map[1 := Attempt(0, Executing(0))], 2)
  {
    var s3 := FirstAttemptWaits();
    var s4 := Next(s3, TryLock(1));
    ReachesNext(INIT, s3, TryLock(1));
    assert s4.attempts == map[1 := Attempt(0, Locked(0))];
    s := Next(s4, WriteRunning(1));
    ReachesNext(INIT, s4, WriteRunning(1));
  }

  lemma FirstAttemptWaits() returns (s: State)
    ensures Reaches(INIT, s)
    ensures s == State(0, map[], map[0 := DeliveredAt(0)], map[0 := PAYLOAD_TTL],
                       map[0 := Job("site", Pending, true)], map[1 := Attempt(0, Waiting(LOCK_WAIT))], 2)
  {
    ReachesSelf(INIT);
    var s1 := Next(INIT, Dispatch("site"));
    ReachesNext(INIT, INIT, Dispatch("site"));
    var s2 := Next(s1, Claim(0));
    ReachesNext(INIT, s1, Claim(0));
    s := Next(s2, LoadPayload(1, true));
    ReachesNext(INIT, s2, LoadPayload(1, true));
  }

  lemma SecondAttemptBlocked(s0: State) returns (s: State)
    requires s0
        == State(RECLAIM_IDLE, map["site" := Lock(1, LOCK_TTL)], map[0 := DeliveredAt(0)], map[0 := PAYLOAD_TTL],
                         map[0 := Job("site", Running, true)], map[1 := Attempt(0, Executing(0))], 2)
    ensures Reaches(s0, s) && s.jobs == map[0 := Job("site", Blocked, true)]
    ensures 1 in s.attempts && s.attempts[1] == Attempt(0, Executing(0))
  {
    hide Reaches;
    ReachesSelf(s0);
    var s1 := Next(s0, Claim(0));
    ReachesNext(s0, s0, Claim(0));
    var s2 := Next(s1, LoadPayload(2, true));
    ReachesNext(s0, s1, LoadPayload(2, true));
    assert s2.attempts[2] == Attempt(0, Waiting(RECLAIM_IDLE + LOCK_WAIT));
    var s3 := Next(s2, Tick(LOCK_WAIT));
    ReachesNext(s0, s2, Tick(LOCK_WAIT));
    var s4 := Next(s3, TryLock(2));
    ReachesNext(s0, s3, TryLock(2));
    assert s4.attempts[2] == Attempt(0, WritingBlocked) && s4.attempts[1] == Attempt(0, Executing(0));
    s := Next(s4, WriteSettled(2));
    ReachesNext(s0, s4, WriteSettled(2));
  }

  lemma FirstAttemptCompletes(s0: State) returns (s: State)
    requires s0.jobs == map[0 := Job("site", Blocked, true)]
    requires 1 in s0.attempts && s0.attempts[1] == Attempt(0, Executing(0))
    ensures Reaches(s0, s) && s.jobs == map[0 := Job("site", Completed, true)]
  {
    hide Reaches;
    var s2 := FirstAttemptReleases(s0);
    s := Next(s2, WriteSettled(1));
    ReachesNext(s0, s2, WriteSettled(1));
  }

  lemma FirstAttemptReleases(s0: State) returns (s: State)
    requires s0.jobs == map[0 := Job("site", Blocked, true)]
    requires 1 in s0.attempts && s0.attempts[1] == Attempt(0, Executing(0))
    ensures Reaches(s0, s) && s.jobs == s0.jobs
    ensures 1 in s.attempts && s.attempts[1] == Attempt(0, WritingCompleted)
  {
    hide Reaches;
    ReachesSelf(s0);
    var s1 := Next(s0, Finish(1, Success));
    ReachesNext(s0, s0, Finish(1, Success));
    assert s1.attempts[1] == Attempt(0, Releasing(0, ToComplete));
    s := Next(s1, Release(1));
    ReachesNext(s0, s1, Release(1));
  }
}
