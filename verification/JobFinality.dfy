/** When the status of a settled access job is final. Redelivery can hand a job to a second
    attempt, so settled is not enough; the condition below is exact. */
module JobFinality {
  import opened AccessJobs
  import opened Arithmetic

  predicate PayloadLive(s: State, j: JobId, at: int) { j in s.payloads && at < s.payloads[j] }

  /** The attempt can still write a status other than the one its job has. */
  predicate CanRewrite(s: State, a: AttemptId)
    requires Live(s, a)
  {
    var j := s.attempts[a].job;
    match s.attempts[a].phase
    case Claimed => PayloadLive(s, j, s.now)
    case Waiting(_) => true
    case Locked(_) => true
    case Executing(_) => true
    case Releasing(_, rest) => rest.ToComplete? && s.jobs[j].status != Completed
    case WritingCompleted => s.jobs[j].status != Completed
    case WritingBlocked => s.jobs[j].status != Blocked
    case _ => false
  }

  /** The earliest time at which the message can be claimed. */
  function NextClaim(s: State, j: JobId): int
    requires j in s.stream
  {
    match s.stream[j]
    case Undelivered => s.now
    case DeliveredAt(t) => Max(s.now, t + RECLAIM_IDLE)
  }

  /** The message can be claimed again before the payload expires. */
  predicate CanReclaim(s: State, j: JobId) { j in s.stream && PayloadLive(s, j, NextClaim(s, j)) }

  ghost predicate Quiescent(s: State, j: JobId) {
    && !CanReclaim(s, j)
    && forall a | Live(s, a) && On(s, a, j) :: !CanRewrite(s, a)
  }

  ghost predicate NeverChanges(s: State, j: JobId)
    requires j in s.jobs
  {
    forall t | Reaches(s, t) :: j in t.jobs && t.jobs[j].status == s.jobs[j].status
  }

  // ------------------------------------------------------------------ quiescent is enough

  /** The delivery and the payload of the job are as they were, or gone. */
  predicate SameMessage(s: State, t: State, j: JobId) {
    && t.now >= s.now
    && (j in t.payloads ==> j in s.payloads && t.payloads[j] == s.payloads[j])
    && (j in t.stream ==> j in s.stream && t.stream[j] == s.stream[j])
  }

  lemma MessageElsewhere(s: State, step: Step, j: JobId)
    requires Ids(s) && Enabled(s, step) && j in s.jobs && !ActsOn(s, step, j)
    ensures SameMessage(s, Next(s, step), j)
  {
    if !Passive(step) {
      MessageActing(s, step, j);
    }
  }

  lemma MessageActing(s: State, step: Step, j: JobId)
    requires Enabled(s, step) && !Passive(step)
    ensures SameMessage(s, Next(s, step), j) && Next(s, step).now == s.now
  {
    hide MoveTo, SetStatus;
    match step {
      case TryLock(a) =>
        assert SameMessage(s,
            MoveTo(s.(locks := s.locks[ScopeOf(s, a) := Lock(a, s.now + LOCK_TTL)]), a, Locked(s.now)), j);
      case WriteRunning(_) =>
      case Finish(_, _) =>
      case Release(_) =>
      case WriteSettled(_) =>
      case MarkFailed(_) =>
      case _ =>
    }
  }

  lemma QuiescentElsewhere(s: State, step: Step, j: JobId)
    requires Inv(s) && Enabled(s, step) && j in s.jobs && Quiescent(s, j) && !ActsOn(s, step, j)
    ensures j in Next(s, step).jobs && Next(s, step).jobs[j] == s.jobs[j] && Quiescent(Next(s, step), j)
  {
    hide Next;
    Elsewhere(s, step, j);
    MessageElsewhere(s, step, j);
    var t := Next(s, step);
    forall a | Live(t, a) && On(t, a, j) ensures !CanRewrite(t, a) {
      assert On(s, a, j) && t.attempts[a] == s.attempts[a];
    }
  }

  lemma QuiescentClaim(s: State, j: JobId)
    requires Inv(s) && Enabled(s, Claim(j)) && Quiescent(s, j)
    ensures j in Next(s, Claim(j)).jobs && Next(s, Claim(j)).jobs == s.jobs && Quiescent(Next(s, Claim(j)), j)
  {
    var t := Next(s, Claim(j));
    assert !PayloadLive(s, j, s.now);
    forall a | Live(t, a) && On(t, a, j) ensures !CanRewrite(t, a) {
      assert a != s.nextId ==> On(s, a, j) && Live(s, a);
    }
  }

  /** A step of an attempt that cannot rewrite keeps the status, and the attempt cannot
      rewrite afterwards either. */
  lemma IdleStep(s: State, step: Step)
    requires Enabled(s, step) && !Passive(step) && !CanRewrite(s, step.a)
    requires !Unsettled(s.jobs[s.attempts[step.a].job].status)
    ensures Next(s, step).jobs == s.jobs
    ensures Live(Next(s, step), step.a) ==> !CanRewrite(Next(s, step), step.a)
  {
    match step {
      case LoadPayload(a, _) => Harmlessly(s, a, MarkingFailed);
      case Release(a) => ReleasesIdly(s, a);
      case WriteSettled(a) => WritesAgain(s, a);
      case MarkFailed(a) => Harmlessly(s, a, DeletingPayload);
      case _ =>
    }
  }

  lemma Harmlessly(s: State, a: AttemptId, p: Phase)
    requires Live(s, a) && (p.MarkingFailed? || p.DeletingPayload?)
    ensures Live(MoveTo(s, a, p), a) ==> !CanRewrite(MoveTo(s, a, p), a)
  {}

  lemma ReleasesIdly(s: State, a: AttemptId)
    requires Enabled(s, Release(a)) && !CanRewrite(s, a)
    ensures Next(s, Release(a)).jobs == s.jobs
    ensures Live(Next(s, Release(a)), a) ==> !CanRewrite(Next(s, Release(a)), a)
  {}

  lemma WritesAgain(s: State, a: AttemptId)
    requires Enabled(s, WriteSettled(a)) && !CanRewrite(s, a)
    ensures Next(s, WriteSettled(a)).jobs == s.jobs
    ensures Live(Next(s, WriteSettled(a)), a) ==> !CanRewrite(Next(s, WriteSettled(a)), a)
  {
    var j := s.attempts[a].job;
    assert SetStatus(s, j, s.jobs[j].status) == s;
    Harmlessly(s, a, MarkingFailed);
    Harmlessly(s, a, DeletingPayload);
  }

  lemma QuiescentActing(s: State, step: Step)
    requires Inv(s) && Enabled(s, step) && !Passive(step)
    requires !Unsettled(s.jobs[s.attempts[step.a].job].status) && Quiescent(s, s.attempts[step.a].job)
    ensures Next(s, step).jobs == s.jobs && Quiescent(Next(s, step), s.attempts[step.a].job)
  {
    hide Next, Inv;
    var j := s.attempts[step.a].job;
    assert On(s, step.a, j);
    IdleStep(s, step);
    MessageActing(s, step, j);
    ActiveFrame(s, step);
    var t := Next(s, step);
    forall a | Live(t, a) && On(t, a, j) ensures !CanRewrite(t, a) {
      assert a != step.a ==> On(s, a, j) && t.attempts[a] == s.attempts[a];
    }
  }

  lemma QuiescentStep(s: State, step: Step, j: JobId)
    requires Inv(s) && Enabled(s, step) && j in s.jobs && !Unsettled(s.jobs[j].status) && Quiescent(s, j)
    ensures j in Next(s, step).jobs && Next(s, step).jobs[j] == s.jobs[j] && Quiescent(Next(s, step), j)
  {
    hide Next, Quiescent, Inv;
    if !ActsOn(s, step, j) {
      QuiescentElsewhere(s, step, j);
    } else if step.Claim? {
      QuiescentClaim(s, j);
    } else {
      QuiescentActing(s, step);
    }
  }

  lemma {:induction false} QuiescentRun(s: State, steps: seq<Step>, t: State, j: JobId)
    requires Inv(s) && Run(s, steps, t) && j in s.jobs && !Unsettled(s.jobs[j].status) && Quiescent(s, j)
    ensures j in t.jobs && t.jobs[j] == s.jobs[j]
    decreases |steps|
  {
    hide Next, Quiescent, Inv;
    if steps != [] {
      InvStep(s, steps[0]);
      QuiescentStep(s, steps[0], j);
      QuiescentRun(Next(s, steps[0]), steps[1..], t, j);
    }
  }

  // -------------------------------------------------------------------- and it is needed

  /** The job can still get another status. */
  ghost predicate Changeable(s: State, j: JobId, status: Status) {
    exists t :: Reaches(s, t) && j in t.jobs && t.jobs[j].status != status
  }

  lemma ChangesBy(s: State, step: Step, j: JobId, status: Status)
    requires Enabled(s, step) && j in Next(s, step).jobs && Next(s, step).jobs[j].status != status
    ensures Changeable(s, j, status)
  {
    ReachesSelf(s);
    ReachesNext(s, s, step);
  }

  lemma ChangesAfter(s: State, step: Step, j: JobId, status: Status)
    requires Enabled(s, step) && Changeable(Next(s, step), j, status)
    ensures Changeable(s, j, status)
  {
    ReachesSelf(s);
    ReachesNext(s, s, step);
    var t :| Reaches(Next(s, step), t) && j in t.jobs && t.jobs[j].status != status;
    ReachesTransitive(s, Next(s, step), t);
  }

  lemma LockedRewrites(s: State, a: AttemptId, status: Status)
    requires Live(s, a) && s.attempts[a].phase.Locked? && !Unsettled(status)
    ensures Changeable(s, s.attempts[a].job, status)
  {
    ChangesBy(s, WriteRunning(a), s.attempts[a].job, status);
  }

  /** A waiting attempt can wait for the lock to expire: it tries once more after its
      deadline. */
  lemma WaitingRewrites(s: State, a: AttemptId, status: Status)
    requires Live(s, a) && s.attempts[a].phase.Waiting? && !Unsettled(status)
    ensures Changeable(s, s.attempts[a].job, status)
  {
    hide Changeable;
    var j, c := s.attempts[a].job, ScopeOf(s, a);
    var nap := if LockHeld(s, c) then s.locks[c].expires - s.now else 0;
    var s1 := Next(s, Tick(nap));
    var s2 := Next(s1, TryLock(a));
    LockedRewrites(s2, a, status);
    ChangesAfter(s1, TryLock(a), j, status);
    ChangesAfter(s, Tick(nap), j, status);
  }

  lemma ClaimedRewrites(s: State, a: AttemptId, status: Status)
    requires Live(s, a) && s.attempts[a].phase.Claimed? && PayloadLive(s, s.attempts[a].job, s.now)
    requires !Unsettled(status)
    ensures Changeable(s, s.attempts[a].job, status)
  {
    hide Changeable;
    var s1 := Next(s, LoadPayload(a, true));
    WaitingRewrites(s1, a, status);
    ChangesAfter(s, LoadPayload(a, true), s.attempts[a].job, status);
  }

  lemma ReclaimRewrites(s: State, j: JobId, status: Status)
    requires Ids(s) && CanReclaim(s, j) && !Unsettled(status)
    ensures Changeable(s, j, status)
  {
    hide Changeable;
    var nap := NextClaim(s, j) - s.now;
    var s1 := Next(s, Tick(nap));
    var s2 := Next(s1, Claim(j));
    ClaimedRewrites(s2, s.nextId, status);
    ChangesAfter(s1, Claim(j), j, status);
    ChangesAfter(s, Tick(nap), j, status);
  }

  lemma ReleasingRewrites(s: State, a: AttemptId, status: Status)
    requires Live(s, a) && s.attempts[a].phase.Releasing? && s.attempts[a].phase.rest.ToComplete? && status != Completed
    ensures Changeable(s, s.attempts[a].job, status)
  {
    hide Changeable;
    var s1 := Next(s, Release(a));
    ChangesBy(s1, WriteSettled(a), s.attempts[a].job, status);
    ChangesAfter(s, Release(a), s.attempts[a].job, status);
  }

  lemma AttemptRewrites(s: State, a: AttemptId)
    requires Live(s, a) && CanRewrite(s, a) && !Unsettled(s.jobs[s.attempts[a].job].status)
    ensures Changeable(s, s.attempts[a].job, s.jobs[s.attempts[a].job].status)
  {
    hide Changeable;
    var j := s.attempts[a].job;
    var status := s.jobs[j].status;
    match s.attempts[a].phase {
      case Claimed => ClaimedRewrites(s, a, status);
      case Waiting(_) => WaitingRewrites(s, a, status);
      case Locked(_) => LockedRewrites(s, a, status);
      case Executing(_) => ChangesBy(s, Finish(a, if status == Failed then Mfa else Error), j, status);
      case Releasing(_, _) => ReleasingRewrites(s, a, status);
      case _ => ChangesBy(s, WriteSettled(a), j, status);
    }
  }

  /** A settled status is final exactly when no attempt on the job can still write another
      one and its message cannot be claimed again before its payload expires. */
  lemma SettledIsFinalIff(s: State, j: JobId)
    requires Reachable(s) && j in s.jobs && !Unsettled(s.jobs[j].status)
    ensures NeverChanges(s, j) <==> Quiescent(s, j)
  {
    ReachableInv(s);
    if Quiescent(s, j) {
      forall t | Reaches(s, t) ensures j in t.jobs && t.jobs[j].status == s.jobs[j].status {
        var steps :| Run(s, steps, t);
        QuiescentRun(s, steps, t, j);
      }
    } else {
      assert Changeable(s, j, s.jobs[j].status) by {
        if CanReclaim(s, j) {
          ReclaimRewrites(s, j, s.jobs[j].status);
        } else {
          var a :| Live(s, a) && On(s, a, j) && CanRewrite(s, a);
          AttemptRewrites(s, a);
        }
      }
    }
  }
}
