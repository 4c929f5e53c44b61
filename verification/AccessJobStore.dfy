/** The Redis keys and job rows that all workers share, updated in place, and one worker's
    pass over them. Every method is proved to take steps of the state machine in
    AccessJobs, so whatever holds of its runs holds here. */
module AccessJobStore {
  import opened Text
  import opened AccessJobs
  import opened Arithmetic

  const LOCK_POLL_INTERVAL := 50

  class Store {
    var now: int
    var locks: map<Scope, Lock>
    var stream: map<JobId, Delivery>
    var payloads: map<JobId, int>
    var jobs: map<JobId, Job>
    var attempts: map<AttemptId, Attempt>
    var nextId: nat

    ghost function Abs(): State
      reads this
    {
      State(now, locks, stream, payloads, jobs, attempts, nextId)
    }

    /** `_claim_dispatched_message`: an idle delivered message first, then a new one. */
    method ClaimDispatchedMessage() returns (claimed: Option<JobId>)
      modifies this
      ensures claimed.None? ==> Abs() == old(Abs()) && forall j :: !Claimable(Abs(), j)
      ensures claimed.Some? ==> Claimable(old(Abs()), claimed.value) && Abs() == Next(old(Abs()), Claim(claimed.value))
      ensures claimed.Some? && old(stream)[claimed.value].Undelivered? ==>
                forall j | j in old(stream) && old(stream)[j].DeliveredAt? :: now - old(stream)[j].time < RECLAIM_IDLE
    {
      if j :| j in stream && stream[j].DeliveredAt? && now - stream[j].time >= RECLAIM_IDLE {
        claimed := Some(j);
      } else if j :| j in stream && stream[j].Undelivered? {
        claimed := Some(j);
      } else {
        return None;
      }
      stream := stream[claimed.value := DeliveredAt(now)];
      attempts := attempts[nextId := Attempt(claimed.value, Claimed)];
      nextId := nextId + 1;
    }

    method Move(a: AttemptId, p: Phase)
      requires Live(Abs(), a)
      modifies this`attempts
      ensures Abs() == MoveTo(old(Abs()), a, p)
    {
      var t := attempts[a];
      if !jobs[t.job].dispatched && (p.MarkingFailed? || p.DeletingPayload?) {
        attempts := attempts - {a};
      } else {
        attempts := attempts[a := t.(phase := p)];
      }
    }

    method ApplyJobState(j: JobId, status: Status)
      requires j in jobs
      modifies this`jobs
      ensures Abs() == SetStatus(old(Abs()), j, status)
    {
      jobs := jobs[j := jobs[j].(status := status)];
    }

    /** `_acquire_redis_lock`: polls until the key can be set or the deadline has passed. */
    method AcquireRedisLock(a: AttemptId) returns (acquired: bool)
      requires Enabled(Abs(), TryLock(a))
      modifies this
      ensures Reaches(old(Abs()), Abs())
      ensures old(now) <= now && (now == old(now) || now <= old(attempts)[a].phase.deadline)
      ensures acquired ==> !LockHeld(old(Abs()).(now := now), ScopeOf(old(Abs()), a))
      ensures acquired ==> Abs() == Next(old(Abs()).(now := now), TryLock(a))
      ensures !acquired ==> LockHeld(Abs(), ScopeOf(old(Abs()), a)) && now >= old(attempts)[a].phase.deadline
      ensures !acquired ==> Abs() == MoveTo(old(Abs()).(now := now), a, WritingBlocked)
      ensures acquired <==> !HeldThrough(old(Abs()), ScopeOf(old(Abs()), a), old(attempts)[a].phase.deadline)
    {
      var deadline := attempts[a].phase.deadline;
      var scope := jobs[attempts[a].job].scope;
      ghost var s0 := Abs();
      ReachesSelf(s0);
      while true
        invariant Reaches(s0, Abs())
        invariant Abs() == s0.(now := now)
        invariant old(now) <= now && (now == old(now) || now <= deadline)
        decreases deadline - now
      {
        ghost var s := Abs();
        ReachesNext(s0, s, TryLock(a));
        if !(scope in locks && now < locks[scope].expires) {
          locks := locks[scope := Lock(a, now + LOCK_TTL)];
          Move(a, Locked(now));
          return true;
        }
        var remaining := deadline - now;
        if remaining <= 0 {
          Move(a, WritingBlocked);
          return false;
        }
        var nap := if LOCK_POLL_INTERVAL < remaining then LOCK_POLL_INTERVAL else remaining;
        ReachesNext(s0, s, Tick(nap));
        now := now + nap;
      }
    }

    /** The release script, run by the `finally` of the attempt that holds the lock. */
    method ReleaseScopeLock(a: AttemptId)
      requires Enabled(Abs(), AccessJobs.Release(a))
      modifies this
      ensures Abs() == Next(old(Abs()), AccessJobs.Release(a))
    {
      var scope := jobs[attempts[a].job].scope;
      if scope in locks && now < locks[scope].expires && locks[scope].token == a {
        locks := locks - {scope};
      }
      match attempts[a].phase.rest {
        case ToComplete => Move(a, WritingCompleted);
        case ToMarkFailed => Move(a, MarkingFailed);
        case ToFinish => Move(a, DeletingPayload);
      }
    }

    /** `_mark_job_failed`: leaves a settled job alone. */
    method MarkJobFailed(a: AttemptId)
      requires Enabled(Abs(), AccessJobs.MarkFailed(a))
      modifies this`jobs, this`attempts
      ensures Abs() == Next(old(Abs()), AccessJobs.MarkFailed(a))
    {
      var j := attempts[a].job;
      if jobs[j].status == Pending || jobs[j].status == Running {
        ApplyJobState(j, Failed);
      }
      Move(a, DeletingPayload);
    }

    ghost function Row(a: AttemptId): Job
      requires Live(Abs(), a)
      reads this
    {
      jobs[attempts[a].job]
    }

    /** The part of `_execute_existing_job` after the lock is held: the executor runs for
        `runTime` and ends in `outcome`. */
    method RunExecutor(a: AttemptId, outcome: Outcome, runTime: nat)
      requires Enabled(Abs(), AccessJobs.WriteRunning(a)) && Row(a).dispatched
      modifies this
      ensures Reaches(old(Abs()), Abs())
      ensures attempts
          == old(attempts)[a :=
              Attempt(old(attempts)[a].job, if outcome == Error then MarkingFailed else DeletingPayload)]
      ensures jobs == old(jobs)[old(attempts)[a].job := old(Row(a)).(status := Settled(outcome))]
      ensures stream == old(stream) && payloads == old(payloads) && nextId == old(nextId)
    {
      hide Reaches;
      ghost var s0 := Abs();
      ReachesSelf(s0);
      MarkRunning(s0, a);
      ReachesNext(s0, Abs(), Tick(runTime));
      now := now + runTime;
      EndExecutor(s0, a, outcome);
      AfterExecutor(s0, a, outcome);
    }

    method MarkRunning(ghost s0: State, a: AttemptId)
      requires Reaches(s0, Abs()) && Enabled(Abs(), AccessJobs.WriteRunning(a))
      modifies this`jobs, this`attempts
      ensures Reaches(s0, Abs())
      ensures attempts == old(attempts)[a := Attempt(old(attempts)[a].job, Executing(old(attempts)[a].phase.since))]
      ensures jobs == old(jobs)[old(attempts)[a].job := old(Row(a)).(status := Running)]
    {
      ReachesNext(s0, Abs(), AccessJobs.WriteRunning(a));
      var since := attempts[a].phase.since;
      ApplyJobState(attempts[a].job, Running);
      Move(a, Executing(since));
    }

    /** The handler of the executor's outcome: every outcome but success is written while
        the lock is still held. */
    method EndExecutor(ghost s0: State, a: AttemptId, outcome: Outcome)
      requires Reaches(s0, Abs()) && Enabled(Abs(), AccessJobs.Finish(a, outcome))
      modifies this`jobs, this`attempts
      ensures Reaches(s0, Abs())
      ensures attempts
          == old(attempts)[a :=
              Attempt(old(attempts)[a].job, Releasing(old(attempts)[a].phase.since, AfterFinish(outcome).1))]
      ensures jobs == if outcome == Success then old(jobs)
          else old(jobs)[old(attempts)[a].job := old(Row(a)).(status := Settled(outcome))]
    {
      ReachesNext(s0, Abs(), AccessJobs.Finish(a, outcome));
      var since := attempts[a].phase.since;
      if outcome != Success {
        ApplyJobState(attempts[a].job, Settled(outcome));
      }
      Move(a, Releasing(since, AfterFinish(outcome).1));
    }

    /** The `finally` that releases the lock, and the success path behind it. */
    method AfterExecutor(ghost s0: State, a: AttemptId, outcome: Outcome)
      requires Reaches(s0, Abs()) && Live(Abs(), a) && Row(a).dispatched
      requires attempts[a].phase.Releasing? && attempts[a].phase.rest == AfterFinish(outcome).1
      modifies this
      ensures Reaches(s0, Abs())
      ensures attempts
          == old(attempts)[a :=
              Attempt(old(attempts)[a].job, if outcome == Error then MarkingFailed else DeletingPayload)]
      ensures jobs == if outcome == Success then old(jobs)[old(attempts)[a].job := old(Row(a)).(status := Completed)]
          else old(jobs)
      ensures stream == old(stream) && payloads == old(payloads) && nextId == old(nextId)
    {
      hide Reaches;
      ReachesNext(s0, Abs(), AccessJobs.Release(a));
      ReleaseScopeLock(a);
      if outcome == Success {
        ReachesNext(s0, Abs(), AccessJobs.WriteSettled(a));
        ApplyJobState(attempts[a].job, Completed);
        Move(a, DeletingPayload);
      }
    }

    /** `_execute_existing_job` for a claimed message. */
    method ExecuteJob(a: AttemptId, outcome: Outcome, runTime: nat) returns (blocked: bool)
      requires Enabled(Abs(), TryLock(a)) && Row(a).dispatched
      modifies this
      ensures Reaches(old(Abs()), Abs())
      ensures attempts
          == old(attempts)[a :=
              Attempt(old(attempts)[a].job, if blocked || outcome == Error then MarkingFailed else DeletingPayload)]
      ensures jobs
          == old(jobs)[old(attempts)[a].job := old(Row(a)).(status := if blocked then Blocked else Settled(outcome))]
      ensures stream == old(stream) && payloads == old(payloads) && nextId == old(nextId)
      ensures blocked <==> HeldThrough(old(Abs()), old(Row(a)).scope, old(attempts)[a].phase.deadline)
    {
      hide Reaches;
      var acquired := AcquireRedisLock(a);
      ghost var s1 := Abs();
      if acquired {
        RunExecutor(a, outcome, runTime);
        ReachesTransitive(old(Abs()), s1, Abs());
      } else {
        ReachesNext(old(Abs()), s1, AccessJobs.WriteSettled(a));
        ApplyJobState(attempts[a].job, Blocked);
        Move(a, MarkingFailed);
      }
      blocked := !acquired;
    }

    /** The `finally` of the worker: the payload goes, then the message is acked. */
    method Acknowledge(ghost s0: State, a: AttemptId)
      requires Reaches(s0, Abs()) && Enabled(Abs(), AccessJobs.DeletePayload(a)) && Row(a).dispatched
      modifies this
      ensures Reaches(s0, Abs())
      ensures payloads == old(payloads) - {old(attempts)[a].job} && stream == old(stream) - {old(attempts)[a].job}
      ensures attempts == old(attempts) - {a} && jobs == old(jobs)
    {
      var j := attempts[a].job;
      ReachesNext(s0, Abs(), AccessJobs.DeletePayload(a));
      payloads := payloads - {j};
      Move(a, Acking);
      ReachesNext(s0, Abs(), AccessJobs.Ack(a));
      stream := stream - {j};
      attempts := attempts - {a};
    }

    /** `process_dispatched_access_job`, undisturbed by other workers: if a message can be
        claimed, its job ends settled, its payload is gone and it is acked. */
    method ProcessDispatchedAccessJob(resolves: bool, outcome: Outcome, runTime: nat) returns (processed: Option<JobId>)
      requires Inv(Abs())
      modifies this
      ensures Reaches(old(Abs()), Abs())
      ensures processed.None? ==> Abs() == old(Abs()) && forall j :: !Claimable(Abs(), j)
      ensures processed.Some? ==> Claimable(old(Abs()), processed.value) && processed.value in old(jobs)
      ensures processed.Some? ==>
          stream == old(stream) - {processed.value} && payloads == old(payloads) - {processed.value}
      ensures processed.Some? ==> attempts == old(attempts)
      ensures processed.Some? ==>
                jobs == old(jobs)[processed.value := old(jobs)[processed.value].(
                  status := FinalStatus(old(Abs()), processed.value, resolves, outcome))]
      ensures processed.Some? ==>
                var j := processed.value;
                var was := old(jobs)[j];
                jobs[j].status
                == if !resolves || j !in old(payloads) || old(now) >= old(payloads)[j]
                   then (if was.status == Pending || was.status == Running then Failed else was.status)
                   else if was.scope in old(locks) && old(locks)[was.scope].expires > old(now) + 250 then Blocked
                   else match outcome
                        case Success => Completed
                        case Mfa => MfaRequired
                        case Error => Failed
                        case CancelledRun => Cancelled
    {
      hide Reaches;
      ghost var s0 := Abs();
      processed := ClaimDispatchedMessage();
      if processed.Some? {
        ReachesSelf(s0);
        ReachesNext(s0, s0, AccessJobs.Claim(processed.value));
        ghost var s1 := Abs();
        assert s1.attempts == s0.attempts[s0.nextId := Attempt(processed.value, Claimed)];
        ProcessClaimed(s0, nextId - 1, resolves, outcome, runTime);
        assert stream == s0.stream - {processed.value};
        assert attempts == s0.attempts;
      } else {
        ReachesSelf(s0);
      }
    }

    method ProcessClaimed(ghost s0: State, a: AttemptId, resolves: bool, outcome: Outcome, runTime: nat)
      requires Reaches(s0, Abs()) && Enabled(Abs(), AccessJobs.LoadPayload(a, resolves)) && Row(a).dispatched
      modifies this
      ensures Reaches(s0, Abs())
      ensures stream == old(stream) - {old(attempts)[a].job} && payloads == old(payloads) - {old(attempts)[a].job}
      ensures attempts == old(attempts) - {a}
      ensures jobs == old(jobs)[old(attempts)[a].job := old(Row(a)).(
                status := FinalStatus(old(Abs()), old(attempts)[a].job, resolves, outcome))]
    {
      hide Reaches;
      ghost var j := attempts[a].job;
      var failed := HandleMessage(s0, a, resolves, outcome, runTime);
      if failed {
        FailJob(s0, a);
      }
      Acknowledge(s0, a);
      assert attempts == old(attempts) - {a};
      assert jobs == old(jobs)[j := old(Row(a)).(status := jobs[j].status)];
    }

    method FailJob(ghost s0: State, a: AttemptId)
      requires Reaches(s0, Abs()) && Enabled(Abs(), AccessJobs.MarkFailed(a)) && Row(a).dispatched
      modifies this`jobs, this`attempts
      ensures Reaches(s0, Abs())
      ensures attempts == old(attempts)[a := Attempt(old(attempts)[a].job, DeletingPayload)]
      ensures jobs == if Unsettled(old(Row(a)).status)
          then old(jobs)[old(attempts)[a].job := old(Row(a)).(status := Failed)] else old(jobs)
    {
      ReachesNext(s0, Abs(), AccessJobs.MarkFailed(a));
      MarkJobFailed(a);
    }

    /** Loads the payload of a claimed message and, if it is there and names a known
        executor, runs the job. */
    method HandleMessage(ghost s0: State, a: AttemptId, resolves: bool, outcome: Outcome, runTime: nat)
        returns (failed: bool)
      requires Reaches(s0, Abs()) && Enabled(Abs(), AccessJobs.LoadPayload(a, resolves)) && Row(a).dispatched
      modifies this
      ensures Reaches(s0, Abs())
      ensures attempts
          == old(attempts)[a := Attempt(old(attempts)[a].job, if failed then MarkingFailed else DeletingPayload)]
      ensures stream == old(stream) && payloads == old(payloads) && nextId == old(nextId)
      ensures
        var j := old(attempts)[a].job;
        if resolves && j in payloads && old(now) < payloads[j]
        then jobs == old(jobs)[j := old(jobs)[j].(status := FinalStatus(old(Abs()), j, resolves, outcome))]
        else jobs == old(jobs) && failed
    {
      hide Reaches;
      var j := attempts[a].job;
      ReachesNext(s0, Abs(), AccessJobs.LoadPayload(a, resolves));
      if j in payloads && now < payloads[j] && resolves {
        Move(a, Waiting(now + LOCK_WAIT));
        ghost var s1 := Abs();
        var blocked := ExecuteJob(a, outcome, runTime);
        ReachesTransitive(s0, s1, Abs());
        failed := blocked || outcome == Error;
      } else {
        Move(a, MarkingFailed);
        failed := true;
      }
    }
  }

  /** The key of the scope outlives the wait for it. */
  predicate HeldThrough(s: State, c: Scope, deadline: int) { LockHeld(s.(now := Max(s.now, deadline)), c) }

  /** The status of a job after one undisturbed pass over its message: the payload decides
      whether the executor is considered at all, and the lock whether it is started. */
  function FinalStatus(s: State, j: JobId, resolves: bool, outcome: Outcome): AccessJobs.Status
    requires j in s.jobs
  {
    if resolves && j in s.payloads && s.now < s.payloads[j]
    then if HeldThrough(s, s.jobs[j].scope, s.now + LOCK_WAIT) then Blocked else Settled(outcome)
    else if Unsettled(s.jobs[j].status) then Failed
    else s.jobs[j].status
  }

  /** The status an executor that ran to its end leaves behind. */
  function Settled(outcome: Outcome): (s: AccessJobs.Status)
    ensures !Unsettled(s)
  {
    match outcome
    case Success => Completed
    case Mfa => MfaRequired
    case Error => Failed
    case CancelledRun => Cancelled
  }
}
