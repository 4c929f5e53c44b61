/** What the steps of the access-job machine write: the status of every row, and the phase
    that an attempt goes on to, each said outright. */
module JobSteps {
  import opened AccessJobs

  /** The status of every row after every step. Running is written when an executor starts;
      failed when one raises, or by the worker for a job not settled yet; MFA required and
      cancelled when one ends so; completed and blocked by the write that follows. Nothing
      else writes a status. */
  lemma StatusWrites(s: State, step: Step, j: JobId)
    requires Ids(s) && Enabled(s, step) && j in s.jobs
    ensures var t := Next(s, step);
            && j in t.jobs
            && t.jobs[j].scope == s.jobs[j].scope && t.jobs[j].dispatched == s.jobs[j].dispatched
            && t.jobs[j].status
               == if !Passive(step) && s.attempts[step.a].job == j then Written(s, step) else s.jobs[j].status
  {
    if !Passive(step) {
      ActiveFrame(s, step);
      if s.attempts[step.a].job == j {
        OwnStatusWritten(s, step);
      }
    }
  }

  function Written(s: State, step: Step): Status
    requires Enabled(s, step) && !Passive(step)
  {
    var row := s.jobs[s.attempts[step.a].job];
    match step
    case WriteRunning(_) => Running
    case Finish(_, Error) => Failed
    case Finish(_, Mfa) => MfaRequired
    case Finish(_, CancelledRun) => Cancelled
    case WriteSettled(a) => if s.attempts[a].phase.WritingBlocked? then Blocked else Completed
    case MarkFailed(_) => if row.status == Pending || row.status == Running then Failed else row.status
    case _ => row.status
  }

  lemma OwnStatusWritten(s: State, step: Step)
    requires Ids(s) && Enabled(s, step) && !Passive(step)
    ensures s.attempts[step.a].job in Next(s, step).jobs
    ensures Next(s, step).jobs[s.attempts[step.a].job].status == Written(s, step)
  {
    match step {
      case WriteRunning(_) => WritersWrite(s, step);
      case Finish(_, _) => WritersWrite(s, step);
      case WriteSettled(_) => WritersWrite(s, step);
      case MarkFailed(_) => WritersWrite(s, step);
      case _ => OthersWriteNothing(s, step);
    }
    hide Next, Ids;
  }

  lemma WritersWrite(s: State, step: Step)
    requires Enabled(s, step)
    requires step.WriteRunning? || step.Finish? || step.WriteSettled? || step.MarkFailed?
    ensures s.attempts[step.a].job in Next(s, step).jobs
    ensures Next(s, step).jobs[s.attempts[step.a].job].status == Written(s, step)
  {
    hide MoveTo;
  }

  lemma OthersWriteNothing(s: State, step: Step)
    requires Enabled(s, step) && !Passive(step)
    requires !step.WriteRunning? && !step.Finish? && !step.WriteSettled? && !step.MarkFailed?
    ensures Next(s, step).jobs == s.jobs
  {
    hide MoveTo;
  }

  /** What an attempt goes on to. It waits for the lock only if its payload is alive and names
      an executor, takes the lock only if it is free, gives up only at its deadline, and is
      about to report success, failure or nothing as its executor ended. */
  lemma PhasesFollow(s: State, step: Step)
    requires Ids(s) && Enabled(s, step) && !Passive(step) && s.jobs[s.attempts[step.a].job].dispatched
    ensures var a := step.a;
            var j, t := s.attempts[a].job, Next(s, step);
            match step
            case LoadPayload(_, resolves) =>
              t.attempts[a].phase == if resolves && j in s.payloads && s.now < s.payloads[j]
                                     then Waiting(s.now + 250) else MarkingFailed
            case TryLock(_) =>
              t.attempts[a].phase == if !LockHeld(s, s.jobs[j].scope) then Locked(s.now)
                                     else if s.now >= s.attempts[a].phase.deadline then WritingBlocked
                                     else s.attempts[a].phase
            case Finish(_, Success) =>
              t.attempts[a].phase == Releasing(s.attempts[a].phase.since, ToComplete)
            case Finish(_, Error) =>
              t.attempts[a].phase == Releasing(s.attempts[a].phase.since, ToMarkFailed)
            case Finish(_, _) =>
              t.attempts[a].phase == Releasing(s.attempts[a].phase.since, ToFinish)
            case Release(_) =>
              && t.attempts[a].phase == (match s.attempts[a].phase.rest
                                         case ToComplete => WritingCompleted
                                         case ToMarkFailed => MarkingFailed
                                         case ToFinish => DeletingPayload)
              && (s.jobs[j].scope in t.locks && LockHeld(t, s.jobs[j].scope) ==> t.locks[s.jobs[j].scope].token != a)
            case WriteSettled(_) =>
              t.attempts[a].phase == if s.attempts[a].phase.WritingBlocked? then MarkingFailed else DeletingPayload
            case Ack(_) => a !in t.attempts && j !in t.stream
            case DeletePayload(_) => t.attempts[a].phase == Acking && j !in t.payloads
            case _ => true
  {}
}
