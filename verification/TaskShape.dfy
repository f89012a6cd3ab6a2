/** Which columns of a task row are set in which state, in every run. */
module TaskShape {
  import opened Options
  import opened TaskFsm
  import opened TaskRows
  import opened TaskProtocol

  /** A running task has a worker and a lease and no retry time; a waiting one shows its retry time twice,
      the second time in the lease column, and nobody owns it; and so on. */
  predicate Shaped(t: Task) {
    && 0 <= t.progress <= 100
    && match t.status
       case Pending => t.worker.None? && t.lease.None? && t.nextAttempt.None? && t.error.None?
       case Running => t.worker.Some? && t.lease.Some? && t.nextAttempt.None?
       case RetryWaiting =>
         && t.worker.None? && t.nextAttempt.Some? && t.lease == t.nextAttempt
         && t.attempt >= 1 && t.error == Some(HeartbeatTimeout(t.attempt - 1))
       case Succeeded => Completed(t)
       case PartialSucceeded => Completed(t)
       case Failed => t.worker.Some? && t.nextAttempt.None? && t.error.Some?
       case DeadLetter =>
         && t.worker.None? && t.lease.None? && t.nextAttempt.None?
         && t.error.Some? && t.error.value.MaxAttemptsExceeded?
       case Cancelled => false
  }

  predicate Completed(t: Task) {
    && t.progress == 100 && t.stage == StageCompleted
    && t.worker.None? && t.lease.None? && t.nextAttempt.None?
  }

  ghost predicate AllShaped(db: Db) {
    forall id | id in db.tasks :: Shaped(db.tasks[id])
  }

  lemma WritesKeepShape(t: Task, worker: string, error: ErrorText, maxAttempts: nat, now: Time, leaseFor: Time)
    requires Shaped(t)
    ensures Claimable(t, now) ==> Shaped(AcquiredRow(t, worker, leaseFor, now))
    ensures t.status == Running ==> Shaped(CasRow(t, Failed, Failure(worker, error)))
    ensures Shaped(RetriedRow(t)) && Shaped(CompletedRow(t, Succeeded)) && Shaped(CompletedRow(t, PartialSucceeded))
    ensures Shaped(RecoveredRow(t, maxAttempts, now))
  {
    hide RecoveryBackoff;
  }

  lemma SweepKeepsShape(db: Db, orphans: set<TaskId>, maxAttempts: nat, now: Time)
    requires AllShaped(db)
    ensures AllShaped(Sweep(db, orphans, maxAttempts, now))
  {
    hide RecoveredRow, Shaped;
    forall id | id in db.tasks
      ensures Shaped(RecoveredRow(db.tasks[id], maxAttempts, now))
    {
      WritesKeepShape(db.tasks[id], "", MissingDocument, maxAttempts, now, 0);
    }
  }

  lemma StepKeepsShape(s: State, step: Step)
    requires AllShaped(s.db) && Enabled(s, step)
    ensures AllShaped(DbAfter(s, step))
  {
    match step
    case SweepStep(locked, now) =>
      hide Sweep, Shaped;
      SweepKeepsShape(s.db, OrphansOf(s, locked, now), s.maxAttempts, now);
    case AcquireStep(_, _) => WorkerStepKeepsShape(s, step);
    case DocMissingStep(_) => WorkerStepKeepsShape(s, step);
    case HeartbeatStep(_, _) => WorkerStepKeepsShape(s, step);
    case ProgressStep(_, _, _) => WorkerStepKeepsShape(s, step);
    case CompleteStep(_, _) => WorkerStepKeepsShape(s, step);
    case FailStep(_, _) => WorkerStepKeepsShape(s, step);
    case _ => OtherStepKeepsShape(s, step);
  }

  lemma WorkerStepKeepsShape(s: State, step: Step)
    requires AllShaped(s.db) && Enabled(s, step)
    requires step.AcquireStep? || step.DocMissingStep? || step.HeartbeatStep? || step.ProgressStep?
          || step.CompleteStep? || step.FailStep?
    ensures AllShaped(DbAfter(s, step))
  {
  }

  lemma OtherStepKeepsShape(s: State, step: Step)
    requires AllShaped(s.db) && Enabled(s, step) && !step.SweepStep?
    requires !(step.AcquireStep? || step.DocMissingStep? || step.HeartbeatStep? || step.ProgressStep?
               || step.CompleteStep? || step.FailStep?)
    ensures AllShaped(DbAfter(s, step))
  {
    hide Enqueue, FailedEvent, ClaimedEvent;
  }

  lemma {:induction false} RunKeepsShape(s: State, steps: seq<Step>)
    requires AllShaped(s.db) && IsRun(s, steps)
    ensures AllShaped(After(s, steps).db)
    decreases |steps|
  {
    hide AllShaped, Enabled;
    if steps != [] {
      StepKeepsShape(s, steps[0]);
      RunKeepsShape(Apply(s, steps[0]), steps[1..]);
    }
  }

  /** In every run from an initial state every row has the shape of its state. */
  lemma RowsAreShaped(s: State, steps: seq<Step>, id: TaskId)
    requires Init(s) && IsRun(s, steps) && id in After(s, steps).db.tasks
    ensures Shaped(After(s, steps).db.tasks[id])
  {
    RunKeepsShape(s, steps);
  }
}
