/** Automatic re-running is bounded. */
module TaskAttempts {
  import opened TaskFsm
  import opened TaskRows
  import opened TaskProtocol
  import opened TaskInvariant
  import opened TaskSteps
  import opened TaskDelivery
  import opened TaskFencing

  /** How often a row that is not queued can still be acquired without a manual retry: recovery
      requeues it while attempts remain, and each round costs one attempt for the sweep and one for
      the acquire. */
  function RoundsLeft(maxAttempts: nat, attempt: nat): nat {
    if attempt < maxAttempts then (maxAttempts - attempt) / 2 else 0
  }

  function AcquiresLeft(t: Task, maxAttempts: nat): nat {
    if Queued(t) then 1 + RoundsLeft(maxAttempts, t.attempt + 1)
    else RoundsLeft(maxAttempts, t.attempt)
  }

  /** The budget of a task that is not uploaded yet, that exists, or that was deleted. */
  function Budget(s: State, id: TaskId): nat {
    if id in s.db.tasks then AcquiresLeft(s.db.tasks[id], s.maxAttempts)
    else if id in s.usedTasks then 0
    else (s.maxAttempts + 1) / 2
  }

  predicate RetriesTask(s: State, step: Step, id: TaskId) {
    step.RetryStep? && step.id == id && CanRetry(s.db, id, step.tenant)
  }

  function One(b: bool): nat {
    if b then 1 else 0
  }

  ghost function Acquires(s: State, steps: seq<Step>, id: TaskId): nat
    requires IsRun(s, steps)
    decreases |steps|
  {
    if steps == [] then 0
    else One(AcquiresTask(s, steps[0], id)) + Acquires(Apply(s, steps[0]), steps[1..], id)
  }

  ghost function Retries(s: State, steps: seq<Step>, id: TaskId): nat
    requires IsRun(s, steps)
    decreases |steps|
  {
    if steps == [] then 0
    else One(RetriesTask(s, steps[0], id)) + Retries(Apply(s, steps[0]), steps[1..], id)
  }

  lemma SweepSpendsNothing(t: Task, maxAttempts: nat, now: Time)
    requires t.status == Running
    ensures AcquiresLeft(RecoveredRow(t, maxAttempts, now), maxAttempts) <= AcquiresLeft(t, maxAttempts)
  {
    if t.attempt + 1 < maxAttempts {
      assert RecoveredRow(t, maxAttempts, now).status == RetryWaiting;
    }
  }

  lemma RetryGrantsAtMostOne(t: Task, maxAttempts: nat)
    requires !Queued(t)
    ensures AcquiresLeft(RetriedRow(t), maxAttempts) <= AcquiresLeft(t, maxAttempts) + 1
  {
  }

  lemma AcquireSpendsOne(t: Task, maxAttempts: nat, worker: string, now: Time)
    requires Queued(t)
    ensures AcquiresLeft(AcquiredRow(t, worker, ACQUIRE_LEASE, now), maxAttempts) + 1 == AcquiresLeft(t, maxAttempts)
  {
  }

  /** Steps other than acquire, retry, sweep, upload and re-ingestion. */
  lemma QuietStepKeepsBudget(s: State, step: Step, id: TaskId)
    requires IdsUsed(s) && Enabled(s, step) && id in s.db.tasks && id in DbAfter(s, step).tasks
    requires !AcquiresTask(s, step, id) && !RetriesTask(s, step, id) && !step.SweepStep?
    ensures var t, t' := s.db.tasks[id], DbAfter(s, step).tasks[id];
            t'.attempt == t.attempt && Queued(t') == Queued(t)
  {
    hide Enqueue, FailedEvent, ClaimedEvent, ControlAfter, RecoveryBackoff;
  }

  lemma AcquireStepSpendsOne(s: State, step: Step, id: TaskId)
    requires Inv(s) && Enabled(s, step) && AcquiresTask(s, step, id)
    ensures id in s.db.tasks && id in DbAfter(s, step).tasks
    ensures AcquiresLeft(DbAfter(s, step).tasks[id], s.maxAttempts) + 1 <= AcquiresLeft(s.db.tasks[id], s.maxAttempts)
  {
    hide AcquiresLeft;
    AcquireSpendsOne(s.db.tasks[id], s.maxAttempts, s.sessions[step.i].worker, step.now);
  }

  lemma RetryStepGrantsOne(s: State, step: Step, id: TaskId)
    requires Enabled(s, step) && RetriesTask(s, step, id)
    ensures id in s.db.tasks && id in DbAfter(s, step).tasks && !AcquiresTask(s, step, id)
    ensures AcquiresLeft(DbAfter(s, step).tasks[id], s.maxAttempts) <= AcquiresLeft(s.db.tasks[id], s.maxAttempts) + 1
  {
    hide AcquiresLeft;
    RetryGrantsAtMostOne(s.db.tasks[id], s.maxAttempts);
  }

  lemma StepSpendsBudget(s: State, step: Step, id: TaskId)
    requires Inv(s) && Enabled(s, step)
    ensures Budget(Apply(s, step), id) + One(AcquiresTask(s, step, id))
         <= Budget(s, id) + One(RetriesTask(s, step, id))
  {
    hide Inv, Enabled, DbAfter, ControlAfter, AcquiresTask, RetriesTask;
    MaxAttemptsStep(s, step);
    InvIdsUsed(s);
    InvAttempts(s);
    if id in s.db.tasks && id in DbAfter(s, step).tasks {
      if AcquiresTask(s, step, id) {
        AcquireStepSpendsOne(s, step, id);
      } else if RetriesTask(s, step, id) {
        RetryStepGrantsOne(s, step, id);
      } else if step.SweepStep? {
        SweepStepSpendsNothing(s, step, id);
      } else {
        QuietStepKeepsBudget(s, step, id);
      }
    } else {
      NewTaskBudget(s, step, id);
    }
  }

  lemma InvAttempts(s: State)
    requires Inv(s)
    ensures s.maxAttempts >= 1
  {
  }

  lemma SweepStepSpendsNothing(s: State, step: Step, id: TaskId)
    requires Enabled(s, step) && step.SweepStep? && id in s.db.tasks
    ensures AcquiresLeft(DbAfter(s, step).tasks[id], s.maxAttempts) <= AcquiresLeft(s.db.tasks[id], s.maxAttempts)
  {
    if id in OrphansOf(s, step.locked, step.now) {
      SweepSpendsNothing(s.db.tasks[id], s.maxAttempts, step.now);
    }
  }

  lemma NewTaskBudget(s: State, step: Step, id: TaskId)
    requires IdsUsed(s) && s.maxAttempts >= 1 && Enabled(s, step)
    requires id !in s.db.tasks || id !in Apply(s, step).db.tasks
    ensures Budget(Apply(s, step), id) <= Budget(s, id)
    ensures !AcquiresTask(s, step, id)
  {
    NoOtherDocs(s, step);
    MaxAttemptsStep(s, step);
    if id !in s.db.tasks && id in Apply(s, step).db.tasks {
      assert Apply(s, step).db.tasks[id].attempt == 0 && Queued(Apply(s, step).db.tasks[id]);
    }
  }

  /** With at most M attempts a task is acquired at most (M + 1) / 2 times, and once more for every
      manual retry. */
  lemma {:induction false} AcquiresAreBounded(s: State, steps: seq<Step>, id: TaskId)
    requires Inv(s) && IsRun(s, steps)
    ensures Budget(After(s, steps), id) + Acquires(s, steps, id) <= Budget(s, id) + Retries(s, steps, id)
    decreases |steps|
  {
    hide Inv, Enabled, Apply, Budget, AcquiresTask, RetriesTask;
    if steps != [] {
      StepSpendsBudget(s, steps[0], id);
      StepKeepsInv(s, steps[0]);
      AcquiresAreBounded(Apply(s, steps[0]), steps[1..], id);
    }
  }

  /** The sweep of worker/main.py passes this limit. */
  const WORKER_MAX_ATTEMPTS: nat := 3

  /** So the deployed worker runs a task at most twice on its own. */
  lemma WorkerRunsTaskAtMostTwice(s: State, steps: seq<Step>, id: TaskId)
    requires Init(s) && s.maxAttempts == WORKER_MAX_ATTEMPTS && IsRun(s, steps)
    ensures Acquires(s, steps, id) <= 2 + Retries(s, steps, id)
  {
    InitHasInv(s);
    AcquiresAreBounded(s, steps, id);
  }

  // ---------------------------------------------------------------- a decreasing measure

  /** An upper bound on the status changes still to come without a manual retry. */
  function ChangesLeft(t: Task, maxAttempts: nat): nat {
    var attemptsLeft := if t.attempt < maxAttempts then maxAttempts - t.attempt else 0;
    if Queued(t) then 2 + 2 * attemptsLeft
    else if t.status == Running then 1 + 2 * attemptsLeft
    else 0
  }

  lemma SweepChangesLeft(t: Task, maxAttempts: nat, now: Time)
    requires t.status == Running
    ensures ChangesLeft(RecoveredRow(t, maxAttempts, now), maxAttempts) < ChangesLeft(t, maxAttempts)
  {
    if t.attempt + 1 < maxAttempts {
      assert RecoveredRow(t, maxAttempts, now).status == RetryWaiting;
    }
  }

  /** Every status change but a manual retry strictly decreases the measure. */
  lemma StatusChangesTerminate(s: State, step: Step, id: TaskId)
    requires Inv(s) && Enabled(s, step) && id in s.db.tasks && id in Apply(s, step).db.tasks
    requires !RetriesTask(s, step, id)
    ensures var t, t' := s.db.tasks[id], Apply(s, step).db.tasks[id];
            && ChangesLeft(t', s.maxAttempts) <= ChangesLeft(t, s.maxAttempts)
            && (t'.status != t.status ==> ChangesLeft(t', s.maxAttempts) < ChangesLeft(t, s.maxAttempts))
  {
    hide Inv, Enabled, DbAfter, ControlAfter, RetriesTask;
    if step.SweepStep? {
      SweepStepChangesLeft(s, step, id);
    } else {
      InvIdsUsed(s);
      RowEvolves(s, step, id);
      OnlyRetryReopens(s, step, id);
      UnqueuedChange(s.db.tasks[id], Apply(s, step).db.tasks[id], s.maxAttempts);
    }
  }

  lemma SweepStepChangesLeft(s: State, step: Step, id: TaskId)
    requires Enabled(s, step) && step.SweepStep? && id in s.db.tasks
    ensures var t, t' := s.db.tasks[id], DbAfter(s, step).tasks[id];
            t' == t || ChangesLeft(t', s.maxAttempts) < ChangesLeft(t, s.maxAttempts)
  {
    hide ChangesLeft;
    if id in OrphansOf(s, step.locked, step.now) {
      SweepChangesLeft(s.db.tasks[id], s.maxAttempts, step.now);
    }
  }

  lemma UnqueuedChange(t: Task, t': Task, maxAttempts: nat)
    requires Evolves(t, t') && (t'.status != t.status ==> !Queued(t'))
    ensures ChangesLeft(t', maxAttempts) <= ChangesLeft(t, maxAttempts)
    ensures t'.status != t.status ==> ChangesLeft(t', maxAttempts) < ChangesLeft(t, maxAttempts)
  {
  }

  lemma OnlyRetryReopens(s: State, step: Step, id: TaskId)
    requires IdsUsed(s) && Enabled(s, step) && id in s.db.tasks && id in DbAfter(s, step).tasks
    requires !RetriesTask(s, step, id) && !step.SweepStep?
    ensures var t, t' := s.db.tasks[id], DbAfter(s, step).tasks[id];
            t'.status != t.status ==> !Queued(t')
  {
    hide Enqueue, FailedEvent, ClaimedEvent, ControlAfter, RecoveryBackoff;
  }

  // ---------------------------------------------------------------- event keys

  /** Recovery and manual retry always write an event key that was never used, so `enqueue` inserts
      and never returns an older row, in every reachable state. */
  lemma EnqueueAlwaysInserts(s: State, steps: seq<Step>, id: TaskId)
    requires Init(s) && IsRun(s, steps) && id in After(s, steps).db.tasks
    ensures var db := After(s, steps).db;
            && RecoveryKey(db, id) !in db.outbox
            && EventKey(id, Retry(db.tasks[id].retryCount + 1)) !in db.outbox
  {
    InitHasInv(s);
    RunKeepsInv(s, steps);
    RecoveryKeyIsFresh(After(s, steps).db, id);
    RetryKeyIsFresh(After(s, steps).db, id);
  }
}
