/** Deadlines: a worker that keeps beating keeps its task. */
module TaskTiming {
  import opened Options
  import opened TaskFsm
  import opened TaskRows
  import opened TaskProtocol
  import opened TaskInvariant
  import opened TaskSteps
  import opened TaskDelivery
  import opened TaskFencing

  // ---------------------------------------------------------------- live workers

  /** The holder still owns its row, under a lease that ends at `deadline`. */
  predicate LeasedUntil(s: State, i: nat, deadline: Time) {
    IsOwning(s, i) ==>
      var h := s.sessions[i].phase.held;
      h.task in s.db.tasks ==>
        && Owns(s.db, h.task, s.sessions[i].worker, h.token)
        && s.db.tasks[h.task].lease == Some(deadline)
  }

  /** The promise made by the last beat of session `i`. */
  function NextDeadline(step: Step, i: nat, deadline: Time): Time {
    if step.HeartbeatStep? && step.i == i then step.now + HEARTBEAT_LEASE else deadline
  }

  /** Every beat of session `i` commits before the previous promise runs out: the first within the 60
      seconds of the acquire, every later one within 30 seconds of the beat before it. */
  ghost predicate BeatsInTime(s: State, steps: seq<Step>, i: nat, deadline: Time)
    requires IsRun(s, steps)
    decreases |steps|
  {
    s.clock <= deadline
    && (steps == [] || BeatsInTime(Apply(s, steps[0]), steps[1..], i, NextDeadline(steps[0], i, deadline)))
  }

  ghost function LastDeadline(steps: seq<Step>, i: nat, deadline: Time): Time {
    if steps == [] then deadline else LastDeadline(steps[1..], i, NextDeadline(steps[0], i, deadline))
  }

  /** A write by a session that does not own the row changes no row. */
  lemma OthersWriteNothing(s: State, step: Step, i: nat)
    requires Enabled(s, step) && HoldersDistinct(s) && IsOwning(s, i)
    requires step.HeartbeatStep? || step.ProgressStep? || step.CompleteStep? || step.FailStep? || step.DocMissingStep?
    requires step.i != i
    requires var h := s.sessions[i].phase.held; Owns(s.db, h.task, s.sessions[i].worker, h.token)
    ensures s.sessions[i].phase.held.task in DbAfter(s, step).tasks
    ensures DbAfter(s, step).tasks[s.sessions[i].phase.held.task] == s.db.tasks[s.sessions[i].phase.held.task]
  {
    assert Holds(s, i) && Holds(s, step.i);
    if step.i < i {
      assert HeldBy(s, step.i).task == HeldBy(s, i).task ==> HeldBy(s, step.i).token != HeldBy(s, i).token;
    } else {
      assert HeldBy(s, i).task == HeldBy(s, step.i).task ==> HeldBy(s, i).token != HeldBy(s, step.i).token;
    }
  }

  /** A step of anyone else, before the deadline, leaves an owned row as it is. */
  lemma BystandersLeaveOwnedRow(s: State, step: Step, i: nat, deadline: Time)
    requires Enabled(s, step) && IsOwning(s, i) && LeasedUntil(s, i, deadline) && s.clock <= deadline
    requires IdsUsed(s) && s.sessions[i].phase.held.task in DbAfter(s, step).tasks
    requires s.sessions[i].phase.held.task in s.db.tasks
    requires !(step.HeartbeatStep? || step.ProgressStep? || step.CompleteStep? || step.FailStep? || step.DocMissingStep?)
    ensures DbAfter(s, step).tasks[s.sessions[i].phase.held.task] == s.db.tasks[s.sessions[i].phase.held.task]
  {
  }

  lemma OwnStepKeepsLease(s: State, step: Step, i: nat, deadline: Time)
    requires Enabled(s, step) && IsOwning(s, i) && LeasedUntil(s, i, deadline)
    requires s.sessions[i].phase.held.task in s.db.tasks
    requires step.HeartbeatStep? || step.ProgressStep? || step.CompleteStep? || step.FailStep? || step.DocMissingStep?
    requires step.i == i
    ensures LeasedUntil(Apply(s, step), i, NextDeadline(step, i, deadline))
  {
  }

  lemma OwningKept(s: State, step: Step, i: nat)
    requires Enabled(s, step) && i < |s.sessions| && !s.sessions[i].phase.Delivered?
    requires IsOwning(Apply(s, step), i)
    ensures IsOwning(s, i) && Apply(s, step).sessions[i] == s.sessions[i]
  {
  }

  lemma LiveWorkerStep(s: State, step: Step, i: nat, deadline: Time)
    requires Inv(s) && HoldersDistinct(s) && Enabled(s, step) && s.clock <= deadline
    requires i < |s.sessions| && !s.sessions[i].phase.Delivered? && LeasedUntil(s, i, deadline)
    ensures LeasedUntil(Apply(s, step), i, NextDeadline(step, i, deadline))
  {
    var s' := Apply(s, step);
    if IsOwning(s', i) {
      OwningKept(s, step, i);
      var h := s.sessions[i].phase.held;
      if h.task in s'.db.tasks {
        HolderTaskIsOld(s, step, i);
        if step.HeartbeatStep? || step.ProgressStep? || step.CompleteStep? || step.FailStep? || step.DocMissingStep? {
          if step.i == i {
            OwnStepKeepsLease(s, step, i, deadline);
          } else {
            OthersWriteNothing(s, step, i);
          }
        } else {
          InvIdsUsed(s);
          BystandersLeaveOwnedRow(s, step, i, deadline);
        }
      }
    }
  }

  lemma HolderTaskIsOld(s: State, step: Step, i: nat)
    requires Inv(s) && Enabled(s, step) && IsOwning(s, i)
    requires s.sessions[i].phase.held.task in Apply(s, step).db.tasks
    ensures s.sessions[i].phase.held.task in s.db.tasks
  {
    assert SessionOk(s, s.sessions[i]);
    NoOtherDocs(s, step);
  }

  /** Live workers keep their task.  While session `i` is processing and beats in time, no sweep (and
      nobody else) touches its row: it stays RUNNING under the session's own token, in every state of
      the run, unless the document is deleted. */
  lemma {:induction false} LiveWorkerKeepsTask(s: State, steps: seq<Step>, i: nat, deadline: Time)
    requires Inv(s) && HoldersDistinct(s) && IsRun(s, steps)
    requires i < |s.sessions| && !s.sessions[i].phase.Delivered? && LeasedUntil(s, i, deadline)
    requires BeatsInTime(s, steps, i, deadline)
    ensures LeasedUntil(After(s, steps), i, LastDeadline(steps, i, deadline))
    decreases |steps|
  {
    hide Inv, Enabled, Apply, HoldersDistinct, LeasedUntil;
    if steps != [] {
      LiveWorkerStep(s, steps[0], i, deadline);
      StepKeepsInv(s, steps[0]);
      HoldersDistinctStep(s, steps[0]);
      HoldingKept(s, steps[0], i);
      LiveWorkerKeepsTask(Apply(s, steps[0]), steps[1..], i, NextDeadline(steps[0], i, deadline));
    }
  }

  /** The acquire itself makes the first promise: 60 seconds from the clock reading it stored. */
  lemma AcquireStartsLease(s: State, i: nat, now: Time)
    requires Inv(s) && Enabled(s, AcquireStep(i, now)) && CanAcquire(s.db, s.sessions[i].event.task, now)
    ensures var s' := Apply(s, AcquireStep(i, now));
            && IsOwning(s', i)
            && s'.sessions[i].phase.held.task == s.sessions[i].event.task
            && LeasedUntil(s', i, now + ACQUIRE_LEASE)
  {
  }

  /** From the acquire on: at the end of every run in which the worker is still processing and has
      always beaten in time, the task (if its document still exists) is RUNNING under its token. */
  lemma LiveWorkerFromAcquire(s: State, before: seq<Step>, i: nat, now: Time, during: seq<Step>)
    requires Init(s) && IsRun(s, before) && Enabled(After(s, before), AcquireStep(i, now))
    requires CanAcquire(After(s, before).db, After(s, before).sessions[i].event.task, now)
    requires IsRun(Apply(After(s, before), AcquireStep(i, now)), during)
    requires BeatsInTime(Apply(After(s, before), AcquireStep(i, now)), during, i, now + ACQUIRE_LEASE)
    requires IsOwning(After(Apply(After(s, before), AcquireStep(i, now)), during), i)
    ensures var s' := After(Apply(After(s, before), AcquireStep(i, now)), during);
            var h := s'.sessions[i].phase.held;
            h.task in s'.db.tasks ==> Owns(s'.db, h.task, s'.sessions[i].worker, h.token)
  {
    hide Inv, Enabled, Apply, HoldersDistinct;
    InitHasInv(s);
    InitHasDistinctHolders(s);
    RunKeepsInv(s, before);
    HoldersDistinctInRun(s, before);
    var s1 := After(s, before);
    var acquire := AcquireStep(i, now);
    AcquireStartsLease(s1, i, now);
    StepKeepsInv(s1, acquire);
    HoldersDistinctStep(s1, acquire);
    LiveWorkerKeepsTask(Apply(s1, acquire), during, i, now + ACQUIRE_LEASE);
  }

  /** Only beats move the lease of a task that stays RUNNING. */
  lemma OnlyBeatsMoveLease(s: State, step: Step, id: TaskId)
    requires IdsUsed(s) && Enabled(s, step) && !step.HeartbeatStep?
    requires id in s.db.tasks && id in DbAfter(s, step).tasks
    requires s.db.tasks[id].status == Running && DbAfter(s, step).tasks[id].status == Running
    ensures DbAfter(s, step).tasks[id].lease == s.db.tasks[id].lease
  {
    hide Enqueue, FailedEvent, ClaimedEvent, ControlAfter, RecoveryBackoff;
  }

  /** While a task stays RUNNING its lease moves to an earlier end in exactly one case: its owner beats with
      a clock reading more than 30 seconds before that end. */
  lemma LeaseShrinksExactly(s: State, step: Step, id: TaskId)
    requires Inv(s) && Enabled(s, step) && id in s.db.tasks && id in DbAfter(s, step).tasks
    requires s.db.tasks[id].status == Running && DbAfter(s, step).tasks[id].status == Running
    ensures var t, t' := s.db.tasks[id], DbAfter(s, step).tasks[id];
            && t.lease.Some? && t'.lease.Some?
            && (t'.lease.value < t.lease.value <==>
                  && step.HeartbeatStep? && s.sessions[step.i].phase.held.task == id
                  && Owns(s.db, id, s.sessions[step.i].worker, s.sessions[step.i].phase.held.token)
                  && step.now + HEARTBEAT_LEASE < t.lease.value)
  {
    RunningHasLease(s, id);
    InvIdsUsed(s);
    hide Inv;
    if !step.HeartbeatStep? {
      OnlyBeatsMoveLease(s, step, id);
      hide DbAfter;
    }
  }

  lemma RunningHasLease(s: State, id: TaskId)
    requires Inv(s) && id in s.db.tasks && s.db.tasks[id].status == Running
    ensures s.db.tasks[id].lease.Some?
  {
    assert RowOk(s.db.tasks[id]);
  }

  lemma InitHasDistinctHolders(s: State)
    requires Init(s)
    ensures HoldersDistinct(s)
  {
  }
}
