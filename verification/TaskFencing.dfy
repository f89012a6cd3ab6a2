/** Fencing tokens over whole runs: a worker that lost its lease is harmless for ever. */
module TaskFencing {
  import opened TaskFsm
  import opened TaskRows
  import opened TaskProtocol
  import opened TaskInvariant
  import opened TaskSteps
  import opened TaskDelivery

  predicate Final(status: TaskState) {
    status == Succeeded || status == PartialSucceeded || status == Cancelled
  }

  /** What any number of commits may do to a row. */
  predicate Descends(t: Task, t': Task) {
    && t.token <= t'.token && t.attempt <= t'.attempt && t.retryCount <= t'.retryCount
    && (t'.token == t.token && t.status != Running ==> t'.status != Running)
    && (Final(t.status) ==> t'.status == t.status)
  }

  lemma RowEvolves(s: State, step: Step, id: TaskId)
    requires Inv(s) && Enabled(s, step)
    requires id in s.db.tasks && id in Apply(s, step).db.tasks
    ensures Evolves(s.db.tasks[id], Apply(s, step).db.tasks[id])
  {
    StepKeepsDb(s, step);
  }

  lemma EvolvesDescends(t: Task, t': Task, t'': Task)
    requires Evolves(t, t') && Descends(t', t'')
    ensures Descends(t, t'')
  {
  }

  /** Task ids are never reused, so a deleted row does not come back. */
  lemma {:induction false} GoneStaysGone(s: State, steps: seq<Step>, id: TaskId)
    requires Inv(s) && IsRun(s, steps) && id in s.usedTasks && id !in s.db.tasks
    ensures id !in After(s, steps).db.tasks
    decreases |steps|
  {
    if steps != [] {
      GoneStaysGoneStep(s, steps[0], id);
      StepKeepsInv(s, steps[0]);
      GoneStaysGone(Apply(s, steps[0]), steps[1..], id);
    }
  }

  lemma GoneStaysGoneStep(s: State, step: Step, id: TaskId)
    requires Inv(s) && Enabled(s, step) && id in s.usedTasks && id !in s.db.tasks
    ensures id !in Apply(s, step).db.tasks && id in Apply(s, step).usedTasks
  {
    NoOtherDocs(s, step);
  }

  /** Tokens, attempts and retry counts never decrease, and final states are never left, in any run. */
  lemma {:induction false} RowsDescend(s: State, steps: seq<Step>, id: TaskId)
    requires Inv(s) && IsRun(s, steps)
    requires id in s.db.tasks && id in After(s, steps).db.tasks
    ensures Descends(s.db.tasks[id], After(s, steps).db.tasks[id])
    decreases |steps|
  {
    hide Inv, Enabled, Apply, Evolves, Descends;
    if steps == [] {
      DescendsFromItself(s.db.tasks[id]);
    } else {
      var s1 := Apply(s, steps[0]);
      StepKeepsInv(s, steps[0]);
      if id in s1.db.tasks {
        RowEvolves(s, steps[0], id);
        RowsDescend(s1, steps[1..], id);
        EvolvesDescends(s.db.tasks[id], s1.db.tasks[id], After(s, steps).db.tasks[id]);
      } else {
        assert IdsUsed(s) by { InvIdsUsed(s); }
        IdRemembered(s, steps[0], id);
        GoneStaysGone(s1, steps[1..], id);
      }
    }
  }

  lemma DescendsFromItself(t: Task)
    ensures Descends(t, t)
  {
  }

  lemma InvIdsUsed(s: State)
    requires Inv(s)
    ensures IdsUsed(s)
  {
  }

  lemma IdRemembered(s: State, step: Step, id: TaskId)
    requires IdsUsed(s) && Enabled(s, step) && id in s.db.tasks
    ensures id in Apply(s, step).usedTasks
  {
    TimeAndIdsGrow(s, step);
  }

  // ---------------------------------------------------------------- holders

  predicate Holds(s: State, i: nat) {
    i < |s.sessions| && (s.sessions[i].phase.Owning? || s.sessions[i].phase.Raising?)
  }

  function HeldBy(s: State, i: nat): Holding
    requires Holds(s, i)
  {
    s.sessions[i].phase.held
  }

  /** The lease of this holder has been taken over, or it has already finalised. */
  predicate Fenced(db: Db, h: Holding) {
    h.task in db.tasks ==>
      db.tasks[h.task].token > h.token
      || (db.tasks[h.task].token == h.token && db.tasks[h.task].status != Running)
  }

  /** Everything a worker writes while it believes it holds the lease. */
  predicate IsHolderWrite(step: Step, i: nat) {
    || (step.HeartbeatStep? && step.i == i)
    || (step.ProgressStep? && step.i == i)
    || (step.CompleteStep? && step.i == i)
    || (step.FailStep? && step.i == i)
    || (step.DocMissingStep? && step.i == i)
  }

  lemma FencedWritesNothing(s: State, i: nat, write: Step)
    requires Holds(s, i) && Fenced(s.db, HeldBy(s, i))
    requires IsHolderWrite(write, i) && Enabled(s, write)
    ensures DbAfter(s, write) == s.db
  {
  }

  lemma HoldingKept(s: State, step: Step, i: nat)
    requires Enabled(s, step) && i < |s.sessions| && !s.sessions[i].phase.Delivered?
    ensures var s' := Apply(s, step);
            && i < |s'.sessions| && !s'.sessions[i].phase.Delivered?
            && (Holds(s', i) ==> Holds(s, i) && HeldBy(s', i) == HeldBy(s, i))
  {
  }

  lemma {:induction false} HoldingKeptInRun(s: State, steps: seq<Step>, i: nat)
    requires IsRun(s, steps) && i < |s.sessions| && !s.sessions[i].phase.Delivered?
    ensures var s' := After(s, steps);
            Holds(s', i) ==> Holds(s, i) && HeldBy(s', i) == HeldBy(s, i)
    decreases |steps|
  {
    hide Enabled, Apply;
    if steps != [] {
      HoldingKept(s, steps[0], i);
      HoldingKeptInRun(Apply(s, steps[0]), steps[1..], i);
    }
  }

  lemma FencedForEver(s: State, steps: seq<Step>, h: Holding)
    requires Inv(s) && IsRun(s, steps) && h.task in s.usedTasks && Fenced(s.db, h)
    ensures Fenced(After(s, steps).db, h)
  {
    if h.task in After(s, steps).db.tasks {
      if h.task in s.db.tasks {
        RowsDescend(s, steps, h.task);
      } else {
        GoneStaysGone(s, steps, h.task);
      }
    }
  }

  /** Recovery, a manual retry, another acquire, or the holder's own final write. */
  predicate TakesAway(s: State, step: Step, id: TaskId)
    requires Enabled(s, step)
  {
    id in s.db.tasks && id in DbAfter(s, step).tasks
    && (|| DbAfter(s, step).tasks[id].token != s.db.tasks[id].token
        || DbAfter(s, step).tasks[id].status != Running)
  }

  /** Fencing.  Once some commit has taken the task away from session `i`, then in every later state
      of every run each write of that session leaves every row as it is. */
  lemma StaleWorkerIsHarmless(s: State, before: seq<Step>, takeover: Step, after: seq<Step>, i: nat, write: Step)
    requires Init(s) && IsRun(s, before + [takeover] + after)
    requires IsRun(s, before) && Enabled(After(s, before), takeover)
    requires Holds(After(s, before), i)
    requires TakesAway(After(s, before), takeover, HeldBy(After(s, before), i).task)
    requires IsHolderWrite(write, i) && Enabled(After(s, before + [takeover] + after), write)
    ensures var s' := After(s, before + [takeover] + after);
            DbAfter(s', write) == s'.db
  {
    hide Inv, Apply, DbAfter, Enabled, IsHolderWrite, Fenced, TakesAway;
    var s1 := After(s, before);
    var h := HeldBy(s1, i);
    InitHasInv(s);
    RunKeepsInv(s, before);
    assert before + [takeover] + after == before + ([takeover] + after);
    RunPrefix(s, before, [takeover] + after);
    assert ([takeover] + after)[1..] == after;
    var s2 := Apply(s1, takeover);
    TakeoverFences(s1, takeover, i);
    StepKeepsInv(s1, takeover);
    FencedForEver(s2, after, h);
    HoldingKept(s1, takeover, i);
    HoldingKeptInRun(s2, after, i);
    WriterHolds(After(s2, after), i, write);
    FencedWritesNothing(After(s2, after), i, write);
  }

  lemma WriterHolds(s: State, i: nat, write: Step)
    requires IsHolderWrite(write, i) && Enabled(s, write)
    ensures Holds(s, i)
  {
  }

  lemma TakeoverFences(s: State, step: Step, i: nat)
    requires Inv(s) && Enabled(s, step) && Holds(s, i) && TakesAway(s, step, HeldBy(s, i).task)
    ensures Fenced(Apply(s, step).db, HeldBy(s, i)) && HeldBy(s, i).task in Apply(s, step).usedTasks
  {
    assert SessionOk(s, s.sessions[i]);
    RowEvolves(s, step, HeldBy(s, i).task);
    TimeAndIdsGrow(s, step);
  }

  // ---------------------------------------------------------------- tokens are handed out once

  predicate AcquiresTask(s: State, step: Step, id: TaskId) {
    && step.AcquireStep? && Enabled(s, step)
    && s.sessions[step.i].event.task == id
    && CanAcquire(s.db, id, step.now)
  }

  /** No two acquires of a task in a run return the same token. */
  lemma AcquiredTokensGrow(s: State, first: Step, between: seq<Step>, second: Step, id: TaskId)
    requires Inv(s) && AcquiresTask(s, first, id)
    requires IsRun(Apply(s, first), between)
    requires AcquiresTask(After(Apply(s, first), between), second, id)
    ensures var t1 := Apply(s, first).db.tasks[id];
            var t2 := Apply(After(Apply(s, first), between), second).db.tasks[id];
            t1.token < t2.token
  {
    StepKeepsInv(s, first);
    RowsDescend(Apply(s, first), between, id);
  }

  ghost predicate HoldersDistinct(s: State) {
    forall i, j | 0 <= i < j < |s.sessions| && Holds(s, i) && Holds(s, j) ::
      HeldBy(s, i).task == HeldBy(s, j).task ==> HeldBy(s, i).token != HeldBy(s, j).token
  }

  lemma HoldersDistinctStep(s: State, step: Step)
    requires Inv(s) && HoldersDistinct(s) && Enabled(s, step)
    ensures HoldersDistinct(Apply(s, step))
  {
    hide Apply, ControlAfter, DbAfter;
    var s' := Apply(s, step);
    forall i, j | 0 <= i < j < |s'.sessions| && Holds(s', i) && Holds(s', j)
                  && HeldBy(s', i).task == HeldBy(s', j).task
      ensures HeldBy(s', i).token != HeldBy(s', j).token
    {
      HolderIsOldOrNew(s, step, i);
      HolderIsOldOrNew(s, step, j);
      if Holds(s, i) {
        assert SessionOk(s, s.sessions[i]);
      }
      if Holds(s, j) {
        assert SessionOk(s, s.sessions[j]);
      }
    }
  }

  lemma HolderIsOldOrNew(s: State, step: Step, i: nat)
    requires Enabled(s, step) && Holds(Apply(s, step), i)
    ensures var h := HeldBy(Apply(s, step), i);
            || (Holds(s, i) && HeldBy(s, i) == h)
            || (step.AcquireStep? && step.i == i && AcquiresTask(s, step, h.task)
                && h.token == s.db.tasks[h.task].token + 1)
  {
  }

  lemma {:induction false} HoldersDistinctInRun(s: State, steps: seq<Step>)
    requires Inv(s) && HoldersDistinct(s) && IsRun(s, steps)
    ensures HoldersDistinct(After(s, steps))
    decreases |steps|
  {
    hide Inv, Enabled, Apply, HoldersDistinct;
    if steps != [] {
      HoldersDistinctStep(s, steps[0]);
      StepKeepsInv(s, steps[0]);
      HoldersDistinctInRun(Apply(s, steps[0]), steps[1..]);
    }
  }

  /** Mutual exclusion: in every reachable state at most one session can write to a task, even when
      several worker processes share one worker id. */
  lemma AtMostOneOwner(s: State, steps: seq<Step>, i: nat, j: nat)
    requires Init(s) && IsRun(s, steps)
    requires var s' := After(s, steps);
             && Holds(s', i) && Holds(s', j) && HeldBy(s', i).task == HeldBy(s', j).task
             && Owns(s'.db, HeldBy(s', i).task, s'.sessions[i].worker, HeldBy(s', i).token)
             && Owns(s'.db, HeldBy(s', j).task, s'.sessions[j].worker, HeldBy(s', j).token)
    ensures i == j
  {
    InitHasInv(s);
    HoldersDistinctInRun(s, steps);
  }

  // ---------------------------------------------------------------- the state machine of a row

  /** Every status change in any run follows a used edge of the transition table. */
  lemma StatusFollowsTable(s: State, steps: seq<Step>, step: Step, id: TaskId)
    requires Init(s) && IsRun(s, steps) && Enabled(After(s, steps), step)
    requires id in After(s, steps).db.tasks && id in Apply(After(s, steps), step).db.tasks
    ensures var from := After(s, steps).db.tasks[id].status;
            var to := Apply(After(s, steps), step).db.tasks[id].status;
            || from == to
            || ValidateTransition(from, to) == Legal
            || (from == Running && to == DeadLetter && step.SweepStep?)
            || (from == DeadLetter && to == Pending && step.RetryStep?)
  {
    InitHasInv(s);
    RunKeepsInv(s, steps);
    RowEvolves(After(s, steps), step, id);
    var from := After(s, steps).db.tasks[id].status;
    var to := Apply(After(s, steps), step).db.tasks[id].status;
    if from != to {
      UsedEdgesOutsideTable(from, to);
      OnlySweepBuries(After(s, steps), step, id);
    }
  }

  lemma OnlySweepBuries(s: State, step: Step, id: TaskId)
    requires Enabled(s, step) && id in s.db.tasks && id in Apply(s, step).db.tasks
    ensures var from, to := s.db.tasks[id].status, Apply(s, step).db.tasks[id].status;
            && (from != to && to == DeadLetter ==> step.SweepStep?)
            && (from == DeadLetter && to == Pending ==> step.RetryStep? || step.UploadStep? || step.ReingestStep?)
  {
    hide Enqueue, FailedEvent, ClaimedEvent, ControlAfter, RecoveryBackoff;
  }

  /** SUCCEEDED, PARTIAL_SUCCEEDED and CANCELLED are never left. */
  lemma FinalStatesAreFinal(s: State, before: seq<Step>, after: seq<Step>, id: TaskId)
    requires Init(s) && IsRun(s, before) && IsRun(After(s, before), after)
    requires id in After(s, before).db.tasks && id in After(After(s, before), after).db.tasks
    requires Final(After(s, before).db.tasks[id].status)
    ensures After(After(s, before), after).db.tasks[id].status == After(s, before).db.tasks[id].status
  {
    InitHasInv(s);
    RunKeepsInv(s, before);
    RowsDescend(After(s, before), after, id);
  }
}
