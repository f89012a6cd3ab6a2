/** The quota of active tasks: uploads and re-ingestions compare with it, manual retries do not.  This module
    says exactly which retries keep it. */
module UploadActive {
  import opened Options
  import opened TaskFsm
  import opened UploadProtocol
  import opened UploadSafety
  import opened UploadRuns

  // ---------------------------------------------------------------- what is still to come

  /** The most tasks that can be active right after an upload of `key` that has passed the comparison
      commits.  While the key is taken its commit fails, unless the key's document is deleted first. */
  function AfterUpload(tasks: seq<TaskRow>, key: Key): nat {
    match FindKey(tasks, key)
    case None => Active(tasks) + 1
    case Some(row) => Active(WithoutTasksOf(tasks, row.doc)) + 1
  }

  /** The thread has passed the comparison and has not committed yet. */
  predicate Passed(t: Thread) {
    match t
    case Uploading(_, _, phase) => phase.Cleared? || phase.Stored?
    case Reingesting(_, stage) => stage == Weighed
  }

  function AtCommit(t: Thread, tasks: seq<TaskRow>): nat {
    if !Passed(t) then Active(tasks)
    else if t.Uploading? then AfterUpload(tasks, t.key)
    else Active(tasks) + 1
  }

  /** The quota is kept now and by the commit of whoever has passed the comparison. */
  ghost predicate Safe(s: State, limits: Limits) {
    && Active(s.tasks) <= limits.maxActive
    && forall i | 0 <= i < |s.threads| :: AtCommit(s.threads[i], s.tasks) <= limits.maxActive
  }

  predicate IsManualRetry(step: Step) {
    step.MoveTask? && step.to == Pending
  }

  // ---------------------------------------------------------------- counting

  lemma {:induction false} ActiveAppend(tasks: seq<TaskRow>, row: TaskRow)
    ensures Active(tasks + [row]) == Active(tasks) + if IsActive(row.status) then 1 else 0
  {
    if tasks == [] {
      assert [row][1..] == [];
    } else {
      assert (tasks + [row])[1..] == tasks[1..] + [row];
      ActiveAppend(tasks[1..], row);
    }
  }

  /** The document of a task. */
  function DocOf(tasks: seq<TaskRow>, id: nat): Option<nat> {
    if tasks == [] then None
    else if tasks[0].id == id then Some(tasks[0].doc)
    else DocOf(tasks[1..], id)
  }

  /** A move counts among the tasks of the other documents, and not among those of its own. */
  lemma {:induction false} MovedActive(tasks: seq<TaskRow>, id: nat, to: TaskState, doc: nat)
    requires StatusOf(tasks, id).Some? && UsedEdge(StatusOf(tasks, id).value, to)
    ensures to != Pending ==>
      && Active(Moved(tasks, id, to)) <= Active(tasks)
      && Active(WithoutTasksOf(Moved(tasks, id, to), doc)) <= Active(WithoutTasksOf(tasks, doc))
    ensures to == Pending ==>
      && Active(Moved(tasks, id, to)) == Active(tasks) + 1
      && Active(WithoutTasksOf(Moved(tasks, id, to), doc))
         == Active(WithoutTasksOf(tasks, doc)) + if DocOf(tasks, id) == Some(doc) then 0 else 1
  {
    if tasks[0].id != id {
      MovedActive(tasks[1..], id, to, doc);
    }
  }

  lemma {:induction false} MovedFindsKey(tasks: seq<TaskRow>, id: nat, to: TaskState, key: Key)
    ensures FindKey(Moved(tasks, id, to), key).Some? <==> FindKey(tasks, key).Some?
    ensures FindKey(tasks, key).Some? ==> FindKey(Moved(tasks, id, to), key).value.doc == FindKey(tasks, key).value.doc
  {
    if tasks != [] && tasks[0].id != id {
      MovedFindsKey(tasks[1..], id, to, key);
    }
  }

  lemma {:induction false} CascadesCommute(tasks: seq<TaskRow>, a: nat, b: nat)
    ensures WithoutTasksOf(WithoutTasksOf(tasks, a), b) == WithoutTasksOf(WithoutTasksOf(tasks, b), a)
  {
    if tasks != [] {
      CascadesCommute(tasks[1..], a, b);
    }
  }

  /** A deletion brings nothing closer to the quota. */
  lemma DeletionAllowsNoMore(tasks: seq<TaskRow>, doc: nat, key: Key)
    requires Distinct(tasks)
    ensures AfterUpload(WithoutTasksOf(tasks, doc), key) <= AfterUpload(tasks, key)
  {
    var rest := WithoutTasksOf(tasks, doc);
    CascadeKeeps(tasks, doc);
    FoundRow(tasks, key);
    FoundRow(rest, key);
    if FindKey(tasks, key).Some? && FindKey(tasks, key).value.doc != doc {
      var row := FindKey(tasks, key).value;
      CascadesCommute(tasks, doc, row.doc);
      CascadeKeeps(WithoutTasksOf(tasks, row.doc), doc);
    }
  }

  lemma AtMostOneMore(tasks: seq<TaskRow>, key: Key)
    ensures AfterUpload(tasks, key) <= Active(tasks) + 1
  {
    if FindKey(tasks, key).Some? {
      CascadeKeeps(tasks, FindKey(tasks, key).value.doc);
    }
  }

  // ---------------------------------------------------------------- steps other than retries

  lemma FewerAtCommit(t: Thread, tasks: seq<TaskRow>, step: Step)
    requires Distinct(tasks)
    requires step.DeleteDocument? || (step.MoveTask? && step.to != Pending
               && StatusOf(tasks, step.id).Some? && UsedEdge(StatusOf(tasks, step.id).value, step.to))
    ensures var tasks' := if step.DeleteDocument? then WithoutTasksOf(tasks, step.doc) else Moved(tasks, step.id, step.to);
            Active(tasks') <= Active(tasks) && AtCommit(t, tasks') <= AtCommit(t, tasks)
  {
    hide Distinct, WithoutTasksOf, Moved, FindKey, Active, UsedEdge;
    if step.DeleteDocument? {
      CascadeKeeps(tasks, step.doc);
      if t.Uploading? {
        DeletionAllowsNoMore(tasks, step.doc, t.key);
      }
    } else {
      MovedActive(tasks, step.id, step.to, 0);
      if t.Uploading? {
        MovedFindsKey(tasks, step.id, step.to, t.key);
        if FindKey(tasks, t.key).Some? {
          MovedActive(tasks, step.id, step.to, FindKey(tasks, t.key).value.doc);
        }
      }
    }
  }

  lemma FewerStepKeepsSafe(s: State, step: Step, limits: Limits)
    requires Inv(s, limits) && Safe(s, limits) && Enabled(s, step) && !IsManualRetry(step)
    requires step.DeleteDocument? || step.MoveTask?
    ensures Safe(Apply(s, step, limits), limits)
  {
    hide AtCommit, Active, Distinct;
    var s' := Apply(s, step, limits);
    FewerAtCommit(Reingesting(0, Over), s.tasks, step);
    forall i | 0 <= i < |s'.threads|
      ensures AtCommit(s'.threads[i], s'.tasks) <= limits.maxActive
    {
      FewerAtCommit(s.threads[i], s.tasks, step);
    }
  }

  /** The commit of the lock holder: nobody else has passed. */
  lemma CommitKeepsSafe(s: State, s': State, i: nat, limits: Limits)
    requires Inv(s, limits) && Safe(s, limits) && i < |s.threads| && |s'.threads| == |s.threads|
    requires Passed(s.threads[i]) && Finished(s'.threads[i])
    requires Active(s'.tasks) <= limits.maxActive
    requires forall j | 0 <= j < |s.threads| && j != i :: s'.threads[j] == s.threads[j]
    ensures Safe(s', limits)
  {
    forall j | 0 <= j < |s'.threads|
      ensures AtCommit(s'.threads[j], s'.tasks) <= limits.maxActive
    {
      if j != i {
        hide Inv;
        OnlyHolderHasPassed(s, i, j, limits);
      }
    }
  }

  lemma OnlyHolderHasPassed(s: State, i: nat, j: nat, limits: Limits)
    requires Inv(s, limits) && i < |s.threads| && j < |s.threads| && i != j && Passed(s.threads[i])
    ensures !Passed(s.threads[j])
  {
    OthersAreOutside(s, i, j, limits);
  }

  lemma ThreadKeepsSafe(s: State, s': State, limits: Limits)
    requires Safe(s, limits) && s'.tasks == s.tasks
    requires forall j | 0 <= j < |s'.threads| ::
               || (j < |s.threads| && s'.threads[j] == s.threads[j])
               || AtCommit(s'.threads[j], s.tasks) <= limits.maxActive
    ensures Safe(s', limits)
  {
    hide AtCommit;
  }

  lemma StepKeepsSafe(s: State, step: Step, limits: Limits)
    requires Inv(s, limits) && Safe(s, limits) && Enabled(s, step) && !IsManualRetry(step)
    ensures Safe(Apply(s, step, limits), limits)
  {
    match step
    case DeleteDocument(_) => FewerStepKeepsSafe(s, step, limits);
    case MoveTask(_, _) => FewerStepKeepsSafe(s, step, limits);
    case CommitUpload(i) => UploadCommitKeepsSafe(s, i, limits);
    case CommitReingest(i) => ReingestCommitKeepsSafe(s, i, limits);
    case _ => QuietStepKeepsSafe(s, step, limits);
  }

  lemma UploadCommitKeepsSafe(s: State, i: nat, limits: Limits)
    requires Inv(s, limits) && Safe(s, limits) && Enabled(s, CommitUpload(i))
    ensures Safe(AfterCommit(s, i), limits)
  {
    hide Inv, Safe;
    SafeSays(s, i, limits);
    if FindKey(s.tasks, s.threads[i].key).None? {
      ActiveAppend(s.tasks, TaskRow(s.nextId, s.nextId, s.threads[i].key, Pending));
    }
    CommitKeepsSafe(s, AfterCommit(s, i), i, limits);
  }

  lemma ReingestCommitKeepsSafe(s: State, i: nat, limits: Limits)
    requires Inv(s, limits) && Safe(s, limits) && Enabled(s, CommitReingest(i))
    ensures Safe(AfterReingest(s, i), limits)
  {
    hide Inv, Safe;
    SafeSays(s, i, limits);
    ActiveAppend(s.tasks, TaskRow(s.nextId, s.threads[i].doc, Reingest(s.nextId), Pending));
    CommitKeepsSafe(s, AfterReingest(s, i), i, limits);
  }

  lemma SafeSays(s: State, i: nat, limits: Limits)
    requires Safe(s, limits) && i < |s.threads|
    ensures Active(s.tasks) <= limits.maxActive && AtCommit(s.threads[i], s.tasks) <= limits.maxActive
  {
  }

  lemma QuietStepKeepsSafe(s: State, step: Step, limits: Limits)
    requires Safe(s, limits) && Enabled(s, step)
    requires !step.DeleteDocument? && !step.MoveTask? && !step.CommitUpload? && !step.CommitReingest?
    ensures Safe(Apply(s, step, limits), limits)
  {
    hide FindKey, Active, WithoutTasksOf, Bytes, Safe, CheckIdempotent, Recalled, HasDoc;
    var s' := Apply(s, step, limits);
    forall j | 0 <= j < |s'.threads|
      ensures (j < |s.threads| && s'.threads[j] == s.threads[j]) || AtCommit(s'.threads[j], s.tasks) <= limits.maxActive
    {
      QuietThread(s, step, j, limits);
    }
    ThreadKeepsSafe(s, s', limits);
  }

  lemma QuietThread(s: State, step: Step, j: nat, limits: Limits)
    requires Safe(s, limits) && Enabled(s, step) && j < |Apply(s, step, limits).threads|
    requires !step.DeleteDocument? && !step.MoveTask? && !step.CommitUpload? && !step.CommitReingest?
    ensures var t := Apply(s, step, limits).threads[j];
            (j < |s.threads| && t == s.threads[j]) || AtCommit(t, s.tasks) <= limits.maxActive
  {
    hide FindKey, Active, WithoutTasksOf, Bytes, AfterUpload, CheckIdempotent, Recalled, HasDoc;
    if j < |s.threads| {
      SafeSays(s, j, limits);
      if s.threads[j].Uploading? {
        AtMostOneMore(s.tasks, s.threads[j].key);
      }
    }
  }

  // ---------------------------------------------------------------- retries

  /** A retried task counts at the commit to come, unless that commit can only succeed after the task's own
      document is deleted. */
  function Gain(t: Thread, tasks: seq<TaskRow>, id: nat): nat {
    if Passed(t) && t.Uploading? && FindKey(tasks, t.key).Some? && DocOf(tasks, id) == Some(FindKey(tasks, t.key).value.doc)
    then 0 else 1
  }

  /** The guard a retry lacks: there is room for its task, now and when whoever has passed the comparison
      commits. */
  ghost predicate RetryFits(s: State, id: nat, limits: Limits) {
    && Active(s.tasks) + 1 <= limits.maxActive
    && forall i | 0 <= i < |s.threads| :: AtCommit(s.threads[i], s.tasks) + Gain(s.threads[i], s.tasks, id) <= limits.maxActive
  }

  lemma RetryAtCommit(t: Thread, tasks: seq<TaskRow>, id: nat)
    requires StatusOf(tasks, id).Some? && UsedEdge(StatusOf(tasks, id).value, Pending)
    ensures Active(Moved(tasks, id, Pending)) == Active(tasks) + 1
    ensures AtCommit(t, Moved(tasks, id, Pending)) == AtCommit(t, tasks) + Gain(t, tasks, id)
  {
    hide FindKey, Active, Moved, WithoutTasksOf, StatusOf, UsedEdge;
    MovedActive(tasks, id, Pending, 0);
    if Passed(t) && t.Uploading? {
      MovedFindsKey(tasks, id, Pending, t.key);
      if FindKey(tasks, t.key).Some? {
        MovedActive(tasks, id, Pending, FindKey(tasks, t.key).value.doc);
      }
    }
  }

  lemma RetryExactly(s: State, id: nat, limits: Limits)
    requires Enabled(s, MoveTask(id, Pending))
    ensures Safe(Apply(s, MoveTask(id, Pending), limits), limits) <==> RetryFits(s, id, limits)
  {
    hide AtCommit, Gain, Active, Moved;
    RetryAtCommit(Reingesting(0, Over), s.tasks, id);
    forall i | 0 <= i < |s.threads|
      ensures AtCommit(s.threads[i], Moved(s.tasks, id, Pending))
           == AtCommit(s.threads[i], s.tasks) + Gain(s.threads[i], s.tasks, id)
    {
      RetryAtCommit(s.threads[i], s.tasks, id);
    }
  }

  /** While nobody has passed the comparison, as under the tenant lock, the guard is the comparison itself. */
  lemma GuardUnderTheLock(s: State, id: nat, limits: Limits)
    requires forall i | 0 <= i < |s.threads| :: !Passed(s.threads[i])
    ensures RetryFits(s, id, limits) <==> Active(s.tasks) + 1 <= limits.maxActive
  {
  }

  // ---------------------------------------------------------------- the quota over runs

  ghost predicate NoRetries(run: seq<Step>) {
    forall step | step in run :: !IsManualRetry(step)
  }

  /** Whatever happens but further retries, the quota is kept. */
  ghost predicate StaysWithin(s: State, limits: Limits) {
    forall run | IsRun(s, run, limits) && NoRetries(run) :: Active(After(s, run, limits).tasks) <= limits.maxActive
  }

  lemma {:induction false} SafeStaysWithin(s: State, run: seq<Step>, limits: Limits)
    requires Inv(s, limits) && Safe(s, limits) && IsRun(s, run, limits) && NoRetries(run)
    ensures Active(After(s, run, limits).tasks) <= limits.maxActive
    decreases |run|
  {
    hide Inv, Enabled, Apply, AtCommit;
    if run != [] {
      StepKeepsInv(s, run[0], limits);
      StepKeepsSafe(s, run[0], limits);
      SafeStaysWithin(Apply(s, run[0], limits), run[1..], limits);
    }
  }

  /** The re-ingestions that hold the document die, from thread `k` down. */
  lemma {:induction false} HoldersDie(s: State, doc: nat, i: nat, k: nat, limits: Limits) returns (run: seq<Step>, s': State)
    requires k <= |s.threads| && i < |s.threads| && s.threads[i].Uploading? && s.lock == Some(i)
    ensures Leads(s, run, s', limits) && NoRetries(run)
    ensures s'.docs == s.docs && s'.tasks == s.tasks && s'.nextId == s.nextId && s'.lock == s.lock
    ensures |s'.threads| == |s.threads| && s'.threads[i] == s.threads[i]
    ensures forall j | 0 <= j < k :: !Holds(s'.threads[j], doc)
  {
    hide Leads;
    if k == 0 {
      NoSteps(s, limits);
      run, s' := [], s;
    } else {
      var before, mid := HoldersDie(s, doc, i, k - 1, limits);
      run, s' := before, mid;
      if Holds(mid.threads[k - 1], doc) {
        var died := GoesOn(mid, k - 1, Over);
        assert Moves(mid, Die(k - 1), died, limits);
        LeadsOn(s, before, mid, Die(k - 1), died, limits);
        run, s' := before + [Die(k - 1)], died;
      }
    }
  }

  /** A free key: the commit that has passed overshoots. */
  lemma CommitOvershoots(s: State, i: nat, limits: Limits) returns (run: seq<Step>, s': State)
    requires i < |s.threads| && Passed(s.threads[i])
    requires s.threads[i].Uploading? ==> FindKey(s.tasks, s.threads[i].key).None?
    ensures Leads(s, run, s', limits) && NoRetries(run) && Active(s'.tasks) == Active(s.tasks) + 1
  {
    hide Leads, FindKey, Active;
    NoSteps(s, limits);
    if s.threads[i].Reingesting? {
      ActiveAppend(s.tasks, TaskRow(s.nextId, s.threads[i].doc, Reingest(s.nextId), Pending));
      s' := AfterReingest(s, i);
      assert Moves(s, CommitReingest(i), s', limits);
      LeadsOn(s, [], s, CommitReingest(i), s', limits);
      run := [] + [CommitReingest(i)];
    } else {
      run := [];
      var mid := s;
      if s.threads[i].phase.Cleared? {
        mid := Goes(s, i, Stored(s.threads[i].phase.prior));
        assert Moves(s, PutObject(i, true), mid, limits);
        LeadsOn(s, [], s, PutObject(i, true), mid, limits);
        run := [] + [PutObject(i, true)];
      }
      ActiveAppend(s.tasks, TaskRow(s.nextId, s.nextId, s.threads[i].key, Pending));
      s' := AfterCommit(mid, i);
      assert Moves(mid, CommitUpload(i), s', limits);
      LeadsOn(s, run, mid, CommitUpload(i), s', limits);
      run := run + [CommitUpload(i)];
    }
  }

  /** A taken key: the task that has it is deleted first. */
  lemma DeletionFreesKey(s: State, i: nat, limits: Limits) returns (run: seq<Step>, s': State)
    requires Inv(s, limits) && i < |s.threads| && Passed(s.threads[i]) && s.threads[i].Uploading?
    requires FindKey(s.tasks, s.threads[i].key).Some?
    ensures Leads(s, run, s', limits) && NoRetries(run)
    ensures i < |s'.threads| && s'.threads[i] == s.threads[i] && FindKey(s'.tasks, s.threads[i].key).None?
    ensures s'.tasks == WithoutTasksOf(s.tasks, FindKey(s.tasks, s.threads[i].key).value.doc)
  {
    hide Leads;
    assert ThreadOk(s, i, limits);
    var key := s.threads[i].key;
    FoundRow(s.tasks, key);
    var doc := FindKey(s.tasks, key).value.doc;
    var before, mid := HoldersDie(s, doc, i, |s.threads|, limits);
    CascadeKeeps(s.tasks, doc);
    FoundRow(WithoutTasksOf(s.tasks, doc), key);
    s' := mid.(docs := WithoutDoc(mid.docs, doc), tasks := WithoutTasksOf(mid.tasks, doc));
    assert Moves(mid, DeleteDocument(doc), s', limits);
    LeadsOn(s, before, mid, DeleteDocument(doc), s', limits);
    run := before + [DeleteDocument(doc)];
  }

  /** A state that is not safe leads beyond the quota without any further retry. */
  lemma UnsafeOvershoots(s: State, limits: Limits) returns (run: seq<Step>)
    requires Inv(s, limits) && !Safe(s, limits)
    ensures IsRun(s, run, limits) && NoRetries(run) && Active(After(s, run, limits).tasks) > limits.maxActive
  {
    hide Leads, Inv, FindKey, Active, WithoutTasksOf;
    var s';
    if Active(s.tasks) > limits.maxActive {
      NoSteps(s, limits);
      run, s' := [], s;
    } else {
      var i :| 0 <= i < |s.threads| && AtCommit(s.threads[i], s.tasks) > limits.maxActive;
      if s.threads[i].Uploading? && FindKey(s.tasks, s.threads[i].key).Some? {
        var before, mid := DeletionFreesKey(s, i, limits);
        var after;
        after, s' := CommitOvershoots(mid, i, limits);
        LeadsThrough(s, before, mid, after, s', limits);
        run := before + after;
      } else {
        run, s' := CommitOvershoots(s, i, limits);
      }
    }
    LeadsIs(s, run, s', limits);
  }

  /** The exact condition: from a reachable state on, the quota is kept whatever happens but further
      retries if and only if the state is safe. */
  lemma SafeIsExact(s: State, limits: Limits)
    requires Inv(s, limits)
    ensures Safe(s, limits) <==> StaysWithin(s, limits)
  {
    hide Inv, Safe;
    if Safe(s, limits) {
      forall run | IsRun(s, run, limits) && NoRetries(run)
        ensures Active(After(s, run, limits).tasks) <= limits.maxActive
      {
        SafeStaysWithin(s, run, limits);
      }
    } else {
      var run := UnsafeOvershoots(s, limits);
    }
  }

  /** So a retry keeps the quota, at once and later, if and only if it meets the guard. */
  lemma RetryKeepsQuotaExactly(s: State, id: nat, limits: Limits)
    requires Inv(s, limits) && Enabled(s, MoveTask(id, Pending))
    ensures StaysWithin(Apply(s, MoveTask(id, Pending), limits), limits) <==> RetryFits(s, id, limits)
  {
    hide Inv, Safe, StaysWithin, RetryFits, Enabled, Apply;
    StepKeepsInv(s, MoveTask(id, Pending), limits);
    SafeIsExact(Apply(s, MoveTask(id, Pending), limits), limits);
    RetryExactly(s, id, limits);
  }

  /** Every retry of the run meets the guard where it is made. */
  ghost predicate Guarded(s: State, run: seq<Step>, limits: Limits)
    requires IsRun(s, run, limits)
    decreases |run|
  {
    run == []
    || ((IsManualRetry(run[0]) ==> RetryFits(s, run[0].id, limits)) && Guarded(Apply(s, run[0], limits), run[1..], limits))
  }

  lemma {:induction false} GuardedRunKeepsSafe(s: State, run: seq<Step>, limits: Limits)
    requires Inv(s, limits) && Safe(s, limits) && IsRun(s, run, limits) && Guarded(s, run, limits)
    ensures Safe(After(s, run, limits), limits)
    decreases |run|
  {
    hide Inv, Safe, Enabled, Apply, RetryFits;
    if run != [] {
      StepKeepsInv(s, run[0], limits);
      if IsManualRetry(run[0]) {
        RetryExactly(s, run[0].id, limits);
      } else {
        StepKeepsSafe(s, run[0], limits);
      }
      GuardedRunKeepsSafe(Apply(s, run[0], limits), run[1..], limits);
    }
  }

  lemma EmptyIsSafe(limits: Limits)
    ensures Safe(EMPTY, limits)
  {
  }

  /** In every run in which the retries meet the guard the quota of active tasks is kept. */
  lemma ActiveQuotaWithGuard(run: seq<Step>, limits: Limits)
    requires IsRun(EMPTY, run, limits) && Guarded(EMPTY, run, limits)
    ensures Active(After(EMPTY, run, limits).tasks) <= limits.maxActive
  {
    hide Inv;
    EmptyInv(limits);
    EmptyIsSafe(limits);
    GuardedRunKeepsSafe(EMPTY, run, limits);
  }

  lemma {:induction false} NoRetriesIsGuarded(s: State, run: seq<Step>, limits: Limits)
    requires IsRun(s, run, limits) && NoRetries(run)
    ensures Guarded(s, run, limits)
    decreases |run|
  {
    hide Enabled, Apply;
    if run != [] {
      NoRetriesIsGuarded(Apply(s, run[0], limits), run[1..], limits);
    }
  }

  lemma ActiveQuotaWithoutRetry(run: seq<Step>, limits: Limits)
    requires IsRun(EMPTY, run, limits) && NoRetries(run)
    ensures Active(After(EMPTY, run, limits).tasks) <= limits.maxActive
  {
    NoRetriesIsGuarded(EMPTY, run, limits);
    ActiveQuotaWithGuard(run, limits);
  }

  /** And the first retry that does not meet it leads beyond the quota, at once or by what follows. */
  lemma UnguardedRetryOvershoots(run: seq<Step>, id: nat, limits: Limits) returns (more: seq<Step>)
    requires IsRun(EMPTY, run, limits) && Enabled(After(EMPTY, run, limits), MoveTask(id, Pending))
    requires !RetryFits(After(EMPTY, run, limits), id, limits)
    ensures NoRetries(more) && IsRun(EMPTY, run + [MoveTask(id, Pending)] + more, limits)
    ensures Active(After(EMPTY, run + [MoveTask(id, Pending)] + more, limits).tasks) > limits.maxActive
  {
    hide Inv, Safe, Enabled, Apply, RetryFits;
    EmptyInv(limits);
    RunKeepsInv(EMPTY, run, limits);
    var s, retry := After(EMPTY, run, limits), MoveTask(id, Pending);
    StepKeepsInv(s, retry, limits);
    RetryExactly(s, id, limits);
    more := UnsafeOvershoots(Apply(s, retry, limits), limits);
    ExtendRun(EMPTY, run, retry, limits);
    RunsCompose(EMPTY, run + [retry], more, limits);
  }
}
