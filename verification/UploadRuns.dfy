/** Uploads that nobody disturbs from a point on, and runs that show where the code does not do what its
    comments say. */
module UploadRuns {
  import opened Options
  import opened TaskFsm
  import opened UploadProtocol

  // ---------------------------------------------------------------- runs, step by step

  ghost predicate Moves(s: State, step: Step, s': State, limits: Limits) {
    Enabled(s, step) && Apply(s, step, limits) == s'
  }

  ghost predicate Leads(s: State, run: seq<Step>, s': State, limits: Limits) {
    IsRun(s, run, limits) && After(s, run, limits) == s'
  }

  lemma LeadsOn(s: State, run: seq<Step>, mid: State, step: Step, s': State, limits: Limits)
    requires Leads(s, run, mid, limits) && Moves(mid, step, s', limits)
    ensures Leads(s, run + [step], s', limits)
  {
    hide Enabled, Apply, IsRun, After;
    ExtendRun(s, run, step, limits);
  }

  lemma LeadsThrough(s: State, first: seq<Step>, mid: State, second: seq<Step>, s': State, limits: Limits)
    requires Leads(s, first, mid, limits) && Leads(mid, second, s', limits)
    ensures Leads(s, first + second, s', limits)
  {
    hide IsRun, After;
    RunsCompose(s, first, second, limits);
  }

  lemma NoSteps(s: State, limits: Limits)
    ensures Leads(s, [], s, limits)
  {
  }

  // ---------------------------------------------------------------- an upload on its own

  /** The upload is the last thread, in this phase. */
  function WithPhase(s: State, key: Key, size: nat, phase: Phase, lock: Option<nat>): State {
    s.(threads := s.threads + [Uploading(key, size, phase)], lock := lock)
  }

  /** The steps of an upload from its first check on. */
  function RemainingSteps(i: nat): seq<Step> {
    [LockTenant(i), Recheck(i), ReadStorage(i), ReadCount(i), ReadActive(i), PutObject(i, true), CommitUpload(i)]
  }

  function UploadSteps(key: Key, size: nat, i: nat): seq<Step> {
    [BeginUpload(key, size), PreCheck(i)] + RemainingSteps(i)
  }

  /** What they lead to: the upload, or the violated constraint and nothing else. */
  function Concluded(s: State, key: Key, size: nat): State {
    if FindKey(s.tasks, key).Some? then WithPhase(s, key, size, Done(UniqueViolation), None)
    else
      s.(docs := s.docs + [DocRow(s.nextId, size)],
         tasks := s.tasks + [TaskRow(s.nextId, s.nextId, key, Pending)],
         nextId := s.nextId + 1,
         threads := s.threads + [Uploading(key, size, Done(Created(s.nextId)))])
  }

  /** The check lets the upload through. */
  predicate LetsThrough(found: Option<TaskRow>) {
    found.None? || CheckIdempotent(found).PreviousFailed?
  }

  function IdOf(found: Option<TaskRow>): Option<nat> {
    if found.Some? then Some(found.value.id) else None
  }

  lemma UntilChecked(s: State, key: Key, size: nat, limits: Limits)
    requires key.Fingerprint? && s.lock == None && LetsThrough(FindKey(s.tasks, key))
    ensures Moves(s, BeginUpload(key, size), WithPhase(s, key, size, Begun, None), limits)
    ensures Moves(WithPhase(s, key, size, Begun, None), PreCheck(|s.threads|),
                  WithPhase(s, key, size, Checked(FindKey(s.tasks, key)), None), limits)
  {
    hide FindKey;
  }

  lemma UntilRechecked(s: State, key: Key, size: nat, seen: Option<TaskRow>, limits: Limits)
    requires s.lock == None && LetsThrough(Recalled(FindKey(s.tasks, key), seen))
    ensures var i, prior := |s.threads|, IdOf(FindKey(s.tasks, key));
            && Moves(WithPhase(s, key, size, Checked(seen), None), LockTenant(i),
                     WithPhase(s, key, size, Locked(seen), Some(i)), limits)
            && Moves(WithPhase(s, key, size, Locked(seen), Some(i)), Recheck(i),
                     WithPhase(s, key, size, Rechecked(prior), Some(i)), limits)
  {
    hide FindKey;
  }

  lemma UntilCleared(s: State, key: Key, size: nat, prior: Option<nat>, limits: Limits)
    requires size <= limits.maxFile && Bytes(s.docs) + size <= limits.maxStorage
    requires |s.docs| < limits.maxDocuments && Active(s.tasks) < limits.maxActive
    ensures var i, used, count := |s.threads|, Bytes(s.docs), |s.docs|;
            && Moves(WithPhase(s, key, size, Rechecked(prior), Some(i)), ReadStorage(i),
                     WithPhase(s, key, size, Summed(prior, used), Some(i)), limits)
            && Moves(WithPhase(s, key, size, Summed(prior, used), Some(i)), ReadCount(i),
                     WithPhase(s, key, size, Counted(prior, used, count), Some(i)), limits)
            && Moves(WithPhase(s, key, size, Counted(prior, used, count), Some(i)), ReadActive(i),
                     WithPhase(s, key, size, Cleared(prior), Some(i)), limits)
  {
    hide Bytes, Active;
  }

  lemma UntilDone(s: State, key: Key, size: nat, prior: Option<nat>, limits: Limits)
    requires s.lock == None
    ensures var i := |s.threads|;
            && Moves(WithPhase(s, key, size, Cleared(prior), Some(i)), PutObject(i, true),
                     WithPhase(s, key, size, Stored(prior), Some(i)), limits)
            && Moves(WithPhase(s, key, size, Stored(prior), Some(i)), CommitUpload(i), Concluded(s, key, size), limits)
  {
    hide FindKey;
  }

  /** From the first check on, with the lock free and room in the quotas. */
  lemma FromChecked(s: State, key: Key, size: nat, seen: Option<TaskRow>, limits: Limits)
    requires s.lock == None && LetsThrough(Recalled(FindKey(s.tasks, key), seen))
    requires size <= limits.maxFile && Bytes(s.docs) + size <= limits.maxStorage
    requires |s.docs| < limits.maxDocuments && Active(s.tasks) < limits.maxActive
    ensures Leads(WithPhase(s, key, size, Checked(seen), None), RemainingSteps(|s.threads|), Concluded(s, key, size), limits)
  {
    hide Moves, Leads, WithPhase, FindKey, Bytes, Active, Concluded, LetsThrough;
    var i, used, count, prior := |s.threads|, Bytes(s.docs), |s.docs|, IdOf(FindKey(s.tasks, key));
    UntilRechecked(s, key, size, seen, limits);
    UntilCleared(s, key, size, prior, limits);
    UntilDone(s, key, size, prior, limits);
    var s0, s1 := WithPhase(s, key, size, Checked(seen), None), WithPhase(s, key, size, Locked(seen), Some(i));
    var s2 := WithPhase(s, key, size, Rechecked(prior), Some(i));
    var s3 := WithPhase(s, key, size, Summed(prior, used), Some(i));
    var s4 := WithPhase(s, key, size, Counted(prior, used, count), Some(i));
    var s5, s6 := WithPhase(s, key, size, Cleared(prior), Some(i)), WithPhase(s, key, size, Stored(prior), Some(i));
    var run := RemainingSteps(i);
    NoSteps(s0, limits);
    LeadsOn(s0, [], s0, run[0], s1, limits);
    LeadsOn(s0, [] + [run[0]], s1, run[1], s2, limits);
    LeadsOn(s0, [] + [run[0]] + [run[1]], s2, run[2], s3, limits);
    var summed := [] + [run[0]] + [run[1]] + [run[2]];
    LeadsOn(s0, summed, s3, run[3], s4, limits);
    LeadsOn(s0, summed + [run[3]], s4, run[4], s5, limits);
    LeadsOn(s0, summed + [run[3]] + [run[4]], s5, run[5], s6, limits);
    var stored := summed + [run[3]] + [run[4]] + [run[5]];
    LeadsOn(s0, stored, s6, run[6], Concluded(s, key, size), limits);
    assert stored + [run[6]] == run;
  }

  /** From the beginning. */
  lemma FromScratch(s: State, key: Key, size: nat, limits: Limits)
    requires key.Fingerprint? && s.lock == None && LetsThrough(FindKey(s.tasks, key))
    requires size <= limits.maxFile && Bytes(s.docs) + size <= limits.maxStorage
    requires |s.docs| < limits.maxDocuments && Active(s.tasks) < limits.maxActive
    ensures Leads(s, UploadSteps(key, size, |s.threads|), Concluded(s, key, size), limits)
  {
    hide Moves, Leads, WithPhase, FindKey, Bytes, Active, Concluded, LetsThrough;
    var i, seen := |s.threads|, FindKey(s.tasks, key);
    var begun, checked := WithPhase(s, key, size, Begun, None), WithPhase(s, key, size, Checked(seen), None);
    UntilChecked(s, key, size, limits);
    NoSteps(s, limits);
    LeadsOn(s, [], s, BeginUpload(key, size), begun, limits);
    LeadsOn(s, [] + [BeginUpload(key, size)], begun, PreCheck(i), checked, limits);
    FromChecked(s, key, size, seen, limits);
    LeadsThrough(s, [] + [BeginUpload(key, size)] + [PreCheck(i)], checked, RemainingSteps(i), Concluded(s, key, size), limits);
    assert [] + [BeginUpload(key, size)] + [PreCheck(i)] + RemainingSteps(i) == UploadSteps(key, size, i);
  }

  /** An upload that nobody disturbs, with room in the quotas: it is created if its key is free; after a
      failed or cancelled task of the key it is rejected, although both checks let it through. */
  lemma UploadAlone(s: State, key: Key, size: nat, limits: Limits)
    requires key.Fingerprint? && s.lock == None && LetsThrough(FindKey(s.tasks, key))
    requires size <= limits.maxFile && Bytes(s.docs) + size <= limits.maxStorage
    requires |s.docs| < limits.maxDocuments && Active(s.tasks) < limits.maxActive
    ensures var run, i := UploadSteps(key, size, |s.threads|), |s.threads|;
            && IsRun(s, run, limits)
            && var s' := After(s, run, limits);
               && i < |s'.threads|
               && s'.threads[i] == Uploading(key, size, Done(if FindKey(s.tasks, key).None? then Created(s.nextId)
                                                             else UniqueViolation))
               && (FindKey(s.tasks, key).None? ==>
                     && s'.docs == s.docs + [DocRow(s.nextId, size)]
                     && s'.tasks == s.tasks + [TaskRow(s.nextId, s.nextId, key, Pending)])
               && (FindKey(s.tasks, key).Some? ==> s'.docs == s.docs && s'.tasks == s.tasks)
  {
    hide IsRun, After, UploadSteps, FindKey;
    FromScratch(s, key, size, limits);
  }

  /** The limit that an upload meets first, in the order of the comparisons. */
  predicate FirstMet(refusal: Refusal, size: nat, used: nat, count: nat, active: nat, limits: Limits) {
    match refusal
    case FileTooLarge => size > limits.maxFile
    case StorageFull => size <= limits.maxFile && used + size > limits.maxStorage
    case TooManyDocuments =>
      size <= limits.maxFile && used + size <= limits.maxStorage && count >= limits.maxDocuments
    case TooManyTasks =>
      && size <= limits.maxFile && used + size <= limits.maxStorage && count < limits.maxDocuments
      && active >= limits.maxActive
  }

  function RefusedSteps(key: Key, size: nat, i: nat): seq<Step> {
    [BeginUpload(key, size), PreCheck(i), LockTenant(i), Recheck(i), ReadStorage(i), ReadCount(i), ReadActive(i)]
  }

  lemma UntilRefused(s: State, key: Key, size: nat, prior: Option<nat>, refusal: Refusal, limits: Limits)
    requires s.lock == None && FirstMet(refusal, size, Bytes(s.docs), |s.docs|, Active(s.tasks), limits)
    ensures var i, used, count := |s.threads|, Bytes(s.docs), |s.docs|;
            && Moves(WithPhase(s, key, size, Rechecked(prior), Some(i)), ReadStorage(i),
                     WithPhase(s, key, size, Summed(prior, used), Some(i)), limits)
            && Moves(WithPhase(s, key, size, Summed(prior, used), Some(i)), ReadCount(i),
                     WithPhase(s, key, size, Counted(prior, used, count), Some(i)), limits)
            && Moves(WithPhase(s, key, size, Counted(prior, used, count), Some(i)), ReadActive(i),
                     WithPhase(s, key, size, Done(Refused(refusal)), None), limits)
  {
    hide Bytes, Active;
  }

  /** An upload that nobody disturbs, without room in some quota: it is refused by the first limit it meets,
      and the tables and the lock are as before. */
  lemma RefusedAlone(s: State, key: Key, size: nat, refusal: Refusal, limits: Limits)
    requires key.Fingerprint? && s.lock == None && LetsThrough(FindKey(s.tasks, key))
    requires FirstMet(refusal, size, Bytes(s.docs), |s.docs|, Active(s.tasks), limits)
    ensures IsRun(s, RefusedSteps(key, size, |s.threads|), limits)
    ensures After(s, RefusedSteps(key, size, |s.threads|), limits)
         == s.(threads := s.threads + [Uploading(key, size, Done(Refused(refusal)))])
  {
    hide Moves, Leads, WithPhase, FindKey, Bytes, Active, LetsThrough, FirstMet;
    var i, used, count, seen := |s.threads|, Bytes(s.docs), |s.docs|, FindKey(s.tasks, key);
    var prior := IdOf(seen);
    UntilChecked(s, key, size, limits);
    RecalledSame(seen);
    UntilRechecked(s, key, size, seen, limits);
    UntilRefused(s, key, size, prior, refusal, limits);
    var run := RefusedSteps(key, size, i);
    var s1, s2 := WithPhase(s, key, size, Begun, None), WithPhase(s, key, size, Checked(seen), None);
    var s3, s4 := WithPhase(s, key, size, Locked(seen), Some(i)), WithPhase(s, key, size, Rechecked(prior), Some(i));
    var s5 := WithPhase(s, key, size, Summed(prior, used), Some(i));
    var s6 := WithPhase(s, key, size, Counted(prior, used, count), Some(i));
    var s7 := WithPhase(s, key, size, Done(Refused(refusal)), None);
    NoSteps(s, limits);
    LeadsOn(s, [], s, run[0], s1, limits);
    LeadsOn(s, [] + [run[0]], s1, run[1], s2, limits);
    LeadsOn(s, [] + [run[0]] + [run[1]], s2, run[2], s3, limits);
    var locked := [] + [run[0]] + [run[1]] + [run[2]];
    LeadsOn(s, locked, s3, run[3], s4, limits);
    LeadsOn(s, locked + [run[3]], s4, run[4], s5, limits);
    LeadsOn(s, locked + [run[3]] + [run[4]], s5, run[5], s6, limits);
    LeadsOn(s, locked + [run[3]] + [run[4]] + [run[5]], s6, run[6], s7, limits);
    assert locked + [run[3]] + [run[4]] + [run[5]] + [run[6]] == run;
    LeadsIs(s, run, s7, limits);
    Unlocked(s, key, size, Done(Refused(refusal)));
  }

  lemma RecalledSame(found: Option<TaskRow>)
    ensures Recalled(found, found) == found
  {
  }

  lemma Unlocked(s: State, key: Key, size: nat, phase: Phase)
    requires s.lock == None
    ensures WithPhase(s, key, size, phase, None) == s.(threads := s.threads + [Uploading(key, size, phase)])
  {
  }

  // ---------------------------------------------------------------- runs from the empty state

  lemma MoveFirst(s: State, row: TaskRow, rest: seq<TaskRow>, to: TaskState, limits: Limits)
    requires s.tasks == [row] + rest && UsedEdge(row.status, to)
    ensures Moves(s, MoveTask(row.id, to), s.(tasks := [row.(status := to)] + rest), limits)
  {
    assert s.tasks[1..] == rest;
  }

  lemma FirstRow(row: TaskRow, rest: seq<TaskRow>, key: Key)
    ensures Active([row] + rest) == (if IsActive(row.status) then 1 else 0) + Active(rest)
    ensures row.key != key ==> FindKey([row] + rest, key) == FindKey(rest, key)
    ensures row.key == key ==> FindKey([row] + rest, key) == Some(row)
  {
    assert ([row] + rest)[1..] == rest;
  }

  lemma Edges()
    ensures UsedEdge(Pending, Running) && UsedEdge(Running, Failed) && UsedEdge(Failed, Pending)
  {
  }

  /** One document of one byte with one task, and the upload that created them. */
  function OneTask(key: Key, status: TaskState): State {
    State([DocRow(0, 1)], [TaskRow(0, 0, key, status)] + [], 1, None, [Uploading(key, 1, Done(Created(0)))])
  }

  function FailedSteps(key: Key): seq<Step> {
    UploadSteps(key, 1, 0) + [MoveTask(0, Running)] + [MoveTask(0, Failed)]
  }

  /** An upload whose task fails. */
  lemma FailedUpload(key: Key, limits: Limits)
    requires key.Fingerprint? && limits.maxFile >= 1 && limits.maxStorage >= 1
    requires limits.maxDocuments >= 1 && limits.maxActive >= 1
    ensures Leads(EMPTY, FailedSteps(key), OneTask(key, Failed), limits)
  {
    hide Moves, Leads, UploadSteps, UsedEdge;
    Edges();
    FromScratch(EMPTY, key, 1, limits);
    assert Concluded(EMPTY, key, 1) == OneTask(key, Pending);
    var run, row := UploadSteps(key, 1, 0), TaskRow(0, 0, key, Pending);
    MoveFirst(OneTask(key, Pending), row, [], Running, limits);
    LeadsOn(EMPTY, run, OneTask(key, Pending), MoveTask(0, Running), OneTask(key, Running), limits);
    MoveFirst(OneTask(key, Running), row.(status := Running), [], Failed, limits);
    LeadsOn(EMPTY, run + [MoveTask(0, Running)], OneTask(key, Running), MoveTask(0, Failed), OneTask(key, Failed), limits);
  }

  /** What the checks and quotas find beside one task. */
  lemma OneTaskFacts(key: Key, status: TaskState, other: Key)
    ensures var s := OneTask(key, status);
            && FindKey(s.tasks, key) == Some(TaskRow(0, 0, key, status))
            && (other != key ==> FindKey(s.tasks, other).None?)
            && Bytes(s.docs) == 1 && |s.docs| == 1
            && Active(s.tasks) == (if IsActive(status) then 1 else 0)
  {
    var s := OneTask(key, status);
    FirstRow(TaskRow(0, 0, key, status), [], key);
    FirstRow(TaskRow(0, 0, key, status), [], other);
    assert s.docs[1..] == [];
  }

  /** Re-uploading after a failure: both checks let the upload through, and the commit is rejected. */
  lemma ReuploadIsRejected(key: Key) returns (run: seq<Step>, limits: Limits)
    requires key.Fingerprint?
    ensures IsRun(EMPTY, run, limits)
    ensures var s := After(EMPTY, run, limits);
            && |s.threads| == 2 && s.threads[1] == Uploading(key, 1, Done(UniqueViolation))
            && s.tasks == [TaskRow(0, 0, key, Failed)]
  {
    hide Leads, UploadSteps, FailedSteps, FindKey, Bytes, Active;
    limits := Limits(10, 100, 10, 10);
    var failed := OneTask(key, Failed);
    FailedUpload(key, limits);
    OneTaskFacts(key, Failed, key);
    FromScratch(failed, key, 1, limits);
    run := FailedSteps(key) + UploadSteps(key, 1, 1);
    LeadsThrough(EMPTY, FailedSteps(key), failed, UploadSteps(key, 1, 1), Concluded(failed, key, 1), limits);
    LeadsIs(EMPTY, run, Concluded(failed, key, 1), limits);
  }

  lemma LeadsIs(s: State, run: seq<Step>, s': State, limits: Limits)
    requires Leads(s, run, s', limits)
    ensures IsRun(s, run, limits) && After(s, run, limits) == s'
  {
  }

  /** A re-upload whose first check sees the failure and whose second check comes after a manual retry: its
      twin is in flight, and it is rejected all the same. */
  lemma StaleCheckRejectsTwin(key: Key) returns (run: seq<Step>, limits: Limits)
    requires key.Fingerprint?
    ensures IsRun(EMPTY, run, limits)
    ensures var s := After(EMPTY, run, limits);
            && |s.threads| == 2 && s.threads[1] == Uploading(key, 1, Done(UniqueViolation))
            && s.tasks == [TaskRow(0, 0, key, Pending)]
  {
    hide Leads, Moves, FailedSteps, UploadSteps, RemainingSteps, FindKey, Bytes, Active, UsedEdge;
    limits := Limits(10, 100, 10, 10);
    var failed, retried := OneTask(key, Failed), OneTask(key, Pending);
    var row := TaskRow(0, 0, key, Failed);
    var begun, checked := WithPhase(failed, key, 1, Begun, None), WithPhase(failed, key, 1, Checked(Some(row)), None);
    FailedUpload(key, limits);
    OneTaskFacts(key, Failed, key);
    UntilChecked(failed, key, 1, limits);
    run := FailedSteps(key);
    LeadsOn(EMPTY, run, failed, BeginUpload(key, 1), begun, limits);
    run := run + [BeginUpload(key, 1)];
    LeadsOn(EMPTY, run, begun, PreCheck(1), checked, limits);
    run := run + [PreCheck(1)];
    Edges();
    MoveFirst(checked, row, [], Pending, limits);
    LeadsOn(EMPTY, run, checked, MoveTask(0, Pending), WithPhase(retried, key, 1, Checked(Some(row)), None), limits);
    run := run + [MoveTask(0, Pending)];
    OneTaskFacts(key, Pending, key);
    FromChecked(retried, key, 1, Some(row), limits);
    LeadsThrough(EMPTY, run, WithPhase(retried, key, 1, Checked(Some(row)), None), RemainingSteps(1),
                 Concluded(retried, key, 1), limits);
    run := run + RemainingSteps(1);
    LeadsIs(EMPTY, run, Concluded(retried, key, 1), limits);
  }

  /** A manual retry exceeds the quota of active tasks: a task fails, another upload takes its place, and
      the failed one is retried. */
  lemma RetryOvershootsActiveQuota(a: Key, b: Key) returns (run: seq<Step>, limits: Limits)
    requires a.Fingerprint? && b.Fingerprint? && a != b
    ensures limits.maxActive == 1 && IsRun(EMPTY, run, limits)
    ensures Active(After(EMPTY, run, limits).tasks) == 2
  {
    hide Leads, Moves, FailedSteps, UploadSteps, FindKey, Bytes, UsedEdge;
    limits := Limits(10, 100, 10, 1);
    var failed, rowA, rowB := OneTask(a, Failed), TaskRow(0, 0, a, Failed), TaskRow(1, 1, b, Pending);
    FailedUpload(a, limits);
    OneTaskFacts(a, Failed, b);
    FromScratch(failed, b, 1, limits);
    run := FailedSteps(a) + UploadSteps(b, 1, 1);
    var both := Concluded(failed, b, 1);
    LeadsThrough(EMPTY, FailedSteps(a), failed, UploadSteps(b, 1, 1), both, limits);
    assert both.tasks == [rowA] + [rowB];
    Edges();
    MoveFirst(both, rowA, [rowB], Pending, limits);
    var retried := both.(tasks := [rowA.(status := Pending)] + [rowB]);
    LeadsOn(EMPTY, run, both, MoveTask(0, Pending), retried, limits);
    run := run + [MoveTask(0, Pending)];
    LeadsIs(EMPTY, run, retried, limits);
    FirstRow(rowA.(status := Pending), [rowB], a);
    FirstRow(rowB, [], a);
    assert [rowB] + [] == [rowB];
  }
}
