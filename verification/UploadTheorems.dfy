/** What the upload protocol promises, and where it does not keep what the code says about it. */
module UploadTheorems {
  import opened Options
  import opened TaskFsm
  import opened UploadProtocol
  import opened UploadSafety

  // ---------------------------------------------------------------- quotas and keys

  /** However uploads, deletions and everything else interleave, every document, the stored bytes and the
      number of documents stay within the tenant's quotas. */
  lemma QuotasHold(run: seq<Step>, limits: Limits)
    requires IsRun(EMPTY, run, limits)
    ensures var s := After(EMPTY, run, limits);
            && Bytes(s.docs) <= limits.maxStorage && |s.docs| <= limits.maxDocuments
            && forall row | row in s.docs :: row.size <= limits.maxFile
  {
    EmptyInv(limits);
    RunKeepsInv(EMPTY, run, limits);
  }

  lemma {:induction false} DistinctByIndex(tasks: seq<TaskRow>, i: nat, j: nat)
    requires Distinct(tasks) && i < j < |tasks|
    ensures tasks[i].key != tasks[j].key && tasks[i].id != tasks[j].id
    decreases |tasks|
  {
    if i == 0 {
      assert tasks[j] == tasks[1..][j - 1];
    } else {
      DistinctByIndex(tasks[1..], i - 1, j - 1);
    }
  }

  lemma OneTaskPerKey(run: seq<Step>, limits: Limits, i: nat, j: nat)
    requires IsRun(EMPTY, run, limits) && i < j < |After(EMPTY, run, limits).tasks|
    ensures After(EMPTY, run, limits).tasks[i].key != After(EMPTY, run, limits).tasks[j].key
  {
    EmptyInv(limits);
    RunKeepsInv(EMPTY, run, limits);
    DistinctByIndex(After(EMPTY, run, limits).tasks, i, j);
  }

  /** Two uploads of the same file never both end up with a task of their own. */
  lemma NoDoubleUpload(run: seq<Step>, limits: Limits, i: nat, j: nat, a: TaskRow, b: TaskRow)
    requires IsRun(EMPTY, run, limits)
    requires var s := After(EMPTY, run, limits);
             && i < j < |s.threads| && a in s.tasks && b in s.tasks
             && CreatedTask(s.threads[i], a.id) && CreatedTask(s.threads[j], b.id)
    ensures After(EMPTY, run, limits).threads[i].key != After(EMPTY, run, limits).threads[j].key
  {
    EmptyInv(limits);
    RunKeepsInv(EMPTY, run, limits);
    var s := After(EMPTY, run, limits);
    assert ThreadOk(s, i, limits) && ThreadOk(s, j, limits);
    if a.key == b.key {
      UniqueRow(s.tasks, a, b);
    }
  }

  predicate HasTwin(row: TaskRow) {
    row.status != Failed && row.status != DeadLetter && row.status != Cancelled
  }

  /** The first check answers with the twin exactly when the twin is in flight or has completed. */
  lemma PreCheckFindsTwin(s: State, i: nat, row: TaskRow, limits: Limits)
    requires Inv(s, limits) && Enabled(s, PreCheck(i)) && row in s.tasks && row.key == s.threads[i].key
    ensures Apply(s, PreCheck(i), limits).threads[i].phase
         == if HasTwin(row) then Done(Twin(row.id)) else Checked(Some(row))
  {
    FoundRow(s.tasks, row.key);
  }

  /** So does the second one, unless the first one has seen the same task as failed or cancelled: the
      session then goes by what it saw, whatever the task has become since. */
  lemma RecheckFindsTwin(s: State, i: nat, row: TaskRow, limits: Limits)
    requires Inv(s, limits) && Enabled(s, Recheck(i)) && row in s.tasks && row.key == s.threads[i].key
    ensures var seen := s.threads[i].phase.seen;
            var stale := seen.Some? && seen.value.id == row.id;
            Apply(s, Recheck(i), limits).threads[i].phase
            == if HasTwin(row) && !stale then Done(Twin(row.id)) else Rechecked(Some(row.id))
  {
    assert ThreadOk(s, i, limits);
    FoundRow(s.tasks, row.key);
  }

  /** Re-uploading after a failure.  The check lets the upload through, but the unique constraint then
      rejects its commit: it succeeds if and only if the failed task is gone. */
  lemma CommitOutcome(s: State, i: nat, limits: Limits)
    requires Inv(s, limits) && Enabled(s, CommitUpload(i))
    ensures var prior := s.threads[i].phase.prior;
            var t := AfterCommit(s, i).threads[i];
            && (t.phase == Done(Created(s.nextId))
                <==> prior.None? || forall row | row in s.tasks :: row.id != prior.value)
            && (t.phase == Done(Created(s.nextId)) || t.phase == Done(UniqueViolation))
  {
    assert ThreadOk(s, i, limits);
    FindKeyIs(s.tasks, s.threads[i].key);
  }

  ghost predicate TakenBy(tasks: seq<TaskRow>, key: Key, doc: nat) {
    exists row :: row in tasks && row.key == key && row.doc == doc
  }

  lemma {:induction false} MovedKnows(tasks: seq<TaskRow>, id: nat, to: TaskState, row: TaskRow)
    requires row in tasks
    ensures exists r :: r in Moved(tasks, id, to) && r.key == row.key && r.doc == row.doc
  {
    if tasks[0] == row {
      assert (if row.id == id then row.(status := to) else row) in Moved(tasks, id, to);
    } else if tasks[0].id == id {
      assert row in Moved(tasks, id, to);
    } else {
      MovedKnows(tasks[1..], id, to, row);
    }
  }

  lemma TakenStep(s: State, step: Step, key: Key, doc: nat, limits: Limits)
    requires Enabled(s, step) && TakenBy(s.tasks, key, doc) && step != DeleteDocument(doc)
    ensures TakenBy(Apply(s, step, limits).tasks, key, doc)
  {
    var row :| row in s.tasks && row.key == key && row.doc == doc;
    match step
    case DeleteDocument(other) => CascadeKeeps(s.tasks, other);
    case MoveTask(id, to) => MovedKnows(s.tasks, id, to, row);
    case _ => assert row in Apply(s, step, limits).tasks;
  }

  lemma CreationNeedsFreeKey(s: State, step: Step, i: nat, key: Key, limits: Limits)
    requires Enabled(s, step) && FindKey(s.tasks, key).Some?
    requires var t := Apply(s, step, limits).threads;
             i < |t| && t[i].Uploading? && t[i].key == key && t[i].phase.Done? && t[i].phase.outcome.Created?
    ensures i < |s.threads| && s.threads[i] == Apply(s, step, limits).threads[i]
  {
  }

  /** While a key's task exists, in whatever state, no upload creates another one. */
  lemma {:induction false} NoSecondCreation(s: State, run: seq<Step>, key: Key, doc: nat, i: nat, limits: Limits)
    requires IsRun(s, run, limits) && TakenBy(s.tasks, key, doc) && DeleteDocument(doc) !in run
    requires var t := After(s, run, limits).threads;
             i < |t| && t[i].Uploading? && t[i].key == key && t[i].phase.Done? && t[i].phase.outcome.Created?
    ensures i < |s.threads| && s.threads[i] == After(s, run, limits).threads[i]
    decreases |run|
  {
    hide Enabled, Apply;
    if run != [] {
      TakenStep(s, run[0], key, doc, limits);
      NoSecondCreation(Apply(s, run[0], limits), run[1..], key, doc, i, limits);
      FindKeyIs(s.tasks, key);
      CreationNeedsFreeKey(s, run[0], i, key, limits);
    }
  }

  // ---------------------------------------------------------------- the comparisons

  /** Under the lock an upload is let through if and only if it meets all four limits; otherwise it is refused
      by the first one it does not meet, and its transaction ends.  The bytes and the number of documents it
      goes by are no smaller than those of the table. */
  lemma ComparedExactly(s: State, i: nat, limits: Limits)
    requires Inv(s, limits) && Enabled(s, ReadActive(i))
    ensures var Uploading(_, size, Counted(prior, used, count)) := s.threads[i];
            var s' := Apply(s, ReadActive(i), limits);
            && Bytes(s.docs) <= used && |s.docs| <= count
            && (s'.threads[i].phase == Cleared(prior) <==>
                  && size <= limits.maxFile && used + size <= limits.maxStorage
                  && count < limits.maxDocuments && Active(s.tasks) < limits.maxActive)
            && (size > limits.maxFile ==> s'.threads[i].phase == Done(Refused(FileTooLarge)))
            && (size <= limits.maxFile && used + size > limits.maxStorage ==>
                  s'.threads[i].phase == Done(Refused(StorageFull)))
            && (size <= limits.maxFile && used + size <= limits.maxStorage && count >= limits.maxDocuments ==>
                  s'.threads[i].phase == Done(Refused(TooManyDocuments)))
            && (size <= limits.maxFile && used + size <= limits.maxStorage && count < limits.maxDocuments
                && Active(s.tasks) >= limits.maxActive ==>
                  s'.threads[i].phase == Done(Refused(TooManyTasks)))
            && s'.docs == s.docs && s'.tasks == s.tasks
            && (s'.threads[i].phase.Done? ==> s'.lock == None)
  {
    hide Bytes, Active;
    assert ThreadOk(s, i, limits);
  }

  /** A re-ingestion is let through if and only if it meets the limit of active tasks. */
  lemma WeighedExactly(s: State, i: nat, limits: Limits)
    requires Enabled(s, WeighReingest(i))
    ensures var s' := Apply(s, WeighReingest(i), limits);
            && s'.threads[i].stage == (if Active(s.tasks) < limits.maxActive then Weighed else Over)
            && s'.docs == s.docs && s'.tasks == s.tasks
  {
    hide Active;
  }

  /** Deleting a document takes its row and its tasks, and nothing else. */
  lemma DeletionTakesExactly(s: State, doc: nat, limits: Limits)
    requires Enabled(s, DeleteDocument(doc))
    ensures var s' := Apply(s, DeleteDocument(doc), limits);
            && (forall d :: d in s'.docs <==> d in s.docs && d.id != doc)
            && (forall row :: row in s'.tasks <==> row in s.tasks && row.doc != doc)
            && Bytes(s'.docs) + BytesOf(s.docs, doc) == Bytes(s.docs)
  {
    DocsWithout(s.docs, doc);
    CascadeKeeps(s.tasks, doc);
  }

  /** The bytes of the rows with this id. */
  function BytesOf(docs: seq<DocRow>, doc: nat): nat {
    if docs == [] then 0 else (if docs[0].id == doc then docs[0].size else 0) + BytesOf(docs[1..], doc)
  }

  lemma {:induction false} DocsWithout(docs: seq<DocRow>, doc: nat)
    ensures forall d :: d in WithoutDoc(docs, doc) <==> d in docs && d.id != doc
    ensures Bytes(WithoutDoc(docs, doc)) + BytesOf(docs, doc) == Bytes(docs)
  {
    if docs != [] {
      DocsWithout(docs[1..], doc);
    }
  }

  /** What counts against the quota of active tasks. */
  lemma {:induction false} ActiveCounts(tasks: seq<TaskRow>, row: TaskRow)
    ensures Active(tasks + [row]) ==
              Active(tasks) + if row.status in {Pending, Running, RetryWaiting} then 1 else 0
    ensures Active([]) == 0
  {
    if tasks == [] {
      assert [row][1..] == [];
    } else {
      assert (tasks + [row])[1..] == tasks[1..] + [row];
      ActiveCounts(tasks[1..], row);
    }
  }

  // ---------------------------------------------------------------- the lock

  /** The tenant lock is only held by a transaction that is not over. */
  ghost predicate LockIsLive(s: State) {
    s.lock.Some? ==> s.lock.value < |s.threads| && HoldsLock(s.threads[s.lock.value])
  }

  lemma StepKeepsLockLive(s: State, step: Step, limits: Limits)
    requires Enabled(s, step) && LockIsLive(s)
    ensures LockIsLive(Apply(s, step, limits))
  {
    hide FindKey, Bytes, Active, WithoutDoc, WithoutTasksOf, Moved, HasDoc, Refuses, CheckIdempotent;
  }

  lemma {:induction false} RunKeepsLockLive(s: State, run: seq<Step>, limits: Limits)
    requires IsRun(s, run, limits) && LockIsLive(s)
    ensures LockIsLive(After(s, run, limits))
    decreases |run|
  {
    hide Enabled, Apply, LockIsLive;
    if run != [] {
      StepKeepsLockLive(s, run[0], limits);
      RunKeepsLockLive(Apply(s, run[0], limits), run[1..], limits);
    }
  }

  /** What a lock holder does next. */
  function NextStep(t: Thread, i: nat): Step
    requires HoldsLock(t)
  {
    match t
    case Uploading(_, _, phase) =>
      (match phase
       case Locked(_) => Recheck(i)
       case Rechecked(_) => ReadStorage(i)
       case Summed(_, _) => ReadCount(i)
       case Counted(_, _, _) => ReadActive(i)
       case Cleared(_) => PutObject(i, true)
       case _ => CommitUpload(i))
    case Reingesting(_, stage) => if stage == TenantLocked then WeighReingest(i) else CommitReingest(i)
  }

  /** Nobody waits for a dead transaction: if the lock is taken, its holder can go on by itself. */
  lemma LockHolderCanGoOn(run: seq<Step>, limits: Limits)
    requires IsRun(EMPTY, run, limits) && After(EMPTY, run, limits).lock.Some?
    ensures var s := After(EMPTY, run, limits);
            var i := s.lock.value;
            && i < |s.threads| && HoldsLock(s.threads[i]) && Enabled(s, NextStep(s.threads[i], i))
            && (forall j | 0 <= j < |s.threads| && HoldsLock(s.threads[j]) :: j == i)
  {
    EmptyInv(limits);
    RunKeepsInv(EMPTY, run, limits);
    RunKeepsLockLive(EMPTY, run, limits);
    var s := After(EMPTY, run, limits);
    forall j | 0 <= j < |s.threads| && HoldsLock(s.threads[j])
      ensures j == s.lock.value
    {
      assert ThreadOk(s, j, limits);
    }
  }
}
