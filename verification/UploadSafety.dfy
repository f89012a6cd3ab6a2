/** What every interleaving of uploads, re-ingestions, deletions and task updates of a tenant keeps. */
module UploadSafety {
  import opened Options
  import opened TaskFsm
  import opened UploadProtocol

  // ---------------------------------------------------------------- rows

  ghost predicate Differs(tasks: seq<TaskRow>, row: TaskRow) {
    forall r | r in tasks :: r.key != row.key && r.id != row.id
  }

  /** No two rows share their key or their id. */
  ghost predicate Distinct(tasks: seq<TaskRow>) {
    tasks == [] || (Differs(tasks[1..], tasks[0]) && Distinct(tasks[1..]))
  }

  /** The row, perhaps in another state. */
  ghost predicate Known(tasks: seq<TaskRow>, row: TaskRow) {
    exists r :: r in tasks && r.id == row.id && r.doc == row.doc && r.key == row.key
  }

  /** The row with this key, if there is any, is `prior`. */
  ghost predicate OnlyPrior(tasks: seq<TaskRow>, key: Key, prior: Option<nat>) {
    forall row | row in tasks :: row.key == key <==> prior == Some(row.id)
  }

  ghost predicate TasksOk(docs: seq<DocRow>, tasks: seq<TaskRow>, nextId: nat) {
    forall row | row in tasks ::
      && row.id < nextId && HasDoc(docs, row.doc)
      && (row.key.Reingest? ==> row.key.task == row.id)
  }

  lemma {:induction false} FindKeyIs(tasks: seq<TaskRow>, key: Key)
    ensures FindKey(tasks, key).Some? ==> FindKey(tasks, key).value in tasks && FindKey(tasks, key).value.key == key
    ensures FindKey(tasks, key).None? ==> forall row | row in tasks :: row.key != key
  {
    if tasks != [] {
      FindKeyIs(tasks[1..], key);
    }
  }

  lemma {:induction false} UniqueRow(tasks: seq<TaskRow>, a: TaskRow, b: TaskRow)
    requires Distinct(tasks) && a in tasks && b in tasks
    requires a.key == b.key || a.id == b.id
    ensures a == b
  {
    if a != tasks[0] && b != tasks[0] {
      UniqueRow(tasks[1..], a, b);
    }
  }

  lemma {:induction false} DistinctAppend(tasks: seq<TaskRow>, row: TaskRow)
    requires Distinct(tasks) && Differs(tasks, row)
    ensures Distinct(tasks + [row])
  {
    if tasks == [] {
      assert [row][1..] == [];
    } else {
      assert (tasks + [row])[1..] == tasks[1..] + [row];
      DistinctAppend(tasks[1..], row);
    }
  }

  lemma {:induction false} CascadeKeeps(tasks: seq<TaskRow>, doc: nat)
    ensures forall row :: row in WithoutTasksOf(tasks, doc) <==> row in tasks && row.doc != doc
    ensures Distinct(tasks) ==> Distinct(WithoutTasksOf(tasks, doc))
    ensures Active(WithoutTasksOf(tasks, doc)) <= Active(tasks)
  {
    if tasks != [] {
      CascadeKeeps(tasks[1..], doc);
    }
  }

  lemma {:induction false} MovedKeeps(tasks: seq<TaskRow>, id: nat, to: TaskState)
    ensures forall row | row in Moved(tasks, id, to) :: Known(tasks, row)
    ensures Distinct(tasks) ==> Distinct(Moved(tasks, id, to))
  {
    if tasks != [] {
      var first := if tasks[0].id == id then tasks[0].(status := to) else tasks[0];
      assert tasks[0] in tasks;
      MovedKeeps(tasks[1..], id, to);
      forall row | row in Moved(tasks, id, to)
        ensures Known(tasks, row)
      {
        if row != first {
          assert row in tasks[1..] || row in Moved(tasks[1..], id, to);
          assert Known(tasks[1..], row);
        }
      }
    }
  }

  lemma {:induction false} BytesAppend(docs: seq<DocRow>, row: DocRow)
    ensures Bytes(docs + [row]) == Bytes(docs) + row.size
  {
    if docs == [] {
      assert [row][1..] == [];
    } else {
      assert (docs + [row])[1..] == docs[1..] + [row];
      BytesAppend(docs[1..], row);
    }
  }

  lemma {:induction false} WithoutDocShrinks(docs: seq<DocRow>, id: nat)
    ensures Bytes(WithoutDoc(docs, id)) <= Bytes(docs)
    ensures |WithoutDoc(docs, id)| <= |docs|
    ensures forall row :: row in WithoutDoc(docs, id) <==> row in docs && row.id != id
  {
    if docs != [] {
      WithoutDocShrinks(docs[1..], id);
    }
  }

  lemma HasDocIs(docs: seq<DocRow>, id: nat)
    ensures HasDoc(docs, id) <==> exists row :: row in docs && row.id == id
  {
    if HasDoc(docs, id) {
      var k :| 0 <= k < |docs| && docs[k].id == id;
      assert docs[k] in docs;
    }
  }

  lemma OtherDocsStay(docs: seq<DocRow>, id: nat, other: nat)
    requires HasDoc(docs, other) && other != id
    ensures HasDoc(WithoutDoc(docs, id), other)
  {
    WithoutDocShrinks(docs, id);
    HasDocIs(docs, other);
    HasDocIs(WithoutDoc(docs, id), other);
  }

  // ---------------------------------------------------------------- the invariant

  /** The thread is between taking the tenant lock and the end of its transaction. */
  predicate HoldsLock(t: Thread) {
    match t
    case Uploading(_, _, phase) => !phase.Begun? && !phase.Checked? && !phase.Done?
    case Reingesting(_, stage) => stage == TenantLocked || stage == Weighed
  }

  /** What a lock holder has read is still good enough. */
  ghost predicate ReadingsOk(t: Thread, docs: seq<DocRow>, tasks: seq<TaskRow>, limits: Limits) {
    match t
    case Uploading(key, size, phase) =>
      (match phase
       case Checked(seen) => SeenFailed(seen)
       case Locked(seen) => SeenFailed(seen)
       case Rechecked(prior) => OnlyPrior(tasks, key, prior)
       case Summed(prior, used) => OnlyPrior(tasks, key, prior) && Bytes(docs) <= used
       case Counted(prior, used, count) => OnlyPrior(tasks, key, prior) && Bytes(docs) <= used && |docs| <= count
       case Cleared(prior) => OnlyPrior(tasks, key, prior) && Fits(docs, size, limits)
       case Stored(prior) => OnlyPrior(tasks, key, prior) && Fits(docs, size, limits)
       case _ => true)
    case Reingesting(doc, stage) => stage != Over ==> HasDoc(docs, doc)
  }

  /** What the first check lets through is no duplicate. */
  predicate SeenFailed(seen: Option<TaskRow>) {
    seen.Some? ==> CheckIdempotent(seen) == PreviousFailed(seen.value)
  }

  predicate Fits(docs: seq<DocRow>, size: nat, limits: Limits) {
    size <= limits.maxFile && Bytes(docs) + size <= limits.maxStorage && |docs| < limits.maxDocuments
  }

  /** A finished upload's task, as long as it exists, is the task of its key. */
  ghost predicate ResultOk(t: Thread, tasks: seq<TaskRow>, nextId: nat) {
    match t
    case Uploading(key, _, Done(Created(id))) =>
      id < nextId && forall row | row in tasks :: row.id == id ==> row.key == key
    case Uploading(key, _, Done(Twin(id))) =>
      id < nextId && forall row | row in tasks :: row.id == id ==> row.key == key
    case Uploading(key, _, _) => key.Fingerprint?
    case _ => true
  }

  ghost predicate RowsOk(s: State, limits: Limits) {
    && Bytes(s.docs) <= limits.maxStorage && |s.docs| <= limits.maxDocuments
    && (forall row | row in s.docs :: row.size <= limits.maxFile)
    && Distinct(s.tasks) && TasksOk(s.docs, s.tasks, s.nextId)
  }

  ghost predicate ThreadOk(s: State, i: nat, limits: Limits)
    requires i < |s.threads|
  {
    && (HoldsLock(s.threads[i]) ==> s.lock == Some(i))
    && ReadingsOk(s.threads[i], s.docs, s.tasks, limits)
    && ResultOk(s.threads[i], s.tasks, s.nextId)
  }

  ghost predicate ThreadsOk(s: State, limits: Limits) {
    forall i | 0 <= i < |s.threads| :: ThreadOk(s, i, limits)
  }

  predicate CreatedTask(t: Thread, id: nat) {
    t.Uploading? && t.phase == Done(Created(id))
  }

  /** No two uploads created the same task. */
  ghost predicate CreatedOnce(threads: seq<Thread>) {
    forall i, j, id | 0 <= i < j < |threads| :: !(CreatedTask(threads[i], id) && CreatedTask(threads[j], id))
  }

  ghost predicate Inv(s: State, limits: Limits) {
    RowsOk(s, limits) && ThreadsOk(s, limits) && CreatedOnce(s.threads)
  }

  lemma EmptyInv(limits: Limits)
    ensures Inv(EMPTY, limits)
  {
  }

  // ---------------------------------------------------------------- threads

  /** One thread moves on; rows and the other threads stay. */
  lemma ThreadMoves(s: State, s': State, i: nat, t: Thread, limits: Limits)
    requires Inv(s, limits) && i < |s.threads|
    requires s'.docs == s.docs && s'.tasks == s.tasks && s'.nextId == s.nextId
    requires s'.threads == s.threads[i := t]
    requires s'.lock == s.lock || s.lock == None || s.lock == Some(i)
    requires HoldsLock(t) ==> s'.lock == Some(i)
    requires ReadingsOk(t, s.docs, s.tasks, limits) && ResultOk(t, s.tasks, s.nextId)
    requires forall id :: !CreatedTask(t, id)
    ensures Inv(s', limits)
  {
    hide ReadingsOk, ResultOk, RowsOk;
    forall j | 0 <= j < |s'.threads|
      ensures ThreadOk(s', j, limits)
    {
      assert ThreadOk(s, j, limits);
    }
    RowsStay(s, s', limits);
  }

  lemma RowsStay(s: State, s': State, limits: Limits)
    requires RowsOk(s, limits) && s'.docs == s.docs && s'.tasks == s.tasks && s'.nextId == s.nextId
    ensures RowsOk(s', limits)
  {
  }

  lemma ThreadAppears(s: State, t: Thread, limits: Limits)
    requires Inv(s, limits) && !HoldsLock(t)
    requires ReadingsOk(t, s.docs, s.tasks, limits) && ResultOk(t, s.tasks, s.nextId)
    requires forall id :: !CreatedTask(t, id)
    ensures Inv(s.(threads := s.threads + [t]), limits)
  {
    hide ReadingsOk, ResultOk, RowsOk;
    var s' := s.(threads := s.threads + [t]);
    forall j | 0 <= j < |s'.threads|
      ensures ThreadOk(s', j, limits)
    {
      if j < |s.threads| {
        assert ThreadOk(s, j, limits);
      }
    }
    RowsStay(s, s', limits);
  }

  // ---------------------------------------------------------------- steps of one thread

  /** The only row with the key, or with the id of that row, is the one the query finds. */
  lemma FoundRow(tasks: seq<TaskRow>, key: Key)
    requires Distinct(tasks)
    ensures match FindKey(tasks, key)
            case None => forall row | row in tasks :: row.key != key
            case Some(found) =>
              && found in tasks && found.key == key
              && forall row | row in tasks :: row.key == key || row.id == found.id ==> row == found
  {
    FindKeyIs(tasks, key);
    if FindKey(tasks, key).Some? {
      var found := FindKey(tasks, key).value;
      forall row | row in tasks && (row.key == key || row.id == found.id)
        ensures row == found
      {
        UniqueRow(tasks, row, found);
      }
    }
  }

  lemma PreCheckKeepsInv(s: State, i: nat, limits: Limits)
    requires Inv(s, limits) && Enabled(s, PreCheck(i))
    ensures Inv(AfterPreCheck(s, i), limits)
  {
    hide Distinct;
    var s' := AfterPreCheck(s, i);
    assert ThreadOk(s, i, limits);
    FoundRow(s.tasks, s.threads[i].key);
    hide RowsOk, ThreadsOk;
    ThreadMoves(s, s', i, s'.threads[i], limits);
  }

  lemma RecheckKeepsInv(s: State, i: nat, limits: Limits)
    requires Inv(s, limits) && Enabled(s, Recheck(i))
    ensures Inv(AfterRecheck(s, i), limits)
  {
    hide Distinct;
    var s' := AfterRecheck(s, i);
    assert ThreadOk(s, i, limits);
    FoundRow(s.tasks, s.threads[i].key);
    hide RowsOk, ThreadsOk;
    ThreadMoves(s, s', i, s'.threads[i], limits);
  }

  /** Locking, reading, storing the object, and dying. */
  lemma QuietStepKeepsInv(s: State, step: Step, i: nat, limits: Limits)
    requires Inv(s, limits) && Enabled(s, step)
    requires
      || step == LockTenant(i) || step == ReadStorage(i) || step == ReadCount(i) || step == ReadActive(i)
      || (step.PutObject? && step.i == i) || step == LockForReingest(i) || step == WeighReingest(i) || step == Die(i)
    ensures Inv(Apply(s, step, limits), limits)
  {
    var s' := Apply(s, step, limits);
    assert ThreadOk(s, i, limits);
    QuietThreadOk(s, step, i, limits);
    hide RowsOk, ThreadsOk, ReadingsOk, ResultOk;
    ThreadMoves(s, s', i, s'.threads[i], limits);
  }

  lemma QuietThreadOk(s: State, step: Step, i: nat, limits: Limits)
    requires Enabled(s, step) && i < |s.threads| && ThreadOk(s, i, limits)
    requires
      || step == LockTenant(i) || step == ReadStorage(i) || step == ReadCount(i) || step == ReadActive(i)
      || (step.PutObject? && step.i == i) || step == LockForReingest(i) || step == WeighReingest(i) || step == Die(i)
    ensures var t := Apply(s, step, limits).threads[i];
            ReadingsOk(t, s.docs, s.tasks, limits) && ResultOk(t, s.tasks, s.nextId)
  {
    hide OnlyPrior;
  }

  // ---------------------------------------------------------------- steps that change rows

  /** Only one thread can hold the lock. */
  lemma OthersAreOutside(s: State, i: nat, j: nat, limits: Limits)
    requires ThreadsOk(s, limits) && i < |s.threads| && j < |s.threads| && i != j && HoldsLock(s.threads[i])
    ensures !HoldsLock(s.threads[j])
  {
    assert ThreadOk(s, i, limits) && ThreadOk(s, j, limits);
  }

  /** A thread outside the lock does not notice a commit that adds rows with new ids. */
  lemma OutsideThreadOk(s: State, s': State, j: nat, limits: Limits)
    requires j < |s.threads| && j < |s'.threads| && s'.threads[j] == s.threads[j]
    requires ThreadOk(s, j, limits) && !HoldsLock(s.threads[j]) && s.nextId <= s'.nextId
    requires forall id | HasDoc(s.docs, id) :: HasDoc(s'.docs, id)
    requires forall row | row in s'.tasks :: row in s.tasks || row.id >= s.nextId
    ensures ThreadOk(s', j, limits)
  {
  }

  lemma HasDocAppend(docs: seq<DocRow>, row: DocRow)
    ensures HasDoc(docs + [row], row.id)
    ensures forall id | HasDoc(docs, id) :: HasDoc(docs + [row], id)
  {
    assert (docs + [row])[|docs|] == row;
    forall id | HasDoc(docs, id)
      ensures HasDoc(docs + [row], id)
    {
      var k :| 0 <= k < |docs| && docs[k].id == id;
      assert (docs + [row])[k] == docs[k];
    }
  }

  lemma InsertKeepsRows(s: State, key: Key, size: nat, limits: Limits)
    requires RowsOk(s, limits) && Fits(s.docs, size, limits) && FindKey(s.tasks, key).None? && key.Fingerprint?
    ensures RowsOk(s.(docs := s.docs + [DocRow(s.nextId, size)],
                      tasks := s.tasks + [TaskRow(s.nextId, s.nextId, key, Pending)],
                      nextId := s.nextId + 1), limits)
  {
    BytesAppend(s.docs, DocRow(s.nextId, size));
    HasDocAppend(s.docs, DocRow(s.nextId, size));
    FindKeyIs(s.tasks, key);
    DistinctAppend(s.tasks, TaskRow(s.nextId, s.nextId, key, Pending));
  }

  lemma CommitKeepsInv(s: State, i: nat, limits: Limits)
    requires Inv(s, limits) && Enabled(s, CommitUpload(i))
    ensures Inv(AfterCommit(s, i), limits)
  {
    hide Distinct, Differs;
    var s' := AfterCommit(s, i);
    var Uploading(key, size, _) := s.threads[i];
    assert ThreadOk(s, i, limits);
    if FindKey(s.tasks, key).Some? {
      hide RowsOk, ThreadsOk;
      ThreadMoves(s, s', i, s'.threads[i], limits);
    } else {
      InsertKeepsRows(s, key, size, limits);
      assert RowsOk(s', limits);
      HasDocAppend(s.docs, DocRow(s.nextId, size));
      forall j | 0 <= j < |s'.threads|
        ensures ThreadOk(s', j, limits)
      {
        if j != i {
          OthersAreOutside(s, i, j, limits);
          assert ThreadOk(s, j, limits);
          OutsideThreadOk(s, s', j, limits);
        } else {
          CreatedThreadOk(s, i, limits);
        }
      }
      NewTaskIsNew(s, s', i, limits);
    }
  }

  lemma CreatedThreadOk(s: State, i: nat, limits: Limits)
    requires RowsOk(s, limits) && Enabled(s, CommitUpload(i)) && FindKey(s.tasks, s.threads[i].key).None?
    ensures ThreadOk(AfterCommit(s, i), i, limits)
  {
    hide Distinct, FindKey;
  }

  lemma NewTaskIsNew(s: State, s': State, i: nat, limits: Limits)
    requires ThreadsOk(s, limits) && CreatedOnce(s.threads) && InPhase(s, i)
    requires s'.threads == s.threads[i := s.threads[i].(phase := Done(Created(s.nextId)))]
    ensures CreatedOnce(s'.threads)
  {
    forall j: nat, id: nat | j < |s.threads| && CreatedTask(s.threads[j], id)
      ensures id < s.nextId
    {
      assert ThreadOk(s, j, limits);
    }
  }

  lemma ReingestKeepsInv(s: State, i: nat, limits: Limits)
    requires Inv(s, limits) && Enabled(s, CommitReingest(i))
    ensures Inv(AfterReingest(s, i), limits)
  {
    var s' := AfterReingest(s, i);
    var row := TaskRow(s.nextId, s.threads[i].doc, Reingest(s.nextId), Pending);
    assert ThreadOk(s, i, limits);
    DistinctAppend(s.tasks, row);
    hide Distinct;
    forall j | 0 <= j < |s'.threads|
      ensures ThreadOk(s', j, limits)
    {
      if j != i {
        OthersAreOutside(s, i, j, limits);
        assert ThreadOk(s, j, limits);
        OutsideThreadOk(s, s', j, limits);
      }
    }
  }

  lemma BeginKeepsInv(s: State, step: Step, limits: Limits)
    requires Inv(s, limits) && Enabled(s, step) && (step.BeginUpload? || step.BeginReingest?)
    ensures Inv(Apply(s, step, limits), limits)
  {
    hide RowsOk, ThreadsOk;
    var t := match step
      case BeginUpload(key, size) => Uploading(key, size, Begun)
      case BeginReingest(doc) => Reingesting(doc, DocumentLocked);
    ThreadAppears(s, t, limits);
  }

  lemma DeleteKeepsRows(s: State, doc: nat, limits: Limits)
    requires RowsOk(s, limits)
    ensures RowsOk(s.(docs := WithoutDoc(s.docs, doc), tasks := WithoutTasksOf(s.tasks, doc)), limits)
  {
    hide Distinct, HasDoc;
    WithoutDocShrinks(s.docs, doc);
    CascadeKeeps(s.tasks, doc);
    forall row | row in s.tasks && row.doc != doc
      ensures HasDoc(WithoutDoc(s.docs, doc), row.doc)
    {
      OtherDocsStay(s.docs, doc, row.doc);
    }
  }

  /** Nobody's readings are spoilt by fewer rows, and nobody else's locked document goes. */
  lemma DeletedThreadOk(s: State, s': State, doc: nat, j: nat, limits: Limits)
    requires j < |s.threads| && ThreadOk(s, j, limits) && !Holds(s.threads[j], doc)
    requires s' == s.(docs := WithoutDoc(s.docs, doc), tasks := WithoutTasksOf(s.tasks, doc))
    ensures ThreadOk(s', j, limits)
  {
    hide HasDoc;
    WithoutDocShrinks(s.docs, doc);
    CascadeKeeps(s.tasks, doc);
    var t := s.threads[j];
    if t.Reingesting? && t.stage != Over {
      OtherDocsStay(s.docs, doc, t.doc);
    }
  }

  lemma DeleteKeepsInv(s: State, doc: nat, limits: Limits)
    requires Inv(s, limits) && Enabled(s, DeleteDocument(doc))
    ensures Inv(Apply(s, DeleteDocument(doc), limits), limits)
  {
    hide RowsOk, ThreadOk, WithoutDoc, WithoutTasksOf, HasDoc;
    var s' := Apply(s, DeleteDocument(doc), limits);
    DeleteKeepsRows(s, doc, limits);
    forall j | 0 <= j < |s'.threads|
      ensures ThreadOk(s', j, limits)
    {
      assert ThreadOk(s, j, limits);
      DeletedThreadOk(s, s', doc, j, limits);
    }
  }

  lemma MoveKeepsInv(s: State, id: nat, to: TaskState, limits: Limits)
    requires Inv(s, limits) && Enabled(s, MoveTask(id, to))
    ensures Inv(Apply(s, MoveTask(id, to), limits), limits)
  {
    hide Distinct, HasDoc, Moved;
    var s' := Apply(s, MoveTask(id, to), limits);
    MovedKeeps(s.tasks, id, to);
    forall j | 0 <= j < |s'.threads|
      ensures ThreadOk(s', j, limits)
    {
      assert ThreadOk(s, j, limits);
    }
  }

  lemma StepKeepsInv(s: State, step: Step, limits: Limits)
    requires Inv(s, limits) && Enabled(s, step)
    ensures Inv(Apply(s, step, limits), limits)
  {
    hide Inv;
    match step
    case BeginUpload(_, _) => BeginKeepsInv(s, step, limits);
    case BeginReingest(_) => BeginKeepsInv(s, step, limits);
    case PreCheck(i) => PreCheckKeepsInv(s, i, limits);
    case Recheck(i) => RecheckKeepsInv(s, i, limits);
    case CommitUpload(i) => CommitKeepsInv(s, i, limits);
    case CommitReingest(i) => ReingestKeepsInv(s, i, limits);
    case DeleteDocument(doc) => DeleteKeepsInv(s, doc, limits);
    case MoveTask(id, to) => MoveKeepsInv(s, id, to, limits);
    case LockTenant(i) => QuietStepKeepsInv(s, step, i, limits);
    case ReadStorage(i) => QuietStepKeepsInv(s, step, i, limits);
    case ReadCount(i) => QuietStepKeepsInv(s, step, i, limits);
    case ReadActive(i) => QuietStepKeepsInv(s, step, i, limits);
    case PutObject(i, _) => QuietStepKeepsInv(s, step, i, limits);
    case LockForReingest(i) => QuietStepKeepsInv(s, step, i, limits);
    case WeighReingest(i) => QuietStepKeepsInv(s, step, i, limits);
    case Die(i) => QuietStepKeepsInv(s, step, i, limits);
  }

  lemma {:induction false} RunKeepsInv(s: State, run: seq<Step>, limits: Limits)
    requires Inv(s, limits) && IsRun(s, run, limits)
    ensures Inv(After(s, run, limits), limits)
    decreases |run|
  {
    hide Inv, Enabled, Apply;
    if run != [] {
      StepKeepsInv(s, run[0], limits);
      RunKeepsInv(Apply(s, run[0], limits), run[1..], limits);
    }
  }
}
