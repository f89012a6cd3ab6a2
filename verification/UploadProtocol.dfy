/** Uploads, re-ingestions and deletions of one tenant (src/services/doc_service.py), as a transition
    system.  A step is one statement or one commit; between two of them anybody else may act, so every
    interleaving is a sequence of steps.  The tenant row lock is held from `with_for_update` to the end
    of the transaction.  The tenant's configuration is fixed. */
module UploadProtocol {
  import opened Options
  import opened TaskFsm

  /** The unique idempotency key: an upload's fingerprint, or a fresh one for each re-ingestion. */
  datatype Key = Fingerprint(kb: string, filename: string, contentHash: string) | Reingest(task: nat)

  datatype DocRow = DocRow(id: nat, size: nat)

  datatype TaskRow = TaskRow(id: nat, doc: nat, key: Key, status: TaskState)

  datatype Limits = Limits(maxFile: nat, maxStorage: nat, maxDocuments: nat, maxActive: nat)

  datatype Refusal = FileTooLarge | StorageFull | TooManyDocuments | TooManyTasks

  datatype Outcome =
    | Twin(task: nat)
    | Refused(refusal: Refusal)
    | StorageUnavailable
    | UniqueViolation
    | Created(task: nat)
    | Died

  /** How far an upload is.  `seen` is the failed or cancelled task the first check found: the session keeps
      the object it loaded then.  `prior` is the task the second check took for failed or cancelled. */
  datatype Phase =
    | Begun
    | Checked(seen: Option<TaskRow>)
    | Locked(seen: Option<TaskRow>)
    | Rechecked(prior: Option<nat>)
    | Summed(prior: Option<nat>, used: nat)
    | Counted(prior: Option<nat>, used: nat, count: nat)
    | Cleared(prior: Option<nat>)
    | Stored(prior: Option<nat>)
    | Done(outcome: Outcome)

  datatype ReingestPhase = DocumentLocked | TenantLocked | Weighed | Over

  datatype Thread =
    | Uploading(key: Key, size: nat, phase: Phase)
    | Reingesting(doc: nat, stage: ReingestPhase)

  datatype State = State(
    docs: seq<DocRow>,
    tasks: seq<TaskRow>,
    nextId: nat,
    lock: Option<nat>,
    threads: seq<Thread>)

  const EMPTY: State := State([], [], 0, None, [])

  datatype Step =
    | BeginUpload(key: Key, size: nat)
    | PreCheck(i: nat)
    | LockTenant(i: nat)
    | Recheck(i: nat)
    | ReadStorage(i: nat)
    | ReadCount(i: nat)
    | ReadActive(i: nat)
    | PutObject(i: nat, ok: bool)
    | CommitUpload(i: nat)
    | BeginReingest(doc: nat)
    | LockForReingest(i: nat)
    | WeighReingest(i: nat)
    | CommitReingest(i: nat)
    | Die(i: nat)
    | DeleteDocument(doc: nat)
    | MoveTask(id: nat, to: TaskState)

  // ---------------------------------------------------------------- rows

  function Bytes(docs: seq<DocRow>): nat {
    if docs == [] then 0 else docs[0].size + Bytes(docs[1..])
  }

  predicate IsActive(status: TaskState) {
    status == Pending || status == Running || status == RetryWaiting
  }

  function Active(tasks: seq<TaskRow>): nat {
    if tasks == [] then 0 else (if IsActive(tasks[0].status) then 1 else 0) + Active(tasks[1..])
  }

  function FindKey(tasks: seq<TaskRow>, key: Key): Option<TaskRow> {
    if tasks == [] then None
    else if tasks[0].key == key then Some(tasks[0])
    else FindKey(tasks[1..], key)
  }

  predicate HasDoc(docs: seq<DocRow>, id: nat) {
    exists k :: 0 <= k < |docs| && docs[k].id == id
  }

  function WithoutDoc(docs: seq<DocRow>, id: nat): seq<DocRow> {
    if docs == [] then []
    else if docs[0].id == id then WithoutDoc(docs[1..], id)
    else [docs[0]] + WithoutDoc(docs[1..], id)
  }

  /** The cascade from documents to tasks. */
  function WithoutTasksOf(tasks: seq<TaskRow>, doc: nat): seq<TaskRow> {
    if tasks == [] then []
    else if tasks[0].doc == doc then WithoutTasksOf(tasks[1..], doc)
    else [tasks[0]] + WithoutTasksOf(tasks[1..], doc)
  }

  function Moved(tasks: seq<TaskRow>, id: nat, to: TaskState): seq<TaskRow> {
    if tasks == [] then []
    else if tasks[0].id == id then [tasks[0].(status := to)] + tasks[1..]
    else [tasks[0]] + Moved(tasks[1..], id, to)
  }

  function StatusOf(tasks: seq<TaskRow>, id: nat): Option<TaskState> {
    if tasks == [] then None
    else if tasks[0].id == id then Some(tasks[0].status)
    else StatusOf(tasks[1..], id)
  }

  // ---------------------------------------------------------------- idempotency.py

  datatype Check = NewTask | AlreadyCompleted(task: TaskRow) | InFlight(task: TaskRow) | PreviousFailed(task: TaskRow)

  /** A query that finds a row the session has already loaded returns the object as it was loaded. */
  function Recalled(found: Option<TaskRow>, seen: Option<TaskRow>): Option<TaskRow> {
    if found.Some? && seen.Some? && seen.value.id == found.value.id then seen else found
  }

  /** `check_idempotent_task`, from the task it finds. */
  function CheckIdempotent(found: Option<TaskRow>): Check {
    match found
    case None => NewTask
    case Some(row) =>
      if row.status == Succeeded || row.status == PartialSucceeded then AlreadyCompleted(row)
      else if IsActive(row.status) then InFlight(row)
      else PreviousFailed(row)
  }

  predicate IsDuplicate(check: Check) {
    check.AlreadyCompleted? || check.InFlight?
  }

  /** The four comparisons after the counts, in order. */
  function Refuses(limits: Limits, size: nat, used: nat, count: nat, active: nat): Option<Refusal> {
    if size > limits.maxFile then Some(FileTooLarge)
    else if used + size > limits.maxStorage then Some(StorageFull)
    else if count >= limits.maxDocuments then Some(TooManyDocuments)
    else if active >= limits.maxActive then Some(TooManyTasks)
    else None
  }

  // ---------------------------------------------------------------- steps

  predicate InPhase(s: State, i: nat) {
    i < |s.threads| && s.threads[i].Uploading?
  }

  predicate InStage(s: State, i: nat, stage: ReingestPhase) {
    i < |s.threads| && s.threads[i].Reingesting? && s.threads[i].stage == stage
  }

  /** A re-ingestion locks its document's row until it is over. */
  predicate Holds(t: Thread, doc: nat) {
    t.Reingesting? && t.doc == doc && t.stage != Over
  }

  predicate Enabled(s: State, step: Step) {
    match step
    case BeginUpload(key, _) => key.Fingerprint?
    case PreCheck(i) => InPhase(s, i) && s.threads[i].phase.Begun?
    case LockTenant(i) => InPhase(s, i) && s.threads[i].phase.Checked? && s.lock == None
    case Recheck(i) => InPhase(s, i) && s.threads[i].phase.Locked?
    case ReadStorage(i) => InPhase(s, i) && s.threads[i].phase.Rechecked?
    case ReadCount(i) => InPhase(s, i) && s.threads[i].phase.Summed?
    case ReadActive(i) => InPhase(s, i) && s.threads[i].phase.Counted?
    case PutObject(i, _) => InPhase(s, i) && s.threads[i].phase.Cleared?
    case CommitUpload(i) => InPhase(s, i) && s.threads[i].phase.Stored?
    case BeginReingest(doc) =>
      HasDoc(s.docs, doc) && forall i | 0 <= i < |s.threads| :: !Holds(s.threads[i], doc)
    case LockForReingest(i) => InStage(s, i, DocumentLocked) && s.lock == None
    case WeighReingest(i) => InStage(s, i, TenantLocked)
    case CommitReingest(i) => InStage(s, i, Weighed)
    case Die(i) => i < |s.threads| && !Finished(s.threads[i])
    case DeleteDocument(doc) =>
      HasDoc(s.docs, doc) && forall i | 0 <= i < |s.threads| :: !Holds(s.threads[i], doc)
    case MoveTask(id, to) => StatusOf(s.tasks, id).Some? && UsedEdge(StatusOf(s.tasks, id).value, to)
  }

  predicate Finished(t: Thread) {
    match t
    case Uploading(_, _, phase) => phase.Done?
    case Reingesting(_, stage) => stage == Over
  }

  function Release(s: State, i: nat): Option<nat> {
    if s.lock == Some(i) then None else s.lock
  }

  /** Thread `i` goes on to another phase. */
  function Goes(s: State, i: nat, phase: Phase): State
    requires InPhase(s, i)
  {
    s.(threads := s.threads[i := s.threads[i].(phase := phase)])
  }

  /** Thread `i` ends its transaction. */
  function Ends(s: State, i: nat, outcome: Outcome): State
    requires InPhase(s, i)
  {
    Goes(s, i, Done(outcome)).(lock := Release(s, i))
  }

  function GoesOn(s: State, i: nat, stage: ReingestPhase): State
    requires i < |s.threads| && s.threads[i].Reingesting?
  {
    s.(threads := s.threads[i := s.threads[i].(stage := stage)])
  }

  /** The first check, before the lock. */
  function AfterPreCheck(s: State, i: nat): State
    requires InPhase(s, i)
  {
    var check := CheckIdempotent(FindKey(s.tasks, s.threads[i].key));
    if IsDuplicate(check) then Ends(s, i, Twin(check.task.id))
    else Goes(s, i, Checked(if check.PreviousFailed? then Some(check.task) else None))
  }

  /** The second check, under the lock, in the same session. */
  function AfterRecheck(s: State, i: nat): State
    requires Enabled(s, Recheck(i))
  {
    var check := CheckIdempotent(Recalled(FindKey(s.tasks, s.threads[i].key), s.threads[i].phase.seen));
    if IsDuplicate(check) then Ends(s, i, Twin(check.task.id))
    else Goes(s, i, Rechecked(if check.PreviousFailed? then Some(check.task.id) else None))
  }

  function AfterReadActive(s: State, i: nat, limits: Limits): State
    requires Enabled(s, ReadActive(i))
  {
    var Uploading(_, size, Counted(prior, used, count)) := s.threads[i];
    match Refuses(limits, size, used, count, Active(s.tasks))
    case Some(refusal) => Ends(s, i, Refused(refusal))
    case None => Goes(s, i, Cleared(prior))
  }

  /** The commit inserts document, task and event, or nothing when the key is taken. */
  function AfterCommit(s: State, i: nat): State
    requires Enabled(s, CommitUpload(i))
  {
    var Uploading(key, size, _) := s.threads[i];
    if FindKey(s.tasks, key).Some? then Ends(s, i, UniqueViolation)
    else
      Ends(s, i, Created(s.nextId)).(
        docs := s.docs + [DocRow(s.nextId, size)],
        tasks := s.tasks + [TaskRow(s.nextId, s.nextId, key, Pending)],
        nextId := s.nextId + 1)
  }

  function AfterReingest(s: State, i: nat): State
    requires Enabled(s, CommitReingest(i))
  {
    GoesOn(s, i, Over).(
      lock := Release(s, i),
      tasks := s.tasks + [TaskRow(s.nextId, s.threads[i].doc, Reingest(s.nextId), Pending)],
      nextId := s.nextId + 1)
  }

  function Apply(s: State, step: Step, limits: Limits): State
    requires Enabled(s, step)
  {
    match step
    case BeginUpload(key, size) => s.(threads := s.threads + [Uploading(key, size, Begun)])
    case PreCheck(i) => AfterPreCheck(s, i)
    case LockTenant(i) => Goes(s, i, Locked(s.threads[i].phase.seen)).(lock := Some(i))
    case Recheck(i) => AfterRecheck(s, i)
    case ReadStorage(i) => Goes(s, i, Summed(s.threads[i].phase.prior, Bytes(s.docs)))
    case ReadCount(i) => Goes(s, i, Counted(s.threads[i].phase.prior, s.threads[i].phase.used, |s.docs|))
    case ReadActive(i) => AfterReadActive(s, i, limits)
    case PutObject(i, ok) => if ok then Goes(s, i, Stored(s.threads[i].phase.prior)) else Ends(s, i, StorageUnavailable)
    case CommitUpload(i) => AfterCommit(s, i)
    case BeginReingest(doc) => s.(threads := s.threads + [Reingesting(doc, DocumentLocked)])
    case LockForReingest(i) => GoesOn(s, i, TenantLocked).(lock := Some(i))
    case WeighReingest(i) =>
      if Active(s.tasks) >= limits.maxActive then GoesOn(s, i, Over).(lock := Release(s, i)) else GoesOn(s, i, Weighed)
    case CommitReingest(i) => AfterReingest(s, i)
    case Die(i) =>
      if s.threads[i].Uploading? then Ends(s, i, Died) else GoesOn(s, i, Over).(lock := Release(s, i))
    case DeleteDocument(doc) =>
      s.(docs := WithoutDoc(s.docs, doc), tasks := WithoutTasksOf(s.tasks, doc))
    case MoveTask(id, to) => s.(tasks := Moved(s.tasks, id, to))
  }

  ghost predicate IsRun(s: State, run: seq<Step>, limits: Limits)
    decreases |run|
  {
    run == [] || (Enabled(s, run[0]) && IsRun(Apply(s, run[0], limits), run[1..], limits))
  }

  ghost function After(s: State, run: seq<Step>, limits: Limits): State
    requires IsRun(s, run, limits)
    decreases |run|
  {
    if run == [] then s else After(Apply(s, run[0], limits), run[1..], limits)
  }

  lemma {:induction false} RunsCompose(s: State, first: seq<Step>, second: seq<Step>, limits: Limits)
    requires IsRun(s, first, limits) && IsRun(After(s, first, limits), second, limits)
    ensures IsRun(s, first + second, limits)
    ensures After(s, first + second, limits) == After(After(s, first, limits), second, limits)
    decreases |first|
  {
    if first == [] {
      assert first + second == second;
    } else {
      assert (first + second)[1..] == first[1..] + second;
      RunsCompose(Apply(s, first[0], limits), first[1..], second, limits);
    }
  }

  lemma OneStep(s: State, step: Step, limits: Limits)
    requires Enabled(s, step)
    ensures IsRun(s, [step], limits) && After(s, [step], limits) == Apply(s, step, limits)
  {
    assert [step][1..] == [];
  }

  lemma ExtendRun(s: State, run: seq<Step>, step: Step, limits: Limits)
    requires IsRun(s, run, limits) && Enabled(After(s, run, limits), step)
    ensures IsRun(s, run + [step], limits)
    ensures After(s, run + [step], limits) == Apply(After(s, run, limits), step, limits)
  {
    OneStep(After(s, run, limits), step, limits);
    RunsCompose(s, run, [step], limits);
  }
}
