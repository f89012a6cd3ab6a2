/** The PostgreSQL rows of the task protocol, and what each transaction does to them.

    A `Db` is the committed content of the tables `documents`, `tasks` and `task_outbox_events`.
    Every function below maps a committed content to the content after one more commit. */
module TaskRows {
  import opened Options
  import opened TaskFsm

  /** Microseconds, the resolution of the timestamp columns. */
  type Time = int
  const SECOND: Time := 1_000_000

  type TaskId = nat
  type DocId = nat

  datatype Document = Document(tenant: string, active: nat)

  /** The texts written to `stage` and `error_msg`, with the values they interpolate. */
  datatype Stage = StageInit | StageRetryQueued | StageCompleted | Reported(name: string)

  datatype ErrorText =
    | HeartbeatTimeout(attempt: nat)
    | MaxAttemptsExceeded(maxAttempts: nat)
    | MissingDocument
    | ExceptionText(text: string)

  datatype Task = Task(
    tenant: string,
    doc: DocId,
    status: TaskState,
    stage: Stage,
    progress: int,
    attempt: nat,
    retryCount: nat,
    token: nat,
    worker: Option<string>,
    lease: Option<Time>,
    nextAttempt: Option<Time>,
    target: nat,
    error: Option<ErrorText>)

  /** `event_key` is unique: the task id alone, `<id>:recovery:<attempt>` or `<id>:retry:<n>`. */
  datatype EventKind = Initial | Recovery(attempt: nat) | Retry(count: nat)
  datatype EventKey = EventKey(task: TaskId, kind: EventKind)

  datatype EventStatus = EventPending | EventPublishing | EventPublished

  datatype Event = Event(
    status: EventStatus,
    attempts: nat,
    available: Time,
    lease: Option<Time>,
    created: Time)

  datatype Db = Db(
    docs: map<DocId, Document>,
    tasks: map<TaskId, Task>,
    outbox: map<EventKey, Event>)

  function Min(a: int, b: int): int {
    if a <= b then a else b
  }

  function Max(a: int, b: int): int {
    if a <= b then b else a
  }

  function Pow2(n: nat): (p: nat)
    ensures p >= 1
  {
    if n == 0 then 1 else 2 * Pow2(n - 1)
  }

  /** Delay before a recovered task may run again. */
  function RecoveryBackoff(attempt: nat): Time {
    Min(300, Pow2(attempt) * 5) * SECOND
  }

  /** Delay before an event whose publication failed is due again. */
  function PublishBackoff(attempts: nat): Time {
    Min(300, Pow2(Min(attempts, 8))) * SECOND
  }

  // ---------------------------------------------------------------- task_service.py

  /** The WHERE clause of `acquire_task_lease`. */
  predicate Claimable(t: Task, now: Time) {
    || t.status == Pending
    || (t.status == RetryWaiting && (t.nextAttempt.None? || t.nextAttempt.value <= now))
  }

  predicate CanAcquire(db: Db, id: TaskId, now: Time) {
    id in db.tasks && Claimable(db.tasks[id], now)
  }

  function AcquiredRow(t: Task, worker: string, leaseFor: Time, now: Time): Task {
    t.(status := Running,
       worker := Some(worker),
       attempt := t.attempt + 1,
       token := t.token + 1,
       lease := Some(now + leaseFor),
       nextAttempt := None)
  }

  function AcquireLease(db: Db, id: TaskId, worker: string, leaseFor: Time, now: Time): Db {
    if CanAcquire(db, id, now)
    then db.(tasks := db.tasks[id := AcquiredRow(db.tasks[id], worker, leaseFor, now)])
    else db
  }

  /** The WHERE clause every write of a lease holder carries. */
  predicate Owns(db: Db, id: TaskId, worker: string, token: nat) {
    && id in db.tasks
    && db.tasks[id].status == Running
    && db.tasks[id].worker == Some(worker)
    && db.tasks[id].token == token
  }

  /** The WHERE clause of `update_task_status_cas`. */
  predicate CasMatches(db: Db, id: TaskId, from: TaskState, token: nat, worker: Option<string>) {
    && id in db.tasks
    && db.tasks[id].status == from
    && db.tasks[id].token == token
    && (worker.Some? ==> db.tasks[id].worker == worker)
  }

  /** The optional arguments of `update_task_status_cas`. */
  datatype Given = Given(stage: Option<Stage>, percent: Option<int>, worker: Option<string>, error: Option<ErrorText>)

  /** What the worker gives when it records a failure. */
  function Failure(worker: string, error: ErrorText): Given {
    Given(None, None, Some(worker), Some(error))
  }

  function CasRow(t: Task, to: TaskState, given: Given): Task {
    var written := t.(
      status := to,
      stage := if given.stage.Some? && given.stage.value != Reported("") then given.stage.value else t.stage,
      progress := if given.percent.Some? then given.percent.value else t.progress,
      worker := if given.worker.Some? && given.worker.value != "" then given.worker else t.worker,
      error := if given.error.Some? then given.error else t.error);
    if IsTerminal(to) then written.(lease := None, worker := None) else written
  }

  function UpdateStatusCas(db: Db, id: TaskId, from: TaskState, to: TaskState, token: nat, given: Given): Db {
    if CasMatches(db, id, from, token, given.worker)
    then db.(tasks := db.tasks[id := CasRow(db.tasks[id], to, given)])
    else db
  }

  /** Everything a finalising worker presents to `complete_task_with_generation`. */
  datatype Completion = Completion(
    task: TaskId,
    tenant: string,
    doc: DocId,
    token: nat,
    worker: string,
    generation: nat,
    final: TaskState,
    publish: bool)

  predicate CompletionTaskMatches(db: Db, c: Completion) {
    && Owns(db, c.task, c.worker, c.token)
    && db.tasks[c.task].tenant == c.tenant
    && db.tasks[c.task].doc == c.doc
  }

  predicate CompletionDocMatches(db: Db, c: Completion) {
    && c.doc in db.docs
    && db.docs[c.doc].tenant == c.tenant
    && db.docs[c.doc].active <= c.generation
  }

  /** Both UPDATEs match, so the transaction commits. */
  predicate CanComplete(db: Db, c: Completion) {
    CompletionTaskMatches(db, c) && (c.publish ==> CompletionDocMatches(db, c))
  }

  function CompletedRow(t: Task, final: TaskState): Task {
    t.(status := final, stage := StageCompleted, progress := 100,
       worker := None, lease := None, nextAttempt := None)
  }

  function Complete(db: Db, c: Completion): Db {
    if CanComplete(db, c) then
      db.(tasks := db.tasks[c.task := CompletedRow(db.tasks[c.task], c.final)],
          docs := if c.publish then db.docs[c.doc := db.docs[c.doc].(active := c.generation)]
                  else db.docs)
    else db
  }

  function Progress(db: Db, id: TaskId, worker: string, token: nat, stage: Stage, percent: int): Db {
    if Owns(db, id, worker, token)
    then db.(tasks := db.tasks[id := db.tasks[id].(stage := stage,
                                                   progress := Max(0, Min(100, percent)))])
    else db
  }

  /** One beat of src/core/tasks/lease.py. */
  function Heartbeat(db: Db, id: TaskId, worker: string, token: nat, expiry: Time): Db {
    if Owns(db, id, worker, token)
    then db.(tasks := db.tasks[id := db.tasks[id].(lease := Some(expiry))])
    else db
  }

  predicate CanRetry(db: Db, id: TaskId, tenant: string) {
    && id in db.tasks
    && db.tasks[id].tenant == tenant
    && db.tasks[id].status in {Failed, DeadLetter}
    && db.tasks[id].doc in db.docs
    && db.docs[db.tasks[id].doc].tenant == tenant
  }

  function RetriedRow(t: Task): Task {
    t.(status := Pending, stage := StageRetryQueued, retryCount := t.retryCount + 1,
       token := t.token + 1, worker := None, lease := None, nextAttempt := None, error := None)
  }

  function RetryTask(db: Db, id: TaskId, tenant: string, now: Time): Db {
    if CanRetry(db, id, tenant) then
      var row := RetriedRow(db.tasks[id]);
      db.(tasks := db.tasks[id := row],
          outbox := Enqueue(db.outbox, EventKey(id, Retry(row.retryCount)), now, now))
    else db
  }

  // ---------------------------------------------------------------- outbox.py

  function NewEvent(available: Time, now: Time): Event {
    Event(EventPending, 0, available, None, now)
  }

  /** `enqueue` returns the existing row when the key is taken. */
  function Enqueue(outbox: map<EventKey, Event>, key: EventKey, available: Time, now: Time)
    : map<EventKey, Event>
  {
    if key in outbox then outbox else outbox[key := NewEvent(available, now)]
  }

  /** The WHERE clause under which `publish_pending` claims an event. */
  predicate Due(e: Event, now: Time) {
    && (|| e.status == EventPending
        || (e.status == EventPublishing && e.lease.Some? && e.lease.value < now))
    && e.available <= now
  }

  function ClaimedEvent(e: Event, now: Time): Event {
    e.(status := EventPublishing, lease := Some(now + 60 * SECOND))
  }

  function ClaimEvent(db: Db, key: EventKey, now: Time): Db {
    if key in db.outbox && Due(db.outbox[key], now)
    then db.(outbox := db.outbox[key := ClaimedEvent(db.outbox[key], now)])
    else db
  }

  /** A flush writes a column only where the object was given another value than it was loaded with. */
  function Flushed<T(==)>(current: T, loaded: T, given: T): T {
    if given == loaded then current else given
  }

  /** When the failed event is due again, by the row that was read and the clock after reading it. */
  function DueAgain(read: Event, now: Time): Time {
    now + PublishBackoff(read.attempts + 1)
  }

  /** The failure branch reads the row without a lock, assigns four columns by what it read, and writes
      them later, whatever the row has become by then. */
  function FailedEvent(current: Event, read: Event, now: Time): Event {
    current.(status := Flushed(current.status, read.status, EventPending),
             attempts := Flushed(current.attempts, read.attempts, read.attempts + 1),
             lease := Flushed(current.lease, read.lease, None),
             available := Flushed(current.available, read.available, DueAgain(read, now)))
  }

  function FailPublication(db: Db, key: EventKey, read: Event, now: Time): Db {
    if key in db.outbox
    then db.(outbox := db.outbox[key := FailedEvent(db.outbox[key], read, now)])
    else db
  }

  predicate CanMark(db: Db, key: EventKey) {
    key in db.outbox && db.outbox[key].status == EventPublishing
  }

  function MarkPublished(db: Db, key: EventKey): Db {
    if CanMark(db, key)
    then db.(outbox := db.outbox[key := db.outbox[key].(status := EventPublished, lease := None)])
    else db
  }

  // ---------------------------------------------------------------- recovery.py

  /** The WHERE clause of the sweep. */
  predicate Expired(t: Task, now: Time) {
    t.status == Running && t.lease.Some? && t.lease.value < now
  }

  function RecoveredRow(t: Task, maxAttempts: nat, now: Time): Task {
    if t.attempt + 1 < maxAttempts then
      var deadline := now + RecoveryBackoff(t.attempt + 1);
      t.(status := RetryWaiting, attempt := t.attempt + 1, token := t.token + 1,
         lease := Some(deadline), nextAttempt := Some(deadline), worker := None,
         error := Some(HeartbeatTimeout(t.attempt)))
    else
      t.(status := DeadLetter, attempt := t.attempt + 1, token := t.token + 1,
         worker := None, lease := None, nextAttempt := None,
         error := Some(MaxAttemptsExceeded(maxAttempts)))
  }

  /** The body of the sweep's loop for one locked row. */
  function RecoverTask(db: Db, id: TaskId, maxAttempts: nat, now: Time): Db
    requires id in db.tasks
  {
    var row := RecoveredRow(db.tasks[id], maxAttempts, now);
    var outbox :=
      if row.status == RetryWaiting && row.doc in db.docs && db.docs[row.doc].tenant == row.tenant
      then Enqueue(db.outbox, EventKey(id, Recovery(row.attempt)), row.nextAttempt.value, now)
      else db.outbox;
    db.(tasks := db.tasks[id := row], outbox := outbox)
  }

  /** The orphans that go back to the queue and whose document row is still there. */
  predicate Requeued(db: Db, id: TaskId, maxAttempts: nat) {
    && id in db.tasks
    && db.tasks[id].attempt + 1 < maxAttempts
    && db.tasks[id].doc in db.docs
    && db.docs[db.tasks[id].doc].tenant == db.tasks[id].tenant
  }

  function RecoveryKey(db: Db, id: TaskId): EventKey
    requires id in db.tasks
  {
    EventKey(id, Recovery(db.tasks[id].attempt + 1))
  }

  function RecoveryEvent(db: Db, id: TaskId, now: Time): Event
    requires id in db.tasks
  {
    NewEvent(now + RecoveryBackoff(db.tasks[id].attempt + 1), now)
  }

  function RecoveryKeys(db: Db, orphans: set<TaskId>, maxAttempts: nat): (keys: set<EventKey>)
    ensures forall key :: key in keys <==>
      (key.task in orphans && Requeued(db, key.task, maxAttempts) && key == RecoveryKey(db, key.task))
  {
    set id | id in orphans && Requeued(db, id, maxAttempts) :: RecoveryKey(db, id)
  }

  /** One whole sweep: every locked orphan is recovered, all in one commit. */
  function Sweep(db: Db, orphans: set<TaskId>, maxAttempts: nat, now: Time): Db {
    db.(tasks := map id | id in db.tasks ::
                   if id in orphans then RecoveredRow(db.tasks[id], maxAttempts, now)
                   else db.tasks[id],
        outbox := map key | key in db.outbox.Keys + RecoveryKeys(db, orphans, maxAttempts) ::
                    if key in db.outbox then db.outbox[key]
                    else RecoveryEvent(db, key.task, now))
  }

  lemma SweepNothing(db: Db, maxAttempts: nat, now: Time)
    ensures Sweep(db, {}, maxAttempts, now) == db
  {
    var swept := Sweep(db, {}, maxAttempts, now);
    assert swept.tasks == db.tasks;
    assert swept.outbox == db.outbox;
  }

  /** The event keys of one more orphan. */
  lemma RecoveryKeysOneMore(db: Db, done: set<TaskId>, id: TaskId, maxAttempts: nat)
    requires id in db.tasks
    ensures RecoveryKeys(db, done + {id}, maxAttempts)
         == RecoveryKeys(db, done, maxAttempts)
          + (if Requeued(db, id, maxAttempts) then {RecoveryKey(db, id)} else {})
  {
  }

  /** The events of a sweep: those that were there, and one for every key it issues. */
  lemma SweepOutboxIs(db: Db, orphans: set<TaskId>, maxAttempts: nat, now: Time)
    ensures var outbox := Sweep(db, orphans, maxAttempts, now).outbox;
            && outbox.Keys == db.outbox.Keys + RecoveryKeys(db, orphans, maxAttempts)
            && forall key | key in outbox ::
                 (key in db.outbox ==> outbox[key] == db.outbox[key])
                 && (key !in db.outbox ==> key.task in db.tasks && outbox[key] == RecoveryEvent(db, key.task, now))
  {
    hide RecoveryEvent, RecoveredRow;
  }

  lemma SweepOutboxOneMore(db: Db, done: set<TaskId>, id: TaskId, maxAttempts: nat, now: Time)
    requires id in db.tasks && id !in done
    ensures Sweep(db, done + {id}, maxAttempts, now).outbox
         == SweepOutboxNext(db, Sweep(db, done, maxAttempts, now).outbox, id, maxAttempts, now)
  {
    hide Sweep, RecoveryKeys, Requeued, RecoveryEvent;
    var before := Sweep(db, done, maxAttempts, now).outbox;
    var after := Sweep(db, done + {id}, maxAttempts, now).outbox;
    var next := SweepOutboxNext(db, before, id, maxAttempts, now);
    RecoveryKeysOneMore(db, done, id, maxAttempts);
    SweepOutboxIs(db, done, maxAttempts, now);
    SweepOutboxIs(db, done + {id}, maxAttempts, now);
    assert after.Keys == next.Keys;
    assert after == next;
  }

  function SweepOutboxNext(db: Db, outbox: map<EventKey, Event>, id: TaskId, maxAttempts: nat, now: Time)
    : map<EventKey, Event>
    requires id in db.tasks
  {
    if Requeued(db, id, maxAttempts) && RecoveryKey(db, id) !in outbox
    then outbox[RecoveryKey(db, id) := RecoveryEvent(db, id, now)]
    else outbox
  }

  lemma RecoverTaskParts(before: Db, db: Db, id: TaskId, maxAttempts: nat, now: Time)
    requires id in before.tasks && id in db.tasks
    requires before.docs == db.docs && before.tasks[id] == db.tasks[id]
    ensures RecoverTask(before, id, maxAttempts, now)
         == Db(db.docs,
               before.tasks[id := RecoveredRow(db.tasks[id], maxAttempts, now)],
               SweepOutboxNext(db, before.outbox, id, maxAttempts, now))
  {
  }

  lemma SweepTasksOneMore(db: Db, done: set<TaskId>, id: TaskId, maxAttempts: nat, now: Time)
    requires id in db.tasks && id !in done
    ensures Sweep(db, done + {id}, maxAttempts, now).tasks
         == Sweep(db, done, maxAttempts, now).tasks[id := RecoveredRow(db.tasks[id], maxAttempts, now)]
  {
  }

  /** Recovering the orphans one after the other, in any order, is the sweep. */
  lemma SweepOneMore(db: Db, done: set<TaskId>, id: TaskId, maxAttempts: nat, now: Time)
    requires id in db.tasks && id !in done
    ensures RecoverTask(Sweep(db, done, maxAttempts, now), id, maxAttempts, now)
         == Sweep(db, done + {id}, maxAttempts, now)
  {
    RecoverTaskParts(Sweep(db, done, maxAttempts, now), db, id, maxAttempts, now);
    SweepTasksOneMore(db, done, id, maxAttempts, now);
    SweepOutboxOneMore(db, done, id, maxAttempts, now);
  }

  // ---------------------------------------------------------------- doc_service.py

  function FreshTask(tenant: string, doc: DocId, target: nat): Task {
    Task(tenant, doc, Pending, StageInit, 0, 0, 0, 1, None, None, None, target, None)
  }

  /** The commit of `upload_document`: document, task and first event together. */
  function Upload(db: Db, id: TaskId, doc: DocId, tenant: string, now: Time): Db {
    Db(db.docs[doc := Document(tenant, 1)],
       db.tasks[id := FreshTask(tenant, doc, 1)],
       Enqueue(db.outbox, EventKey(id, Initial), now, now))
  }

  /** The commit of `reingest_document`. */
  function Reingest(db: Db, id: TaskId, doc: DocId, now: Time): Db
    requires doc in db.docs
  {
    var d := db.docs[doc];
    db.(tasks := db.tasks[id := FreshTask(d.tenant, doc, d.active + 1)],
        outbox := Enqueue(db.outbox, EventKey(id, Initial), now, now))
  }

  /** Deleting a document cascades to its tasks and to their events. */
  function DeleteDocument(db: Db, doc: DocId): Db {
    var gone := set id | id in db.tasks && db.tasks[id].doc == doc;
    Db(db.docs - {doc},
       db.tasks - gone,
       map key | key in db.outbox && key.task !in gone :: db.outbox[key])
  }
}
