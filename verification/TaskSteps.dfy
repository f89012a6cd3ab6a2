/** Every step of the protocol keeps the invariant. */
module TaskSteps {
  import opened Options
  import opened TaskFsm
  import opened TaskRows
  import opened TaskProtocol
  import opened TaskInvariant

  // ---------------------------------------------------------------- shapes of commits

  /** The keys issued so far stay issued, and a queued row is only rewritten where it does not matter. */
  predicate QuietWrite(t: Task, t': Task) {
    && Evolves(t, t')
    && RowOk(t')
    && (t.status == RetryWaiting && t'.status != RetryWaiting ==> t'.attempt > t.attempt)
    && (Queued(t') ==>
          && t'.status == t.status && t'.attempt == t.attempt
          && t'.retryCount == t.retryCount && t'.nextAttempt == t.nextAttempt)
  }

  lemma BuiltSurvives(db: Db, db': Db, doc: DocId, g: nat)
    requires Built(db, doc, g)
    requires forall id :: BuiltBy(db, doc, g, id) ==> BuiltBy(db', doc, g, id)
    ensures Built(db', doc, g)
  {
    var id :| BuiltBy(db, doc, g, id);
    assert BuiltBy(db', doc, g, id);
  }

  /** Succeeded tasks survive with their document and target, and documents do not move. */
  lemma NoGapsKept(db: Db, db': Db)
    requires NoGaps(db)
    requires forall doc :: doc in db'.docs ==>
      db'.docs[doc].active <= 1 || (doc in db.docs && db'.docs[doc].active == db.docs[doc].active)
    requires forall id :: id in db.tasks && db.tasks[id].status == Succeeded && db.tasks[id].doc in db'.docs ==>
      id in db'.tasks && db'.tasks[id].status == Succeeded
      && db'.tasks[id].doc == db.tasks[id].doc && db'.tasks[id].target == db.tasks[id].target
    ensures NoGaps(db')
  {
    forall doc, g: nat | doc in db'.docs && 2 <= g <= db'.docs[doc].active
      ensures Built(db', doc, g)
    {
      BuiltSurvives(db, db', doc, g);
    }
  }

  /** Only the row `id` changed, and no event was lost or moved forward. */
  lemma LiveEventsKeptBut(db: Db, db': Db, id: TaskId)
    requires LiveEventsKept(db)
    requires forall other :: other in db'.tasks && other != id ==>
      other in db.tasks && db'.tasks[other] == db.tasks[other]
    requires forall key :: key in db.outbox && key.task in db'.tasks ==>
      key in db'.outbox && db.outbox[key].available <= db'.outbox[key].available
    requires id in db'.tasks && Queued(db'.tasks[id]) ==> HasLiveEvent(db', id)
    ensures LiveEventsKept(db')
  {
    forall other | other in db'.tasks && Queued(db'.tasks[other])
      ensures HasLiveEvent(db', other)
    {
      if other != id {
        assert HasLiveEvent(db, other);
      }
    }
  }

  lemma RowWriteKeepsRows(s: State, id: TaskId, row: Task, outbox: map<EventKey, Event>)
    requires RowsOk(s.db) && id in s.db.tasks
    requires Evolves(s.db.tasks[id], row) && RowOk(row) && RowFits(s.db.docs, row)
    requires s.db.outbox.Keys <= outbox.Keys
    ensures RowsOk(s.db.(tasks := s.db.tasks[id := row], outbox := outbox))
    ensures Commit(s, s.db.(tasks := s.db.tasks[id := row], outbox := outbox))
  {
    hide RowOk, RowFits;
    var db' := s.db.(tasks := s.db.tasks[id := row], outbox := outbox);
    forall other | other in s.db.tasks
      ensures Evolves(s.db.tasks[other], db'.tasks[other])
    {
    }
  }

  lemma RowWriteKeepsIssued(db: Db, id: TaskId, row: Task)
    requires EventsIssued(db) && id in db.tasks && QuietWrite(db.tasks[id], row)
    ensures EventsIssued(db.(tasks := db.tasks[id := row]))
  {
    var db' := db.(tasks := db.tasks[id := row]);
    forall key | key in db'.outbox
      ensures key.task in db'.tasks && Issued(db'.tasks[key.task], key.kind)
    {
      assert Issued(db.tasks[key.task], key.kind);
    }
  }

  lemma RowWriteKeepsDb(s: State, id: TaskId, row: Task)
    requires DbOk(s.db) && IdsUsed(s) && id in s.db.tasks
    requires QuietWrite(s.db.tasks[id], row) && RowFits(s.db.docs, row)
    ensures DbOk(s.db.(tasks := s.db.tasks[id := row]))
    ensures Commit(s, s.db.(tasks := s.db.tasks[id := row]))
  {
    var db' := s.db.(tasks := s.db.tasks[id := row]);
    RowWriteKeepsRows(s, id, row, s.db.outbox);
    RowWriteKeepsIssued(s.db, id, row);
    if Queued(row) {
      assert HasLiveEvent(s.db, id);
      assert HasLiveEvent(db', id);
    }
    LiveEventsKeptBut(s.db, db', id);
    NoGapsKept(s.db, db');
  }

  /** A transaction that changes one outbox row. */
  lemma EventWriteKeepsDb(s: State, key: EventKey, e: Event)
    requires DbOk(s.db) && key in s.db.outbox
    requires e.available >= s.db.outbox[key].available || NotEarly(s.db, key, e.available)
    ensures DbOk(s.db.(outbox := s.db.outbox[key := e]))
    ensures Commit(s, s.db.(outbox := s.db.outbox[key := e]))
  {
    var db' := s.db.(outbox := s.db.outbox[key := e]);
    forall id | id in db'.tasks && Queued(db'.tasks[id])
      ensures HasLiveEvent(db', id)
    {
      assert HasLiveEvent(s.db, id);
    }
    NoGapsKept(s.db, db');
  }

  lemma NoCommit(s: State)
    ensures Commit(s, s.db)
  {
  }

  // ---------------------------------------------------------------- commits to a task row

  lemma AcquireKeepsDb(s: State, id: TaskId, worker: string, now: Time)
    requires DbOk(s.db) && IdsUsed(s)
    ensures DbOk(AcquireLease(s.db, id, worker, ACQUIRE_LEASE, now))
    ensures Commit(s, AcquireLease(s.db, id, worker, ACQUIRE_LEASE, now))
  {
    if CanAcquire(s.db, id, now) {
      RowWriteKeepsDb(s, id, AcquiredRow(s.db.tasks[id], worker, ACQUIRE_LEASE, now));
    }
  }

  lemma FailKeepsDb(s: State, id: TaskId, token: nat, worker: string, error: ErrorText)
    requires DbOk(s.db) && IdsUsed(s)
    ensures DbOk(UpdateStatusCas(s.db, id, Running, Failed, token, Failure(worker, error)))
    ensures Commit(s, UpdateStatusCas(s.db, id, Running, Failed, token, Failure(worker, error)))
  {
    if CasMatches(s.db, id, Running, token, Some(worker)) {
      RowWriteKeepsDb(s, id, CasRow(s.db.tasks[id], Failed, Failure(worker, error)));
    }
  }

  lemma HeartbeatKeepsDb(s: State, id: TaskId, worker: string, token: nat, expiry: Time)
    requires DbOk(s.db) && IdsUsed(s)
    ensures DbOk(Heartbeat(s.db, id, worker, token, expiry))
    ensures Commit(s, Heartbeat(s.db, id, worker, token, expiry))
  {
    if Owns(s.db, id, worker, token) {
      RowWriteKeepsDb(s, id, s.db.tasks[id].(lease := Some(expiry)));
    }
  }

  lemma ProgressKeepsDb(s: State, id: TaskId, worker: string, token: nat, stage: Stage, percent: int)
    requires DbOk(s.db) && IdsUsed(s)
    ensures DbOk(Progress(s.db, id, worker, token, stage, percent))
    ensures Commit(s, Progress(s.db, id, worker, token, stage, percent))
  {
    if Owns(s.db, id, worker, token) {
      RowWriteKeepsDb(s, id, s.db.tasks[id].(stage := stage, progress := Max(0, Min(100, percent))));
    }
  }

  /** A worker finalises with the target of the row it acquired, and publishes unless partial. */
  predicate FinalisesOwnTarget(db: Db, c: Completion) {
    && c.final == (if c.publish then Succeeded else PartialSucceeded)
    && (c.task in db.tasks ==> db.tasks[c.task].target == c.generation)
  }

  lemma CompleteKeepsDb(s: State, c: Completion)
    requires DbOk(s.db) && IdsUsed(s) && FinalisesOwnTarget(s.db, c)
    ensures DbOk(Complete(s.db, c)) && Commit(s, Complete(s.db, c))
  {
    if CanComplete(s.db, c) {
      var row := CompletedRow(s.db.tasks[c.task], c.final);
      if c.publish {
        PublishKeepsRows(s, c);
        PublishKeepsNoGaps(s.db, c);
        var db' := Complete(s.db, c);
        forall key | key in db'.outbox
          ensures key.task in db'.tasks && Issued(db'.tasks[key.task], key.kind)
        {
          assert Issued(s.db.tasks[key.task], key.kind);
        }
        forall other | other in db'.tasks && Queued(db'.tasks[other])
          ensures HasLiveEvent(db', other)
        {
          assert HasLiveEvent(s.db, other);
        }
      } else {
        RowWriteKeepsDb(s, c.task, row);
      }
    }
  }

  lemma PublishKeepsRows(s: State, c: Completion)
    requires RowsOk(s.db) && FinalisesOwnTarget(s.db, c) && c.publish && CanComplete(s.db, c)
    ensures RowsOk(Complete(s.db, c)) && Commit(s, Complete(s.db, c))
  {
    var db' := Complete(s.db, c);
    forall id | id in db'.tasks
      ensures RowOk(db'.tasks[id]) && RowFits(db'.docs, db'.tasks[id])
    {
      assert RowOk(s.db.tasks[id]) && RowFits(s.db.docs, s.db.tasks[id]);
    }
  }

  /** The published generation is the old one or its successor, and the task itself has built it. */
  lemma PublishKeepsNoGaps(db: Db, c: Completion)
    requires RowsOk(db) && NoGaps(db) && FinalisesOwnTarget(db, c) && c.publish && CanComplete(db, c)
    ensures NoGaps(Complete(db, c))
  {
    var db' := Complete(db, c);
    assert RowFits(db.docs, db.tasks[c.task]);
    forall doc, g: nat | doc in db'.docs && 2 <= g <= db'.docs[doc].active
      ensures Built(db', doc, g)
    {
      if g <= db.docs[doc].active {
        BuiltSurvives(db, db', doc, g);
      } else {
        assert BuiltBy(db', doc, g, c.task);
      }
    }
  }

  // ---------------------------------------------------------------- commits that enqueue

  /** A reopened row and its new live event, in one commit. */
  lemma RequeueKeepsIssued(db: Db, id: TaskId, row: Task, available: Time, now: Time)
    requires EventsIssued(db) && id in db.tasks && db.tasks[id].status != RetryWaiting
    requires Evolves(db.tasks[id], row) && row.status == Pending && row.retryCount > db.tasks[id].retryCount
    ensures EventsIssued(db.(tasks := db.tasks[id := row],
                             outbox := Enqueue(db.outbox, EventKey(id, Retry(row.retryCount)), available, now)))
  {
    var key := EventKey(id, Retry(row.retryCount));
    var db' := db.(tasks := db.tasks[id := row], outbox := Enqueue(db.outbox, key, available, now));
    forall k | k in db'.outbox
      ensures k.task in db'.tasks && Issued(db'.tasks[k.task], k.kind)
    {
      if k != key {
        assert Issued(db.tasks[k.task], k.kind);
      }
    }
  }

  lemma RequeueKeepsDb(s: State, id: TaskId, row: Task, available: Time, now: Time)
    requires DbOk(s.db) && id in s.db.tasks && s.db.tasks[id].status != RetryWaiting
    requires Evolves(s.db.tasks[id], row) && RowOk(row) && RowFits(s.db.docs, row)
    requires row.status == Pending && row.retryCount > s.db.tasks[id].retryCount
    ensures var db' := s.db.(tasks := s.db.tasks[id := row],
                             outbox := Enqueue(s.db.outbox, EventKey(id, Retry(row.retryCount)), available, now));
            DbOk(db') && Commit(s, db')
  {
    hide RowOk, RowFits, EventsIssued, RowsOk;
    var outbox := Enqueue(s.db.outbox, EventKey(id, Retry(row.retryCount)), available, now);
    var db' := s.db.(tasks := s.db.tasks[id := row], outbox := outbox);
    RowWriteKeepsRows(s, id, row, outbox);
    RequeueKeepsIssued(s.db, id, row, available, now);
    LiveEventsKeptBut(s.db, db', id);
    NoGapsKept(s.db, db');
  }

  /** A retry always writes a key that was never used, so `enqueue` inserts. */
  lemma RetryKeyIsFresh(db: Db, id: TaskId)
    requires EventsIssued(db) && id in db.tasks
    ensures EventKey(id, Retry(db.tasks[id].retryCount + 1)) !in db.outbox
  {
  }

  lemma RetryKeepsDb(s: State, id: TaskId, tenant: string, now: Time)
    requires DbOk(s.db)
    ensures DbOk(RetryTask(s.db, id, tenant, now)) && Commit(s, RetryTask(s.db, id, tenant, now))
  {
    if CanRetry(s.db, id, tenant) {
      RequeueKeepsDb(s, id, RetriedRow(s.db.tasks[id]), now, now);
    }
  }

  /** So does recovery. */
  lemma RecoveryKeyIsFresh(db: Db, id: TaskId)
    requires EventsIssued(db) && id in db.tasks
    ensures RecoveryKey(db, id) !in db.outbox
  {
  }

  lemma SweepKeepsRow(db: Db, t: Task, maxAttempts: nat, now: Time)
    requires RowOk(t) && RowFits(db.docs, t) && t.status == Running
    ensures var t' := RecoveredRow(t, maxAttempts, now);
            RowOk(t') && RowFits(db.docs, t') && Evolves(t, t') && t'.attempt == t.attempt + 1
            && (t'.status == RetryWaiting || t'.status == DeadLetter)
  {
    if t.attempt + 1 < maxAttempts {
      assert RecoveredRow(t, maxAttempts, now).status == RetryWaiting;
    } else {
      assert RecoveredRow(t, maxAttempts, now).status == DeadLetter;
    }
  }

  lemma SweepKeepsRows(s: State, orphans: set<TaskId>, now: Time)
    requires RowsOk(s.db)
    requires forall id :: id in orphans ==> id in s.db.tasks && s.db.tasks[id].status == Running
    ensures RowsOk(Sweep(s.db, orphans, s.maxAttempts, now))
    ensures Commit(s, Sweep(s.db, orphans, s.maxAttempts, now))
  {
    forall id | id in s.db.tasks
      ensures var t' := Sweep(s.db, orphans, s.maxAttempts, now).tasks[id];
              RowOk(t') && RowFits(s.db.docs, t') && Evolves(s.db.tasks[id], t')
    {
      if id in orphans {
        SweepKeepsRow(s.db, s.db.tasks[id], s.maxAttempts, now);
      }
    }
  }

  lemma SweepIssues(s: State, orphans: set<TaskId>, now: Time, key: EventKey)
    requires DbOk(s.db)
    requires forall id :: id in orphans ==> id in s.db.tasks && s.db.tasks[id].status == Running
    requires key in Sweep(s.db, orphans, s.maxAttempts, now).outbox
    ensures key.task in s.db.tasks
    ensures Issued(Sweep(s.db, orphans, s.maxAttempts, now).tasks[key.task], key.kind)
  {
    if key in s.db.outbox {
      assert Issued(s.db.tasks[key.task], key.kind);
    } else {
      assert key in RecoveryKeys(s.db, orphans, s.maxAttempts);
    }
  }

  lemma SweepKeepsLiveEvent(s: State, orphans: set<TaskId>, now: Time, id: TaskId)
    requires DbOk(s.db)
    requires forall o :: o in orphans ==> o in s.db.tasks && s.db.tasks[o].status == Running
    requires id in s.db.tasks && Queued(Sweep(s.db, orphans, s.maxAttempts, now).tasks[id])
    ensures HasLiveEvent(Sweep(s.db, orphans, s.maxAttempts, now), id)
  {
    if id in orphans {
      RecoveryKeyIsFresh(s.db, id);
      assert RowFits(s.db.docs, s.db.tasks[id]);
      assert RecoveryKey(s.db, id) in RecoveryKeys(s.db, orphans, s.maxAttempts);
    } else {
      assert HasLiveEvent(s.db, id);
    }
  }

  lemma SweepKeepsDb(s: State, orphans: set<TaskId>, now: Time)
    requires DbOk(s.db)
    requires forall id :: id in orphans ==> id in s.db.tasks && s.db.tasks[id].status == Running
    ensures DbOk(Sweep(s.db, orphans, s.maxAttempts, now))
    ensures Commit(s, Sweep(s.db, orphans, s.maxAttempts, now))
  {
    var db' := Sweep(s.db, orphans, s.maxAttempts, now);
    SweepKeepsRows(s, orphans, now);
    forall key | key in db'.outbox
      ensures key.task in db'.tasks && Issued(db'.tasks[key.task], key.kind)
    {
      SweepIssues(s, orphans, now, key);
    }
    forall id | id in db'.tasks && Queued(db'.tasks[id])
      ensures HasLiveEvent(db', id)
    {
      SweepKeepsLiveEvent(s, orphans, now, id);
    }
    NoGapsKept(s.db, db');
  }

  // ---------------------------------------------------------------- commits of the API

  lemma NewTaskKeepsDb(s: State, docs: map<DocId, Document>, id: TaskId, row: Task, now: Time)
    requires DbOk(s.db) && IdsUsed(s) && id !in s.usedTasks
    requires forall doc :: doc in s.db.docs ==> doc in docs && docs[doc] == s.db.docs[doc]
    requires forall doc :: doc in docs && doc !in s.db.docs ==> docs[doc].active == 1
    requires row.doc in docs && row == FreshTask(docs[row.doc].tenant, row.doc, row.target)
    requires 1 <= row.target <= docs[row.doc].active + 1
    ensures var db' := Db(docs, s.db.tasks[id := row],
                          Enqueue(s.db.outbox, EventKey(id, Initial), now, now));
            DbOk(db') && Commit(s, db')
  {
    var db' := Db(docs, s.db.tasks[id := row], Enqueue(s.db.outbox, EventKey(id, Initial), now, now));
    NewTaskKeepsRows(s.db, db', id);
    NewTaskIssues(s, db', id, row, now);
    NewTaskHasEvent(db', id, row, s.db.outbox, now);
    NewTaskCommits(s, db', id, row, now);
    hide Commit, EventsIssued, RowOk, RowFits, Issued, HasLiveEvent, FreshTask;
    LiveEventsKeptBut(s.db, db', id);
    NoGapsKept(s.db, db');
  }

  lemma NewTaskCommits(s: State, db': Db, id: TaskId, row: Task, now: Time)
    requires IdsUsed(s) && id !in s.usedTasks && db'.tasks == s.db.tasks[id := row]
    requires db'.outbox == Enqueue(s.db.outbox, EventKey(id, Initial), now, now)
    ensures Commit(s, db')
  {
  }

  lemma NewTaskHasEvent(db': Db, id: TaskId, row: Task, outbox: map<EventKey, Event>, now: Time)
    requires id in db'.tasks && db'.tasks[id] == row && row == FreshTask(row.tenant, row.doc, row.target)
    requires db'.outbox == Enqueue(outbox, EventKey(id, Initial), now, now)
    ensures HasLiveEvent(db', id)
  {
  }

  lemma NewTaskIssues(s: State, db': Db, id: TaskId, row: Task, now: Time)
    requires EventsIssued(s.db) && IdsUsed(s) && id !in s.usedTasks && row == FreshTask(row.tenant, row.doc, row.target)
    requires db'.tasks == s.db.tasks[id := row]
    requires db'.outbox == Enqueue(s.db.outbox, EventKey(id, Initial), now, now)
    ensures EventsIssued(db')
  {
  }

  lemma NewTaskKeepsRows(db: Db, db': Db, id: TaskId)
    requires RowsOk(db)
    requires forall doc :: doc in db.docs ==> doc in db'.docs && db'.docs[doc] == db.docs[doc]
    requires forall other :: other in db'.tasks && other != id ==>
      other in db.tasks && db'.tasks[other] == db.tasks[other]
    requires id in db'.tasks && RowOk(db'.tasks[id]) && RowFits(db'.docs, db'.tasks[id])
    ensures RowsOk(db')
  {
    forall other | other in db'.tasks
      ensures RowOk(db'.tasks[other]) && RowFits(db'.docs, db'.tasks[other])
    {
      if other != id {
        assert RowFits(db.docs, db.tasks[other]);
      }
    }
  }

  lemma DeleteKeepsDb(s: State, doc: DocId)
    requires DbOk(s.db)
    ensures DbOk(DeleteDocument(s.db, doc)) && Commit(s, DeleteDocument(s.db, doc))
  {
    var db' := DeleteDocument(s.db, doc);
    forall id | id in db'.tasks
      ensures RowOk(db'.tasks[id]) && RowFits(db'.docs, db'.tasks[id])
    {
      assert RowFits(s.db.docs, s.db.tasks[id]);
    }
    forall id | id in db'.tasks && Queued(db'.tasks[id])
      ensures HasLiveEvent(db', id)
    {
      assert HasLiveEvent(s.db, id);
    }
    NoGapsKept(s.db, db');
  }

  // ---------------------------------------------------------------- all commits

  lemma OwnerFinalisesOwnTarget(s: State, i: nat, partial: bool)
    requires Inv(s) && IsOwning(s, i)
    ensures FinalisesOwnTarget(s.db, CompletionOf(s, i, partial))
  {
    assert SessionOk(s, s.sessions[i]);
  }

  /** A failure is never written with a time before the one at which its event was found due. */
  lemma FailureWrittenLate(s: State, p: nat, now: Time)
    requires Inv(s) && Enabled(s, WriteFailureStep(p, now)) && s.publishers[p].event in s.db.outbox
    ensures var key := s.publishers[p].event;
            var e' := FailedEvent(s.db.outbox[key], s.publishers[p].phase.read, now);
            e'.available == s.db.outbox[key].available || NotEarly(s.db, key, e'.available)
  {
    var Publisher(key, Recording(read, since)) := s.publishers[p];
    assert PublisherOk(s, s.publishers[p]);
    NotEarlyLater(s.db, key, since, DueAgain(read, now));
  }

  lemma OutboxStepKeepsDb(s: State, step: Step)
    requires Inv(s) && Enabled(s, step)
    requires step.ClaimStep? || step.WriteFailureStep? || step.MarkStep?
    ensures DbOk(DbAfter(s, step)) && Commit(s, DbAfter(s, step))
  {
    hide DbOk, Commit, FailedEvent;
    InvHasDb(s);
    NoCommit(s);
    match step
    case ClaimStep(key, now) =>
      EventWriteKeepsDb(s, key, ClaimedEvent(s.db.outbox[key], now));
    case WriteFailureStep(p, now) =>
      var Publisher(key, Recording(read, since)) := s.publishers[p];
      if key in s.db.outbox {
        FailureWrittenLate(s, p, now);
        EventWriteKeepsDb(s, key, FailedEvent(s.db.outbox[key], read, now));
      }
    case MarkStep(p) =>
      var key := s.publishers[p].event;
      if CanMark(s.db, key) {
        EventWriteKeepsDb(s, key, s.db.outbox[key].(status := EventPublished, lease := None));
      }
  }

  lemma InvHasDb(s: State)
    requires Inv(s)
    ensures DbOk(s.db)
  {
  }

  lemma ApiStepKeepsDb(s: State, step: Step)
    requires Inv(s) && Enabled(s, step)
    requires step.UploadStep? || step.ReingestStep? || step.DeleteStep? || step.RetryStep? || step.SweepStep?
    ensures DbOk(DbAfter(s, step)) && Commit(s, DbAfter(s, step))
  {
    match step
    case UploadStep(id, doc, tenant) =>
      NewTaskKeepsDb(s, s.db.docs[doc := Document(tenant, 1)], id, FreshTask(tenant, doc, 1), s.clock);
    case ReingestStep(id, doc) =>
      var d := s.db.docs[doc];
      NewTaskKeepsDb(s, s.db.docs, id, FreshTask(d.tenant, doc, d.active + 1), s.clock);
    case DeleteStep(doc) => DeleteKeepsDb(s, doc);
    case RetryStep(id, tenant) => RetryKeepsDb(s, id, tenant, s.clock);
    case SweepStep(locked, now) => SweepKeepsDb(s, OrphansOf(s, locked, now), now);
  }

  predicate IsWorkerStep(step: Step) {
    || step.AcquireStep? || step.DocMissingStep? || step.HeartbeatStep? || step.ProgressStep?
    || step.CompleteStep? || step.FailStep?
  }

  lemma WorkerStepKeepsDb(s: State, step: Step)
    requires Inv(s) && Enabled(s, step) && IsWorkerStep(step)
    ensures DbOk(DbAfter(s, step)) && Commit(s, DbAfter(s, step))
  {
    match step
    case AcquireStep(i, now) =>
      AcquireKeepsDb(s, s.sessions[i].event.task, s.sessions[i].worker, now);
    case CompleteStep(i, partial) =>
      OwnerFinalisesOwnTarget(s, i, partial);
      CompleteKeepsDb(s, CompletionOf(s, i, partial));
    case _ => HolderStepKeepsDb(s, step);
  }

  lemma HolderStepKeepsDb(s: State, step: Step)
    requires DbOk(s.db) && IdsUsed(s) && Enabled(s, step)
    requires step.DocMissingStep? || step.HeartbeatStep? || step.ProgressStep? || step.FailStep?
    ensures DbOk(DbAfter(s, step)) && Commit(s, DbAfter(s, step))
  {
    hide DbOk, IdsUsed, Commit;
    var x := s.sessions[step.i];
    var h := x.phase.held;
    match step
    case DocMissingStep(i) =>
      FailKeepsDb(s, h.task, h.token, x.worker, MissingDocument);
    case HeartbeatStep(i, now) =>
      HeartbeatKeepsDb(s, h.task, x.worker, h.token, now + HEARTBEAT_LEASE);
    case ProgressStep(i, stage, percent) =>
      ProgressKeepsDb(s, h.task, x.worker, h.token, stage, percent);
    case FailStep(i, error) => FailKeepsDb(s, h.task, h.token, x.worker, error);
  }

  lemma StepKeepsDb(s: State, step: Step)
    requires Inv(s) && Enabled(s, step)
    ensures DbOk(DbAfter(s, step)) && Commit(s, DbAfter(s, step))
  {
    if step.ClaimStep? || step.WriteFailureStep? || step.MarkStep? {
      OutboxStepKeepsDb(s, step);
    } else if step.UploadStep? || step.ReingestStep? || step.DeleteStep? || step.RetryStep? || step.SweepStep? {
      ApiStepKeepsDb(s, step);
    } else if IsWorkerStep(step) {
      WorkerStepKeepsDb(s, step);
    } else {
      assert DbAfter(s, step) == s.db;
      NoCommit(s);
    }
  }

  lemma StepKeepsIdsUsed(s: State, step: Step)
    requires IdsUsed(s) && Enabled(s, step)
    ensures IdsUsed(Apply(s, step))
  {
    NoOtherDocs(s, step);
  }

  lemma NoOtherDocs(s: State, step: Step)
    requires Enabled(s, step)
    ensures Apply(s, step).usedTasks ==
      s.usedTasks + (if step.UploadStep? || step.ReingestStep? then {step.id} else {})
    ensures Apply(s, step).usedDocs == s.usedDocs + (if step.UploadStep? then {step.doc} else {})
    ensures DbAfter(s, step).docs.Keys <= s.db.docs.Keys + (if step.UploadStep? then {step.doc} else {})
    ensures DbAfter(s, step).tasks.Keys <=
      s.db.tasks.Keys + (if step.UploadStep? || step.ReingestStep? then {step.id} else {})
  {
    hide Enqueue, FailedEvent, ClaimedEvent, PublishBackoff, RecoveryBackoff, AcquiredRow, CasRow, CompletedRow, RecoveredRow, RetriedRow, HoldingOf;
  }

  lemma TimeAndIdsGrow(s: State, step: Step)
    requires Enabled(s, step)
    ensures s.usedTasks <= Apply(s, step).usedTasks && s.clock <= Apply(s, step).clock
  {
  }

  // ---------------------------------------------------------------- publication

  lemma SentStaysSent(stream: seq<Message>, more: seq<Message>, key: EventKey)
    requires Sent(stream, key)
    ensures Sent(stream + more, key)
  {
    var m :| 0 <= m < |stream| && stream[m].event == key;
    assert (stream + more)[m].event == key;
  }

  /** An event row says that it was sent only after the mark of a publisher that sent it, or after a late
      failure write by one that had read as much. */
  lemma OnlySendersSaySo(s: State, step: Step, key: EventKey)
    requires Enabled(s, step)
    requires key in DbAfter(s, step).outbox && Delivers(DbAfter(s, step).outbox[key])
    ensures (key in s.db.outbox && Delivers(s.db.outbox[key]))
         || (step.MarkStep? && key == s.publishers[step.p].event)
         || (step.WriteFailureStep? && key == s.publishers[step.p].event && Delivers(s.publishers[step.p].phase.read))
  {
  }

  lemma StepKeepsPublished(s: State, step: Step)
    requires Inv(s) && Enabled(s, step)
    ensures PublishedWasSent(Apply(s, step))
  {
    hide Inv, Enabled, Apply, DbAfter, Delivers;
    InvHasPublished(s);
    var s' := Apply(s, step);
    StreamGrows(s, step);
    var more := s'.stream[|s.stream|..];
    assert s'.stream == s.stream + more;
    forall key | key in s'.db.outbox && Delivers(s'.db.outbox[key])
      ensures Sent(s'.stream, key)
    {
      SenderKnows(s, step, key);
      SentStaysSent(s.stream, more, key);
    }
    forall p | 0 <= p < |s'.publishers| && KnowsSent(s'.publishers[p])
      ensures Sent(s'.stream, s'.publishers[p].event)
    {
      KnowsFrom(s, step, p);
      if Sent(s.stream, s'.publishers[p].event) {
        SentStaysSent(s.stream, more, s'.publishers[p].event);
      }
    }
  }

  lemma InvHasPublished(s: State)
    requires Inv(s)
    ensures PublishedWasSent(s)
  {
  }

  lemma SenderKnows(s: State, step: Step, key: EventKey)
    requires PublishedWasSent(s) && Enabled(s, step)
    requires key in Apply(s, step).db.outbox && Delivers(Apply(s, step).db.outbox[key])
    ensures Sent(s.stream, key)
  {
    hide Sent, Delivers;
    OnlySendersSaySo(s, step, key);
    if step.MarkStep? || step.WriteFailureStep? {
      assert KnowsSent(s.publishers[step.p]) ==> Sent(s.stream, s.publishers[step.p].event);
    }
  }

  /** A publisher knows it by its own append, or by the row it reads. */
  lemma KnowsFrom(s: State, step: Step, p: nat)
    requires PublishedWasSent(s) && Enabled(s, step)
    requires p < |Apply(s, step).publishers| && KnowsSent(Apply(s, step).publishers[p])
    ensures var key := Apply(s, step).publishers[p].event;
            || Sent(s.stream, key)
            || Sent(Apply(s, step).stream, key)
  {
    hide Delivers, Enqueue, Sweep, FailedEvent;
    var s' := Apply(s, step);
    if p < |s.publishers| && KnowsSent(s.publishers[p]) {
      assert s'.publishers[p].event == s.publishers[p].event;
    } else if step.XaddStep? {
      assert s'.stream[|s.stream|].event == s'.publishers[p].event;
    }
  }

  lemma StreamGrows(s: State, step: Step)
    requires Enabled(s, step)
    ensures s.stream <= Apply(s, step).stream
    ensures forall p :: 0 <= p < |s.publishers| ==>
      p < |Apply(s, step).publishers| && Apply(s, step).publishers[p].event == s.publishers[p].event
  {
  }

  // ---------------------------------------------------------------- participants

  lemma SetPublisherKeepsControl(s: State, p: nat, phase: PublisherPhase)
    requires ControlOk(s) && p < |s.publishers|
    requires phase == PublisherGone || s.publishers[p].phase != PublisherGone
    requires phase.Recording? ==> phase.since == s.clock
    ensures ControlOk(SetPublisher(s, p, phase))
  {
    var s' := SetPublisher(s, p, phase);
    forall q | 0 <= q < |s'.publishers|
      ensures PublisherOk(s', s'.publishers[q])
    {
      assert PublisherOk(s, s.publishers[q]);
    }
    assert forall m :: 0 <= m < |s.stream| ==> MessageOk(s, s.stream[m]) ==> MessageOk(s', s'.stream[m]);
    assert forall m :: m in s.acked ==> AckOk(s, m) ==> AckOk(s', m);
    assert forall i :: 0 <= i < |s.sessions| ==> SessionOk(s, s.sessions[i]) ==> SessionOk(s', s'.sessions[i]);
  }

  lemma AddPublisherKeepsControl(s: State, p: Publisher)
    requires ControlOk(s) && PublisherOk(s, p)
    ensures ControlOk(s.(publishers := s.publishers + [p]))
  {
    var s' := s.(publishers := s.publishers + [p]);
    forall q | 0 <= q < |s'.publishers|
      ensures PublisherOk(s', s'.publishers[q])
    {
      assert PublisherOk(s, s'.publishers[q]);
    }
    assert forall m :: 0 <= m < |s.stream| ==> MessageOk(s, s.stream[m]) ==> MessageOk(s', s'.stream[m]);
    assert forall m :: m in s.acked ==> AckOk(s, m) ==> AckOk(s', m);
    assert forall i :: 0 <= i < |s.sessions| ==> SessionOk(s, s.sessions[i]) ==> SessionOk(s', s'.sessions[i]);
  }

  lemma AddMessageKeepsControl(s: State, m: Message)
    requires ControlOk(s) && MessageOk(s, m)
    ensures ControlOk(s.(stream := s.stream + [m]))
  {
    var s' := s.(stream := s.stream + [m]);
    forall n | 0 <= n < |s'.stream|
      ensures MessageOk(s', s'.stream[n])
    {
      assert MessageOk(s, s'.stream[n]);
    }
    assert forall q :: 0 <= q < |s.publishers| ==>
      PublisherOk(s, s.publishers[q]) ==> PublisherOk(s', s'.publishers[q]);
    assert forall n :: n in s.acked ==> AckOk(s, n) ==> AckOk(s', n);
    forall i | 0 <= i < |s.sessions|
      ensures SessionOk(s', s'.sessions[i])
    {
      assert SessionOk(s, s.sessions[i]);
    }
  }

  lemma AddSessionKeepsControl(s: State, x: Session)
    requires ControlOk(s) && SessionOk(s, x)
    ensures ControlOk(s.(sessions := s.sessions + [x]))
  {
    var s' := s.(sessions := s.sessions + [x]);
    forall i | 0 <= i < |s'.sessions|
      ensures SessionOk(s', s'.sessions[i])
    {
      assert SessionOk(s, s'.sessions[i]);
    }
    assert forall m :: 0 <= m < |s.stream| ==> MessageOk(s, s.stream[m]) ==> MessageOk(s', s'.stream[m]);
    assert forall m :: m in s.acked ==> AckOk(s, m) ==> AckOk(s', m);
    assert forall q :: 0 <= q < |s.publishers| ==>
      PublisherOk(s, s.publishers[q]) ==> PublisherOk(s', s'.publishers[q]);
  }

  lemma SetSessionKeepsControl(s: State, i: nat, phase: SessionPhase)
    requires ControlOk(s) && i < |s.sessions| && SessionOk(s, s.sessions[i].(phase := phase))
    ensures ControlOk(SetSession(s, i, phase))
  {
    var s' := SetSession(s, i, phase);
    forall j | 0 <= j < |s'.sessions|
      ensures SessionOk(s', s'.sessions[j])
    {
      assert SessionOk(s, s'.sessions[j]);
    }
    assert forall m :: 0 <= m < |s.stream| ==> MessageOk(s, s.stream[m]) ==> MessageOk(s', s'.stream[m]);
    assert forall m :: m in s.acked ==> AckOk(s, m) ==> AckOk(s', m);
    assert forall q :: 0 <= q < |s.publishers| ==>
      PublisherOk(s, s.publishers[q]) ==> PublisherOk(s', s'.publishers[q]);
  }

  lemma AddAckKeepsControl(s: State, m: nat)
    requires ControlOk(s) && AckOk(s, m)
    ensures ControlOk(s.(acked := s.acked + {m}))
  {
    var s' := s.(acked := s.acked + {m});
    assert forall n :: 0 <= n < |s.stream| ==> MessageOk(s, s.stream[n]) ==> MessageOk(s', s'.stream[n]);
    assert forall n :: n in s'.acked ==> AckOk(s, n) ==> AckOk(s', n);
    assert forall q :: 0 <= q < |s.publishers| ==>
      PublisherOk(s, s.publishers[q]) ==> PublisherOk(s', s'.publishers[q]);
    assert forall j :: 0 <= j < |s.sessions| ==> SessionOk(s, s.sessions[j]) ==> SessionOk(s', s'.sessions[j]);
  }

  /** The state after the commit, before the actor takes note of it. */
  function Committed(s: State, step: Step): State
    requires Enabled(s, step)
  {
    var s' := Apply(s, step);
    s.(clock := s'.clock, db := s'.db, usedTasks := s'.usedTasks, usedDocs := s'.usedDocs)
  }

  lemma CommittedOk(s: State, step: Step)
    requires Inv(s) && Enabled(s, step)
    ensures ControlOk(Committed(s, step))
  {
    StepKeepsDb(s, step);
    TimeAndIdsGrow(s, step);
    CommitKeepsControl(s, Committed(s, step));
  }

  /** The heart of the matter: a delivery that does not acquire the task was not its live wake-up. */
  lemma SkippedMessageIsSpent(s: State, i: nat, now: Time)
    requires Inv(s) && Enabled(s, AcquireStep(i, now)) && !CanAcquire(s.db, s.sessions[i].event.task, now)
    ensures KeySpent(s.db, s.sessions[i].event)
  {
    var key := s.sessions[i].event;
    assert SessionOk(s, s.sessions[i]);
    if key.task in s.db.tasks {
      assert Issued(s.db.tasks[key.task], key.kind) && RowOk(s.db.tasks[key.task]);
      SpentIsNotLive(s.db.tasks[key.task], key.kind);
    }
  }

  lemma AcquireNoted(s: State, i: nat, now: Time)
    requires Inv(s) && Enabled(s, AcquireStep(i, now))
    ensures ControlOk(Apply(s, AcquireStep(i, now)))
  {
    var step := AcquireStep(i, now);
    var mid := Committed(s, step);
    var key := s.sessions[i].event;
    CommittedOk(s, step);
    assert SessionOk(s, s.sessions[i]) && SessionOk(mid, mid.sessions[i]);
    if CanAcquire(s.db, key.task, now) {
      var t := s.db.tasks[key.task];
      assert Issued(t, key.kind) && RowOk(t);
      var phase := Owning(HoldingOf(key.task, mid.db.tasks[key.task]));
      assert KeySpent(mid.db, key);
      SetSessionKeepsControl(mid, i, phase);
      assert Apply(s, step) == SetSession(mid, i, phase);
    } else {
      SkippedMessageIsSpent(s, i, now);
      SetSessionKeepsControl(mid, i, Acking);
      assert Apply(s, step) == SetSession(mid, i, Acking);
    }
  }

  predicate IsPublication(step: Step) {
    || step.ClaimStep? || step.XaddStep? || step.ReadFailureStep? || step.WriteFailureStep? || step.MarkStep?
    || step.PublisherCrash?
  }

  lemma PublisherNoted(s: State, step: Step)
    requires Inv(s) && Enabled(s, step)
    requires IsPublication(step)
    ensures ControlOk(Apply(s, step))
  {
    var mid := Committed(s, step);
    CommittedOk(s, step);
    match step
    case ClaimStep(key, now) =>
      ClaimedIsKnown(s, key, now);
      AddPublisherKeepsControl(mid, Publisher(key, Claimed));
    case XaddStep(p, outcome) =>
      assert PublisherOk(mid, mid.publishers[p]);
      SetPublisherKeepsControl(mid, p, if outcome == Stored then Appended else Raised);
      if outcome != Lost {
        AddMessageKeepsControl(SetPublisher(mid, p, if outcome == Stored then Appended else Raised),
                               Message(s.publishers[p].event, s.clock));
      }
    case ReadFailureStep(p) => SetPublisherKeepsControl(mid, p, Apply(s, step).publishers[p].phase);
    case WriteFailureStep(p, _) => SetPublisherKeepsControl(mid, p, PublisherGone);
    case MarkStep(p) => SetPublisherKeepsControl(mid, p, PublisherGone);
    case PublisherCrash(p) => SetPublisherKeepsControl(mid, p, PublisherGone);
  }

  /** A claimed event is due, so the task it wakes is due as well. */
  lemma ClaimedIsKnown(s: State, key: EventKey, now: Time)
    requires Inv(s) && Enabled(s, ClaimStep(key, now))
    ensures PublisherOk(Committed(s, ClaimStep(key, now)), Publisher(key, Claimed))
  {
    assert Issued(s.db.tasks[key.task], key.kind);
    if Queued(s.db.tasks[key.task]) {
      assert HasLiveEvent(s.db, key.task);
    }
  }

  lemma SessionOf(s: State, i: nat)
    requires ControlOk(s) && i < |s.sessions|
    ensures SessionOk(s, s.sessions[i])
  {
  }

  lemma MessageOf(s: State, m: nat)
    requires ControlOk(s) && m < |s.stream|
    ensures MessageOk(s, s.stream[m])
  {
  }

  lemma DeliveryNoted(s: State, worker: string, m: nat)
    requires Inv(s) && Enabled(s, DeliverStep(worker, m))
    ensures ControlOk(Apply(s, DeliverStep(worker, m)))
  {
    var x := Session(worker, m, s.stream[m].event, Delivered(s.clock));
    MessageOf(s, m);
    NotEarlyLater(s.db, s.stream[m].event, s.stream[m].sentAt, s.clock);
    assert SessionOk(s, x);
    hide SessionOk, MessageOk, ControlOk;
    AddSessionKeepsControl(s, x);
  }

  lemma AckNoted(s: State, i: nat)
    requires Inv(s) && Enabled(s, AckStep(i))
    ensures ControlOk(Apply(s, AckStep(i)))
  {
    hide ControlOk;
    SessionOf(s, i);
    SetSessionKeepsControl(s, i, SessionGone);
    AddAckKeepsControl(SetSession(s, i, SessionGone), s.sessions[i].message);
  }

  lemma CrashNoted(s: State, i: nat)
    requires Inv(s) && i < |s.sessions|
    ensures ControlOk(SetSession(s, i, SessionGone))
  {
    hide ControlOk;
    SessionOf(s, i);
    SetSessionKeepsControl(s, i, SessionGone);
  }

  lemma WorkerNoted(s: State, step: Step)
    requires Inv(s) && Enabled(s, step)
    requires IsWorkerStep(step) || step.DeliverStep? || step.AckStep? || step.SessionCrash?
    ensures ControlOk(Apply(s, step))
  {
    hide ControlOk, Inv, Owns, CanComplete;
    match step
    case DeliverStep(worker, m) => DeliveryNoted(s, worker, m);
    case AcquireStep(i, now) => AcquireNoted(s, i, now);
    case AckStep(i) => AckNoted(s, i);
    case SessionCrash(i) => CrashNoted(s, i);
    case _ => HolderStepNoted(s, step);
  }

  lemma HolderStepNoted(s: State, step: Step)
    requires Inv(s) && Enabled(s, step)
    requires step.DocMissingStep? || step.HeartbeatStep? || step.ProgressStep? || step.CompleteStep? || step.FailStep?
    ensures ControlOk(Apply(s, step))
  {
    hide ControlOk, Inv, Owns, CanComplete, DbAfter;
    CommittedOk(s, step);
    match step
    case HeartbeatStep(_, _) =>
    case DocMissingStep(i) => HolderNoted(s, step, i, Acking);
    case ProgressStep(i, _, _) =>
      if Apply(s, step) != Committed(s, step) {
        HolderNoted(s, step, i, Raising(s.sessions[i].phase.held));
      }
    case CompleteStep(i, _) => HolderNoted(s, step, i, Apply(s, step).sessions[i].phase);
    case FailStep(i, _) => HolderNoted(s, step, i, Apply(s, step).sessions[i].phase);
  }

  /** A holder acknowledges, gives up or raises: the key it works on was spent when it acquired. */
  lemma HolderNoted(s: State, step: Step, i: nat, phase: SessionPhase)
    requires Inv(s) && Enabled(s, step) && i < |s.sessions|
    requires s.sessions[i].phase.Owning? || s.sessions[i].phase.Raising?
    requires phase == Acking || phase == SessionGone || phase == Raising(s.sessions[i].phase.held)
    ensures ControlOk(SetSession(Committed(s, step), i, phase))
  {
    var mid := Committed(s, step);
    CommittedOk(s, step);
    assert SessionOk(mid, mid.sessions[i]);
    SetSessionKeepsControl(mid, i, phase);
  }

  lemma StepKeepsControl(s: State, step: Step)
    requires Inv(s) && Enabled(s, step)
    ensures ControlOk(Apply(s, step))
  {
    if IsPublication(step) {
      PublisherNoted(s, step);
    } else if IsWorkerStep(step) || step.DeliverStep? || step.AckStep? || step.SessionCrash? {
      WorkerNoted(s, step);
    } else {
      CommittedOk(s, step);
      assert Apply(s, step) == Committed(s, step);
    }
  }

  lemma StepKeepsInv(s: State, step: Step)
    requires Inv(s) && Enabled(s, step)
    ensures Inv(Apply(s, step))
  {
    StepKeepsDb(s, step);
    StepKeepsIdsUsed(s, step);
    StepKeepsPublished(s, step);
    StepKeepsControl(s, step);
  }
}
