/** The services that write the task tables, in the form the code has them: rows are read, fields are
    assigned, the transaction commits or rolls back.  Each method is one transaction and is proved
    equal to the row function the protocol uses for that commit. */
module TaskDatabase {
  import opened Options
  import opened TaskFsm
  import opened TaskRows

  datatype CompletionError = UnsupportedState | IllegalTransition(verdict: Verdict)
  datatype RetryError = TaskNotFound | NotRetryable(status: TaskState) | DocumentNotFound

  datatype SweepReport = SweepReport(scanned: nat, recovered: nat, deadLettered: nat)

  /** Due, not locked by another publisher, and of the requested task. */
  predicate Selectable(outbox: map<EventKey, Event>, key: EventKey, locked: set<EventKey>,
                       only: Option<TaskId>, now: Time)
  {
    && key in outbox && key !in locked
    && (only.Some? ==> key.task == only.value)
    && Due(outbox[key], now)
  }

  /** The orphans that go back to the queue. */
  ghost function Requeues(db: Db, orphans: set<TaskId>, maxAttempts: nat): set<TaskId> {
    set id | id in orphans && id in db.tasks && db.tasks[id].attempt + 1 < maxAttempts
  }

  lemma RequeuesOneMore(db: Db, done: set<TaskId>, id: TaskId, maxAttempts: nat)
    requires id in db.tasks && id !in done
    ensures |Requeues(db, done + {id}, maxAttempts)|
         == |Requeues(db, done, maxAttempts)| + (if db.tasks[id].attempt + 1 < maxAttempts then 1 else 0)
  {
    assert Requeues(db, done + {id}, maxAttempts)
        == Requeues(db, done, maxAttempts) + (if db.tasks[id].attempt + 1 < maxAttempts then {id} else {});
  }

  lemma NobodyRequeued(db: Db, maxAttempts: nat)
    ensures Requeues(db, {}, maxAttempts) == {}
  {
  }

  lemma SweepLeavesOthers(db: Db, done: set<TaskId>, id: TaskId, maxAttempts: nat, now: Time)
    requires id in db.tasks && id !in done
    ensures id in Sweep(db, done, maxAttempts, now).tasks
    ensures Sweep(db, done, maxAttempts, now).tasks[id] == db.tasks[id]
  {
  }

  lemma ExpiredAre(tasks: map<TaskId, Task>, locked: set<TaskId>, now: Time)
    ensures forall id | id in tasks && id !in locked ::
      Expired(tasks[id], now) <==> tasks[id].status == Running && tasks[id].lease.Some? && tasks[id].lease.value < now
  {
  }

  lemma CasEffect(db: Db, id: TaskId, from: TaskState, to: TaskState, token: nat, given: Given)
    ensures CasMatches(db, id, from, token, given.worker) ==>
      UpdateStatusCas(db, id, from, to, token, given)
        == db.(tasks := db.tasks[id := CasRow(db.tasks[id], to, given)])
    ensures !CasMatches(db, id, from, token, given.worker) ==>
      UpdateStatusCas(db, id, from, to, token, given) == db
  {
  }

  /** What a guarded status update has written, column by column: what was given and is not empty, and a
      terminal state clears the lease.  `stage`, `progress` and `error` are the caller's, not computed. */
  predicate CasWritten(t: Task, t': Task, to: TaskState, given: Given) {
    && t'.status == to
    && (given.stage.None? || given.stage == Some(Reported("")) ==> t'.stage == t.stage)
    && (given.stage.Some? && given.stage != Some(Reported("")) ==> Some(t'.stage) == given.stage)
    && (given.percent.None? ==> t'.progress == t.progress)
    && (given.percent.Some? ==> t'.progress == given.percent.value)
    && (given.error.None? ==> t'.error == t.error)
    && (given.error.Some? ==> t'.error == given.error)
    && (to == Succeeded || to == DeadLetter || to == Cancelled ==> t'.lease.None? && t'.worker.None?)
    && (!(to == Succeeded || to == DeadLetter || to == Cancelled) ==>
          && t'.lease == t.lease
          && t'.worker == if given.worker.None? || given.worker == Some("") then t.worker else given.worker)
    && t'.tenant == t.tenant && t'.doc == t.doc && t'.target == t.target && t'.nextAttempt == t.nextAttempt
    && t'.attempt == t.attempt && t'.retryCount == t.retryCount && t'.token == t.token
  }

  lemma CasRowWritten(t: Task, to: TaskState, given: Given)
    ensures CasWritten(t, CasRow(t, to, given), to, given)
  {
  }

  class Database {
    var docs: map<DocId, Document>
    var tasks: map<TaskId, Task>
    var outbox: map<EventKey, Event>

    function Rows(): Db
      reads this
    {
      Db(docs, tasks, outbox)
    }

    constructor ()
      ensures Rows() == Db(map[], map[], map[])
    {
      docs, tasks, outbox := map[], map[], map[];
    }

    /** ROLLBACK to the content at the start of the transaction. */
    method Rollback(saved: Db)
      modifies this
      ensures Rows() == saved
    {
      docs, tasks, outbox := saved.docs, saved.tasks, saved.outbox;
    }

    method AcquireTaskLease(id: TaskId, worker: string, leaseFor: Time, now: Time)
      returns (acquired: bool, task: Option<Task>)
      modifies this
      ensures Rows() == AcquireLease(old(Rows()), id, worker, leaseFor, now)
      ensures acquired <==>
        && id in old(tasks)
        && (|| old(tasks)[id].status == Pending
            || (old(tasks)[id].status == RetryWaiting
                && (old(tasks)[id].nextAttempt.None? || old(tasks)[id].nextAttempt.value <= now)))
      ensures acquired ==>
        var t := old(tasks)[id];
        Rows() == old(Rows()).(tasks := old(tasks)[id := t.(
          status := Running, worker := Some(worker), attempt := t.attempt + 1, token := t.token + 1,
          lease := Some(now + leaseFor), nextAttempt := None)])
      ensures !acquired ==> Rows() == old(Rows())
      ensures acquired == CanAcquire(old(Rows()), id, now)
      ensures task == if acquired then Some(Rows().tasks[id]) else None
    {
      if id !in tasks || !Claimable(tasks[id], now) {
        return false, None;
      }
      var row := tasks[id];
      row := row.(status := Running);
      row := row.(worker := Some(worker));
      row := row.(attempt := row.attempt + 1);
      row := row.(token := row.token + 1);
      row := row.(lease := Some(now + leaseFor));
      row := row.(nextAttempt := None);
      tasks := tasks[id := row];
      return true, Some(row);
    }

    /** The `values` dictionary of the guarded UPDATE, applied to a row. */
    static method CasValues(t: Task, to: TaskState, given: Given) returns (row: Task)
      ensures row == CasRow(t, to, given)
    {
      row := t.(status := to);
      if given.stage.Some? && given.stage.value != Reported("") {
        row := row.(stage := given.stage.value);
      }
      if given.percent.Some? {
        row := row.(progress := given.percent.value);
      }
      if given.worker.Some? && given.worker.value != "" {
        row := row.(worker := given.worker);
      }
      if given.error.Some? {
        row := row.(error := given.error);
      }
      if IsTerminal(to) {
        row := row.(lease := None, worker := None);
      }
    }

    /** Raises unless the table allows the transition; otherwise one guarded UPDATE. */
    method UpdateTaskStatusCas(id: TaskId, from: TaskState, to: TaskState, token: nat, given: Given)
      returns (r: Result<bool, Verdict>)
      modifies this
      ensures r.Ok? <==> ValidateTransition(from, to) == Legal
      ensures r.Err? ==> r.error == ValidateTransition(from, to) && Rows() == old(Rows())
      ensures r.Ok? ==>
        (r.value <==>
          && id in old(tasks) && old(tasks)[id].status == from && old(tasks)[id].token == token
          && (given.worker.None? || old(tasks)[id].worker == given.worker))
      ensures r.Ok? && r.value ==>
        && id in tasks && Rows() == old(Rows()).(tasks := old(tasks)[id := tasks[id]])
        && CasWritten(old(tasks)[id], tasks[id], to, given)
      ensures r.Ok? && !r.value ==> Rows() == old(Rows())
      ensures r.Ok? ==> Rows() == UpdateStatusCas(old(Rows()), id, from, to, token, given)
    {
      var verdict := ValidateTransition(from, to);
      if verdict != Legal {
        return Err(verdict);
      }
      var matched := GuardedUpdate(id, from, to, token, given);
      return Ok(matched);
    }

    /** UPDATE tasks SET ... WHERE id, status, fencing_token and, when given, worker_id match. */
    method GuardedUpdate(id: TaskId, from: TaskState, to: TaskState, token: nat, given: Given)
      returns (matched: bool)
      modifies this
      ensures matched <==>
        && id in old(tasks) && old(tasks)[id].status == from && old(tasks)[id].token == token
        && (given.worker.None? || old(tasks)[id].worker == given.worker)
      ensures matched ==>
        && id in tasks && Rows() == old(Rows()).(tasks := old(tasks)[id := tasks[id]])
        && CasWritten(old(tasks)[id], tasks[id], to, given)
      ensures !matched ==> Rows() == old(Rows())
      ensures Rows() == UpdateStatusCas(old(Rows()), id, from, to, token, given)
    {
      hide CasRow, UpdateStatusCas, CasWritten;
      CasEffect(Rows(), id, from, to, token, given);
      matched := id in tasks && tasks[id].status == from && tasks[id].token == token
                 && (given.worker.None? || tasks[id].worker == given.worker);
      if matched {
        CasRowWritten(tasks[id], to, given);
        var row := CasValues(tasks[id], to, given);
        tasks := tasks[id := row];
      }
    }

    /** Two UPDATEs in one transaction, rolled back together when either matches no row. */
    method CompleteTaskWithGeneration(c: Completion) returns (r: Result<bool, CompletionError>)
      modifies this
      ensures r.Err? <==> !(c.final == Succeeded || c.final == PartialSucceeded)
      ensures r.Ok? ==>
        (r.value <==>
          && c.task in old(tasks)
          && old(tasks)[c.task].status == Running && old(tasks)[c.task].worker == Some(c.worker)
          && old(tasks)[c.task].token == c.token
          && old(tasks)[c.task].tenant == c.tenant && old(tasks)[c.task].doc == c.doc
          && (c.publish ==>
                && c.doc in old(docs) && old(docs)[c.doc].tenant == c.tenant
                && old(docs)[c.doc].active <= c.generation))
      ensures r.Ok? && r.value ==>
        && outbox == old(outbox)
        && tasks == old(tasks)[c.task := old(tasks)[c.task].(
             status := c.final, stage := StageCompleted, progress := 100,
             worker := None, lease := None, nextAttempt := None)]
        && docs == if c.publish then old(docs)[c.doc := old(docs)[c.doc].(active := c.generation)] else old(docs)
      ensures r.Ok? && !r.value ==> Rows() == old(Rows())
      ensures Rows() == if r.Ok? then Complete(old(Rows()), c) else old(Rows())
    {
      if c.final != Succeeded && c.final != PartialSucceeded {
        return Err(UnsupportedState);
      }
      var verdict := ValidateTransition(Running, c.final);
      if verdict != Legal {
        return Err(IllegalTransition(verdict));
      }
      var saved := Rows();
      var rowcount := 0;
      if c.task in tasks && tasks[c.task].tenant == c.tenant && tasks[c.task].doc == c.doc
         && tasks[c.task].status == Running && tasks[c.task].worker == Some(c.worker)
         && tasks[c.task].token == c.token {
        tasks := tasks[c.task := tasks[c.task].(status := c.final, stage := StageCompleted, progress := 100,
                                                worker := None, lease := None, nextAttempt := None)];
        rowcount := 1;
      }
      if rowcount != 1 {
        Rollback(saved);
        return Ok(false);
      }
      if c.publish {
        rowcount := 0;
        if c.doc in docs && docs[c.doc].tenant == c.tenant && docs[c.doc].active <= c.generation {
          docs := docs[c.doc := docs[c.doc].(active := c.generation)];
          rowcount := 1;
        }
        if rowcount != 1 {
          Rollback(saved);
          return Ok(false);
        }
      }
      return Ok(true);
    }

    method UpdateTaskProgressCas(id: TaskId, worker: string, token: nat, stage: Stage, percent: int)
      returns (updated: bool)
      modifies this
      ensures updated <==>
        && id in old(tasks) && old(tasks)[id].status == Running && old(tasks)[id].worker == Some(worker)
        && old(tasks)[id].token == token
      ensures updated ==>
        Rows() == old(Rows()).(tasks := old(tasks)[id := old(tasks)[id].(
          stage := stage, progress := if percent < 0 then 0 else if percent > 100 then 100 else percent)])
      ensures !updated ==> Rows() == old(Rows())
      ensures Rows() == Progress(old(Rows()), id, worker, token, stage, percent)
    {
      updated := id in tasks && tasks[id].status == Running && tasks[id].worker == Some(worker)
                 && tasks[id].token == token;
      if updated {
        tasks := tasks[id := tasks[id].(stage := stage, progress := Max(0, Min(100, percent)))];
      }
    }

    /** Refreshes the lease of src/core/tasks/lease.py; the heartbeat loop stops when no row matched. */
    method RefreshLease(id: TaskId, worker: string, token: nat, expiry: Time) returns (beating: bool)
      modifies this
      ensures beating <==>
        && id in old(tasks) && old(tasks)[id].status == Running && old(tasks)[id].worker == Some(worker)
        && old(tasks)[id].token == token
      ensures beating ==> Rows() == old(Rows()).(tasks := old(tasks)[id := old(tasks)[id].(lease := Some(expiry))])
      ensures !beating ==> Rows() == old(Rows())
      ensures Rows() == Heartbeat(old(Rows()), id, worker, token, expiry)
    {
      beating := id in tasks && tasks[id].status == Running && tasks[id].worker == Some(worker)
                 && tasks[id].token == token;
      if beating {
        tasks := tasks[id := tasks[id].(lease := Some(expiry))];
      }
    }

    /** `enqueue`: inserts, or returns the row that already has the key. */
    method EnqueueEvent(key: EventKey, available: Time, now: Time) returns (e: Event)
      modifies this`outbox
      ensures outbox == Enqueue(old(outbox), key, available, now)
      ensures key in old(outbox) ==> outbox == old(outbox) && e == outbox[key]
      ensures key !in old(outbox) ==> e == Event(EventPending, 0, available, None, now) && outbox == old(outbox)[key := e]
    {
      if key in outbox {
        return outbox[key];
      }
      e := Event(EventPending, 0, available, None, now);
      outbox := outbox[key := e];
    }

    /** The transaction of `retry_task`. */
    method RetryTaskRow(id: TaskId, tenant: string, now: Time) returns (r: Result<Task, RetryError>)
      modifies this
      ensures r == Err(TaskNotFound) <==> id !in old(tasks) || old(tasks)[id].tenant != tenant
      ensures r == Err(DocumentNotFound) ==>
        old(tasks)[id].doc !in old(docs) || old(docs)[old(tasks)[id].doc].tenant != tenant
      ensures r.Ok? || r == Err(DocumentNotFound) <==>
        && id in old(tasks) && old(tasks)[id].tenant == tenant
        && (old(tasks)[id].status == Failed || old(tasks)[id].status == DeadLetter)
      ensures r.Ok? ==>
        var t := old(tasks)[id];
        && t.doc in old(docs) && old(docs)[t.doc].tenant == tenant && docs == old(docs)
        && r.value == t.(status := Pending, stage := StageRetryQueued, retryCount := t.retryCount + 1,
                         token := t.token + 1, worker := None, lease := None, nextAttempt := None, error := None)
        && tasks == old(tasks)[id := r.value]
        && EventKey(id, Retry(t.retryCount + 1)) in outbox
        && (EventKey(id, Retry(t.retryCount + 1)) !in old(outbox) ==>
              outbox == old(outbox)[EventKey(id, Retry(t.retryCount + 1)) := Event(EventPending, 0, now, None, now)])
      ensures r.Err? ==> Rows() == old(Rows())
      ensures Rows() == RetryTask(old(Rows()), id, tenant, now)
    {
      if id !in tasks || tasks[id].tenant != tenant {
        return Err(TaskNotFound);
      }
      var row := tasks[id];
      if row.status != Failed && row.status != DeadLetter {
        return Err(NotRetryable(row.status));
      }
      if row.doc !in docs || docs[row.doc].tenant != tenant {
        return Err(DocumentNotFound);
      }
      var nextRetryCount := row.retryCount + 1;
      row := row.(status := Pending);
      row := row.(stage := StageRetryQueued);
      row := row.(retryCount := nextRetryCount);
      row := row.(token := row.token + 1);
      row := row.(worker := None, lease := None, nextAttempt := None, error := None);
      tasks := tasks[id := row];
      var event := EnqueueEvent(EventKey(id, Retry(nextRetryCount)), now, now);
      return Ok(row);
    }

    /** SELECT ... ORDER BY created_at LIMIT 1 FOR UPDATE SKIP LOCKED. */
    method OldestDueEvent(locked: set<EventKey>, only: Option<TaskId>, now: Time)
      returns (oldest: Option<EventKey>)
      ensures oldest.None? <==> forall key :: !Selectable(outbox, key, locked, only, now)
      ensures oldest.Some? ==>
        && Selectable(outbox, oldest.value, locked, only, now)
        && forall key :: Selectable(outbox, key, locked, only, now) ==>
             outbox[oldest.value].created <= outbox[key].created
    {
      oldest := None;
      var rest := outbox.Keys;
      while rest != {}
        invariant rest <= outbox.Keys
        invariant oldest.None? ==> forall key :: Selectable(outbox, key, locked, only, now) ==> key in rest
        invariant oldest.Some? ==>
          && Selectable(outbox, oldest.value, locked, only, now)
          && forall key :: Selectable(outbox, key, locked, only, now) && key !in rest ==>
               outbox[oldest.value].created <= outbox[key].created
        decreases |rest|
      {
        var key :| key in rest;
        rest := rest - {key};
        if Selectable(outbox, key, locked, only, now) {
          if oldest.None? || outbox[key].created < outbox[oldest.value].created {
            oldest := Some(key);
          }
        }
      }
    }

    /** The claiming transaction of `publish_pending`. */
    method ClaimOldestEvent(locked: set<EventKey>, only: Option<TaskId>, now: Time)
      returns (claimed: Option<EventKey>)
      modifies this
      ensures claimed.None? ==> Rows() == old(Rows())
      ensures claimed.None? <==> forall key :: !Selectable(old(outbox), key, locked, only, now)
      ensures claimed.Some? ==>
        && Selectable(old(outbox), claimed.value, locked, only, now)
        && (forall key :: Selectable(old(outbox), key, locked, only, now) ==>
              old(outbox)[claimed.value].created <= old(outbox)[key].created)
        && Rows() == ClaimEvent(old(Rows()), claimed.value, now)
      ensures claimed.Some? ==>
        var e := old(outbox)[claimed.value];
        && claimed.value !in locked && e.available <= now
        && (e.status == EventPending || (e.status == EventPublishing && e.lease.Some? && e.lease.value < now))
        && outbox == old(outbox)[claimed.value := e.(status := EventPublishing, lease := Some(now + 60_000_000))]
      ensures claimed.None? ==>
        forall key | key in outbox && key !in locked && (only.None? || key.task == only.value) ::
          && (outbox[key].status == EventPending ==> outbox[key].available > now)
          && (outbox[key].status == EventPublishing && outbox[key].available <= now ==>
                outbox[key].lease.None? || outbox[key].lease.value >= now)
    {
      claimed := OldestDueEvent(locked, only, now);
      if claimed.None? {
        assert forall key | key in outbox :: !Selectable(outbox, key, locked, only, now);
      } else {
        var e := outbox[claimed.value];
        e := e.(status := EventPublishing);
        e := e.(lease := Some(now + 60 * SECOND));
        outbox := outbox[claimed.value := e];
      }
    }

    /** The SELECT of the failure branch; it takes no lock. */
    method ReadEvent(key: EventKey) returns (read: Option<Event>)
      ensures read == if key in outbox then Some(outbox[key]) else None
    {
      read := if key in outbox then Some(outbox[key]) else None;
    }

    /** The failure branch after its SELECT: four assignments to the loaded object, then the flush.  The
        UPDATE finds no row when the event was deleted in the meantime. */
    method RecordPublicationFailure(key: EventKey, read: Event, now: Time) returns (matched: bool)
      modifies this
      ensures Rows() == FailPublication(old(Rows()), key, read, now)
      ensures matched == (key in old(outbox))
    {
      var loaded := read;
      var attempts := read.attempts + 1;
      loaded := loaded.(status := EventPending);
      loaded := loaded.(attempts := attempts);
      loaded := loaded.(lease := None);
      loaded := loaded.(available := now + Min(300, Pow2(Min(attempts, 8))) * SECOND);
      matched := key in outbox;
      if matched {
        var row := outbox[key];
        if loaded.status != read.status {
          row := row.(status := loaded.status);
        }
        if loaded.attempts != read.attempts {
          row := row.(attempts := loaded.attempts);
        }
        if loaded.lease != read.lease {
          row := row.(lease := loaded.lease);
        }
        if loaded.available != read.available {
          row := row.(available := loaded.available);
        }
        outbox := outbox[key := row];
      }
    }

    method MarkEventPublished(key: EventKey) returns (rowcount: nat)
      modifies this
      ensures Rows() == MarkPublished(old(Rows()), key)
      ensures rowcount == if key in old(outbox) && old(outbox)[key].status == EventPublishing then 1 else 0
      ensures rowcount == 1 ==> outbox == old(outbox)[key := old(outbox)[key].(status := EventPublished, lease := None)]
    {
      rowcount := 0;
      if key in outbox && outbox[key].status == EventPublishing {
        outbox := outbox[key := outbox[key].(status := EventPublished, lease := None)];
        rowcount := 1;
      }
    }

    /** One row of the sweep: the body of its loop. */
    method RecoverRow(id: TaskId, maxAttempts: nat, now: Time)
      requires id in tasks
      modifies this
      ensures Rows() == RecoverTask(old(Rows()), id, maxAttempts, now)
    {
      var row := tasks[id];
      var newAttempt := row.attempt + 1;
      if newAttempt < maxAttempts {
        var deadline := now + Min(300, Pow2(newAttempt) * 5) * SECOND;
        var error := HeartbeatTimeout(row.attempt);
        row := row.(status := RetryWaiting, attempt := newAttempt, token := row.token + 1);
        row := row.(lease := Some(deadline), nextAttempt := Some(deadline));
        row := row.(worker := None, error := Some(error));
        tasks := tasks[id := row];
        if row.doc in docs && docs[row.doc].tenant == row.tenant {
          var event := EnqueueEvent(EventKey(id, Recovery(newAttempt)), deadline, now);
        }
      } else {
        row := row.(status := DeadLetter, attempt := newAttempt, token := row.token + 1);
        row := row.(worker := None, lease := None, nextAttempt := None);
        row := row.(error := Some(MaxAttemptsExceeded(maxAttempts)));
        tasks := tasks[id := row];
      }
    }

    /** The loop of the sweep. */
    method RecoverAll(orphans: set<TaskId>, maxAttempts: nat, now: Time) returns (recovered: nat, deadLettered: nat)
      requires orphans <= tasks.Keys
      modifies this
      ensures Rows() == Sweep(old(Rows()), orphans, maxAttempts, now)
      ensures recovered == |Requeues(old(Rows()), orphans, maxAttempts)|
      ensures recovered + deadLettered == |orphans|
    {
      hide Sweep, RecoverTask, Requeues, Expired, RecoveredRow, RecoveryKeys, Requeued, Enqueue;
      var rest := orphans;
      recovered, deadLettered := 0, 0;
      ghost var before := Rows();
      ghost var done: set<TaskId> := {};
      SweepNothing(before, maxAttempts, now);
      assert Requeues(before, {}, maxAttempts) == {} by { NobodyRequeued(before, maxAttempts); }
      while rest != {}
        invariant done + rest == orphans && done !! rest
        invariant Rows() == Sweep(before, done, maxAttempts, now)
        invariant recovered == |Requeues(before, done, maxAttempts)|
        invariant recovered + deadLettered == |done|
        decreases |rest|
      {
        var id :| id in rest;
        SweepLeavesOthers(before, done, id, maxAttempts, now);
        var requeued := tasks[id].attempt + 1 < maxAttempts;
        RecoverRow(id, maxAttempts, now);
        SweepOneMore(before, done, id, maxAttempts, now);
        RequeuesOneMore(before, done, id, maxAttempts);
        if requeued {
          recovered := recovered + 1;
        } else {
          deadLettered := deadLettered + 1;
        }
        done := done + {id};
        rest := rest - {id};
      }
    }

    /** `_execute_recovery`: one sweep, one commit.  `locked` are the rows SKIP LOCKED passes over. */
    method ExecuteRecovery(locked: set<TaskId>, maxAttempts: nat, now: Time)
      returns (report: SweepReport, ghost orphans: set<TaskId>)
      modifies this
      ensures forall id :: id in orphans <==>
                && id in old(tasks) && id !in locked && old(tasks)[id].status == Running
                && old(tasks)[id].lease.Some? && old(tasks)[id].lease.value < now
      ensures Rows() == Sweep(old(Rows()), orphans, maxAttempts, now)
      ensures report.scanned == |orphans|
      ensures report.recovered == |Requeues(old(Rows()), orphans, maxAttempts)|
      ensures report.recovered + report.deadLettered == report.scanned
    {
      hide Sweep, Requeues, Expired;
      var rows := set id | id in tasks && Expired(tasks[id], now) && id !in locked;
      orphans := rows;
      ExpiredAre(tasks, locked, now);
      var recovered, deadLettered := RecoverAll(rows, maxAttempts, now);
      report := SweepReport(|rows|, recovered, deadLettered);
    }
  }
}
