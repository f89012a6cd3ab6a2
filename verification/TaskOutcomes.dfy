/** What the commits of the task protocol come to, said on the columns of the row before them: when a worker
    gets a task, when its completion counts, and what the other commits leave behind. */
module TaskOutcomes {
  import opened Options
  import opened TaskFsm
  import opened TaskRows
  import opened TaskProtocol
  import opened TaskInvariant
  import opened TaskSteps
  import opened TaskDelivery
  import opened TaskFencing

  // ---------------------------------------------------------------- acquiring

  /** A worker gets a task exactly when that is PENDING, or waits for a retry that is due by the worker's
      clock reading; otherwise its request changes no row and leads to the acknowledgement. */
  lemma AcquiresExactly(s: State, i: nat, now: Time)
    requires Enabled(s, AcquireStep(i, now))
    ensures var id, s' := s.sessions[i].event.task, Apply(s, AcquireStep(i, now));
            if id in s.db.tasks
               && (|| s.db.tasks[id].status == Pending
                   || (s.db.tasks[id].status == RetryWaiting
                       && (s.db.tasks[id].nextAttempt.None? || s.db.tasks[id].nextAttempt.value <= now)))
            then
              var t := s.db.tasks[id];
              && s'.db == s.db.(tasks := s.db.tasks[id := t.(
                   status := Running, worker := Some(s.sessions[i].worker), attempt := t.attempt + 1,
                   token := t.token + 1, lease := Some(now + 60_000_000), nextAttempt := None)])
              && s'.sessions == s.sessions[i := s.sessions[i].(
                   phase := Owning(Holding(id, t.tenant, t.doc, t.token + 1, t.target)))]
            else s'.db == s.db && s'.sessions == s.sessions[i := s.sessions[i].(phase := Acking)]
  {
  }

  /** The backoff is not a suggestion: in every reachable state a delivery that asks for a waiting task before
      its retry time changes no row, whichever event it is of; and from the retry time on it gets the task. */
  lemma WaitingTaskIsRefused(s: State, steps: seq<Step>, i: nat, now: Time)
    requires Init(s) && IsRun(s, steps) && Enabled(After(s, steps), AcquireStep(i, now))
    requires var s' := After(s, steps);
             var id := s'.sessions[i].event.task;
             id in s'.db.tasks && s'.db.tasks[id].status == RetryWaiting
    ensures var s' := After(s, steps);
            var t := s'.db.tasks[s'.sessions[i].event.task];
            && t.nextAttempt.Some?
            && (DbAfter(s', AcquireStep(i, now)) == s'.db <==> now < t.nextAttempt.value)
  {
    hide Enabled, DbAfter, ControlAfter, Inv;
    InitHasInv(s);
    RunKeepsInv(s, steps);
    var s' := After(s, steps);
    AcquireNow(s', i, now);
    WaitingHasTime(s', s'.sessions[i].event.task);
    AcquiresExactly(s', i, now);
  }

  lemma AcquireNow(s: State, i: nat, now: Time)
    requires Enabled(s, AcquireStep(i, now))
    ensures i < |s.sessions| && Apply(s, AcquireStep(i, now)).db == DbAfter(s, AcquireStep(i, now))
  {
  }

  lemma WaitingHasTime(s: State, id: TaskId)
    requires Inv(s) && id in s.db.tasks && s.db.tasks[id].status == RetryWaiting
    ensures s.db.tasks[id].nextAttempt.Some?
  {
    assert RowOk(s.db.tasks[id]);
  }

  /** A waiting row stays as it is until a worker acquires it. */
  lemma WaitingRowStep(s: State, step: Step, id: TaskId)
    requires Inv(s) && Enabled(s, step) && id in s.db.tasks && id in DbAfter(s, step).tasks
    requires s.db.tasks[id].status == RetryWaiting
    ensures if AcquiresTask(s, step, id) then DbAfter(s, step).tasks[id].attempt == s.db.tasks[id].attempt + 1
            else DbAfter(s, step).tasks[id] == s.db.tasks[id]
  {
    hide Enabled, DbAfter, Inv, CanAcquire;
    if step.AcquireStep? {
      WaitingRowAcquired(s, step.i, step.now, id);
    } else {
      InvIdsUsed(s);
      OthersLeaveWaitingRow(s, step, id);
    }
  }

  lemma WaitingRowAcquired(s: State, i: nat, now: Time, id: TaskId)
    requires Enabled(s, AcquireStep(i, now)) && id in s.db.tasks && s.db.tasks[id].status == RetryWaiting
    ensures id in DbAfter(s, AcquireStep(i, now)).tasks
    ensures if AcquiresTask(s, AcquireStep(i, now), id)
            then DbAfter(s, AcquireStep(i, now)).tasks[id].attempt == s.db.tasks[id].attempt + 1
            else DbAfter(s, AcquireStep(i, now)).tasks[id] == s.db.tasks[id]
  {
  }

  lemma OthersLeaveWaitingRow(s: State, step: Step, id: TaskId)
    requires IdsUsed(s) && Enabled(s, step) && !step.AcquireStep?
    requires id in s.db.tasks && id in DbAfter(s, step).tasks && s.db.tasks[id].status == RetryWaiting
    ensures DbAfter(s, step).tasks[id] == s.db.tasks[id]
  {
    hide Enqueue, FailedEvent, ClaimedEvent, ControlAfter, RecoveredRow, RetriedRow, CompletedRow, CasRow, FreshTask;
  }

  lemma AttemptsGrow(s: State, steps: seq<Step>, id: TaskId)
    requires Inv(s) && IsRun(s, steps) && id in s.db.tasks && id in After(s, steps).db.tasks
    ensures s.db.tasks[id].attempt <= After(s, steps).db.tasks[id].attempt
  {
    RowsDescend(s, steps, id);
  }

  lemma {:induction false} WaitingRowInRun(s: State, steps: seq<Step>, id: TaskId)
    requires Inv(s) && IsRun(s, steps) && id in s.db.tasks && id in After(s, steps).db.tasks
    requires s.db.tasks[id].status == RetryWaiting && After(s, steps).db.tasks[id].attempt == s.db.tasks[id].attempt
    ensures After(s, steps).db.tasks[id] == s.db.tasks[id]
    decreases |steps|
  {
    hide Inv, Enabled, Apply, AcquiresTask;
    if steps != [] {
      var s1 := Apply(s, steps[0]);
      StepKeepsInv(s, steps[0]);
      RowSurvives(s, steps, id);
      StepDb(s, steps[0]);
      WaitingRowStep(s, steps[0], id);
      AttemptsGrow(s1, steps[1..], id);
      WaitingRowInRun(s1, steps[1..], id);
    }
  }

  lemma StepDb(s: State, step: Step)
    requires Enabled(s, step)
    ensures Apply(s, step).db == DbAfter(s, step)
  {
  }

  /** A row that is there at the end of a run was there after its first step. */
  lemma RowSurvives(s: State, steps: seq<Step>, id: TaskId)
    requires Inv(s) && IsRun(s, steps) && steps != [] && id in s.db.tasks && id in After(s, steps).db.tasks
    ensures id in Apply(s, steps[0]).db.tasks
  {
    hide Inv, Enabled, Apply;
    if id !in Apply(s, steps[0]).db.tasks {
      InvIdsUsed(s);
      IdRemembered(s, steps[0], id);
      StepKeepsInv(s, steps[0]);
      GoneStaysGone(Apply(s, steps[0]), steps[1..], id);
      assert false;
    }
  }

  /** What a sweep does to each row: nothing, unless the row is RUNNING under a lease that ended before the
      sweep's clock reading and nobody has it locked. */
  lemma SweepTakesExactly(s: State, locked: set<TaskId>, now: Time, id: TaskId)
    requires Enabled(s, SweepStep(locked, now)) && id in s.db.tasks
    ensures id in DbAfter(s, SweepStep(locked, now)).tasks
    ensures var t, t' := s.db.tasks[id], DbAfter(s, SweepStep(locked, now)).tasks[id];
            if t.status == Running && t.lease.Some? && t.lease.value < now && id !in locked then
              if t.attempt + 1 < s.maxAttempts then
                var due := Some(now + RecoveryBackoff(t.attempt + 1));
                t' == t.(status := RetryWaiting, attempt := t.attempt + 1, token := t.token + 1, worker := None,
                         lease := due, nextAttempt := due, error := Some(HeartbeatTimeout(t.attempt)))
              else
                t' == t.(status := DeadLetter, attempt := t.attempt + 1, token := t.token + 1, worker := None,
                         lease := None, nextAttempt := None, error := Some(MaxAttemptsExceeded(s.maxAttempts)))
            else t' == t
  {
    hide RecoveryBackoff;
  }

  /** No acquisition that follows a sweep reads a clock before the sweep's own reading plus its backoff, in
      any run, however many old messages of the task are delivered in between. */
  lemma BackoffIsWaitedFor(s: State, locked: set<TaskId>, swept: Time, between: seq<Step>, acquire: Step, id: TaskId)
    requires Inv(s) && Enabled(s, SweepStep(locked, swept))
    requires id in s.db.tasks && s.db.tasks[id].status == Running
    requires var s1 := Apply(s, SweepStep(locked, swept));
             && id in s1.db.tasks && s1.db.tasks[id].status == RetryWaiting && IsRun(s1, between)
             && var s2 := After(s1, between);
                && id in s2.db.tasks && s2.db.tasks[id].attempt == s1.db.tasks[id].attempt
                && Enabled(s2, acquire) && acquire.AcquireStep? && s2.sessions[acquire.i].event.task == id
                && DbAfter(s2, acquire) != s2.db
    ensures acquire.now >= swept + RecoveryBackoff(s.db.tasks[id].attempt + 1)
  {
    hide Inv, Enabled, DbAfter, ControlAfter, RecoveryBackoff;
    var sweep := SweepStep(locked, swept);
    var s1 := Apply(s, sweep);
    SweepTakesExactly(s, locked, swept, id);
    StepKeepsInv(s, sweep);
    WaitingRowInRun(s1, between, id);
    var s2 := After(s1, between);
    AcquireNow(s2, acquire.i, acquire.now);
    AcquiresExactly(s2, acquire.i, acquire.now);
  }

  // ---------------------------------------------------------------- finishing

  /** The session's own row, by the columns every write of it tests. */
  predicate StillOwner(s: State, i: nat)
    requires Holds(s, i)
  {
    var h := HeldBy(s, i);
    && h.task in s.db.tasks && s.db.tasks[h.task].status == Running
    && s.db.tasks[h.task].token == h.token && s.db.tasks[h.task].worker == Some(s.sessions[i].worker)
  }

  lemma OwnRow(s: State, i: nat)
    requires Inv(s) && Holds(s, i) && StillOwner(s, i)
    ensures var h := HeldBy(s, i);
            var t := s.db.tasks[h.task];
            && t.tenant == h.tenant && t.doc == h.doc && t.target == h.target
            && h.doc in s.db.docs && s.db.docs[h.doc].tenant == h.tenant
            && h.target <= s.db.docs[h.doc].active + 1
  {
    assert SessionOk(s, s.sessions[i]);
    assert RowFits(s.db.docs, s.db.tasks[HeldBy(s, i).task]);
  }

  /** A full completion counts exactly when the session is still the owner and no later generation has been
      published meanwhile: the task is SUCCEEDED and its target is the active generation, in one commit.
      Otherwise nothing is written and the worker gets an error. */
  lemma CompletesExactly(s: State, i: nat)
    requires Inv(s) && Enabled(s, CompleteStep(i, false))
    ensures var h, db, db' := HeldBy(s, i), s.db, DbAfter(s, CompleteStep(i, false));
            if StillOwner(s, i) && h.doc in db.docs && db.docs[h.doc].active <= h.target then
              && db' == Db(db.docs[h.doc := db.docs[h.doc].(active := h.target)],
                           db.tasks[h.task := db.tasks[h.task].(status := Succeeded, stage := StageCompleted,
                             progress := 100, worker := None, lease := None, nextAttempt := None)],
                           db.outbox)
              && Apply(s, CompleteStep(i, false)).sessions[i].phase == Acking
            else db' == db && Apply(s, CompleteStep(i, false)).sessions[i].phase == Raising(h)
  {
    if StillOwner(s, i) {
      OwnRow(s, i);
    }
    hide Inv;
  }

  /** A partial completion counts exactly when the session is still the owner, and publishes nothing. */
  lemma PartlyCompletesExactly(s: State, i: nat)
    requires Inv(s) && Enabled(s, CompleteStep(i, true))
    ensures var h, db, db' := HeldBy(s, i), s.db, DbAfter(s, CompleteStep(i, true));
            if StillOwner(s, i) then
              && db' == db.(tasks := db.tasks[h.task := db.tasks[h.task].(status := PartialSucceeded,
                              stage := StageCompleted, progress := 100, worker := None, lease := None,
                              nextAttempt := None)])
              && Apply(s, CompleteStep(i, true)).sessions[i].phase == Acking
            else db' == db && Apply(s, CompleteStep(i, true)).sessions[i].phase == Raising(h)
  {
    if StillOwner(s, i) {
      OwnRow(s, i);
    }
    hide Inv;
  }

  /** A failure is recorded, with its text, exactly when the session is still the owner; the message is
      acknowledged in that case and left for a later delivery otherwise. */
  lemma FailsExactly(s: State, i: nat, error: ErrorText)
    requires Enabled(s, FailStep(i, error))
    ensures var h, db, db' := HeldBy(s, i), s.db, DbAfter(s, FailStep(i, error));
            if StillOwner(s, i) then
              && db' == db.(tasks := db.tasks[h.task := db.tasks[h.task].(status := Failed, error := Some(error))])
              && Apply(s, FailStep(i, error)).sessions[i].phase == Acking
            else db' == db && Apply(s, FailStep(i, error)).sessions[i].phase == SessionGone
  {
  }

  /** A worker whose document is gone fails the task, if it is still the owner, and acknowledges in any case. */
  lemma MissingDocumentExactly(s: State, i: nat)
    requires Enabled(s, DocMissingStep(i))
    ensures var h, db, db' := HeldBy(s, i), s.db, DbAfter(s, DocMissingStep(i));
            && !(h.doc in db.docs && db.docs[h.doc].tenant == h.tenant)
            && (if StillOwner(s, i) then
                  db' == db.(tasks := db.tasks[h.task := db.tasks[h.task].(status := Failed, error := Some(MissingDocument))])
                else db' == db)
            && Apply(s, DocMissingStep(i)).sessions[i].phase == Acking
  {
  }

  /** Progress is written, between 0 and 100, exactly for the owner. */
  lemma ProgressExactly(s: State, i: nat, stage: Stage, percent: int)
    requires Enabled(s, ProgressStep(i, stage, percent))
    ensures var h, db, db' := HeldBy(s, i), s.db, DbAfter(s, ProgressStep(i, stage, percent));
            if StillOwner(s, i) then
              db' == db.(tasks := db.tasks[h.task := db.tasks[h.task].(stage := stage,
                           progress := if percent < 0 then 0 else if percent > 100 then 100 else percent)])
            else db' == db && Apply(s, ProgressStep(i, stage, percent)).sessions[i].phase == Raising(h)
  {
  }

  // ---------------------------------------------------------------- the commits of the API

  /** An upload starts at generation 1; a re-ingestion aims at the one after the active one.  Both queue their
      task with an event that is due at once. */
  lemma NewTasksAre(s: State, step: Step)
    requires IdsUsed(s) && EventsIssued(s.db) && Enabled(s, step) && (step.UploadStep? || step.ReingestStep?)
    ensures var db, db', id := s.db, DbAfter(s, step), step.id;
            && id in db'.tasks && db'.tasks[id].status == Pending && db'.tasks[id].token == 1
            && db'.tasks[id].attempt == 0 && db'.tasks[id].retryCount == 0 && db'.tasks[id].doc == step.doc
            && (forall other | other in db.tasks :: other != id && other in db'.tasks && db'.tasks[other] == db.tasks[other])
            && db'.outbox == db.outbox[EventKey(id, Initial) := Event(EventPending, 0, s.clock, None, s.clock)]
            && (step.UploadStep? ==>
                  && db'.docs == db.docs[step.doc := Document(step.tenant, 1)]
                  && db'.tasks[id].tenant == step.tenant && db'.tasks[id].target == 1)
            && (step.ReingestStep? ==>
                  && db'.docs == db.docs && db'.tasks[id].tenant == db.docs[step.doc].tenant
                  && db'.tasks[id].target == db.docs[step.doc].active + 1)
  {
    assert EventKey(step.id, Initial) !in s.db.outbox;
    hide ControlAfter;
  }

  /** Deleting a document takes its tasks and their events with it, and nothing else. */
  lemma DeletionTakesExactly(s: State, doc: DocId)
    requires EventsIssued(s.db) && Enabled(s, DeleteStep(doc))
    ensures var db, db' := s.db, DbAfter(s, DeleteStep(doc));
            && db'.docs == db.docs - {doc}
            && (forall id :: id in db'.tasks <==> id in db.tasks && db.tasks[id].doc != doc)
            && (forall id | id in db'.tasks :: db'.tasks[id] == db.tasks[id])
            && (forall key :: key in db'.outbox <==> key in db.outbox && db.tasks[key.task].doc != doc)
            && (forall key | key in db'.outbox :: db'.outbox[key] == db.outbox[key])
  {
    hide ControlAfter;
  }
}
