/** Document generations are published one after the other, without a gap. */
module TaskGenerations {
  import opened TaskFsm
  import opened TaskRows
  import opened TaskProtocol
  import opened TaskInvariant
  import opened TaskSteps
  import opened TaskDelivery

  predicate PublishesGeneration(s: State, step: Step, doc: DocId) {
    && step.CompleteStep? && Enabled(s, step) && !step.partial
    && CanComplete(s.db, CompletionOf(s, step.i, false))
    && s.sessions[step.i].phase.held.doc == doc
  }

  /** Only a complete, non-partial finalisation moves the active generation, by at most one, to the
      target of the task that becomes SUCCEEDED in the same commit. */
  lemma OnlySuccessMovesGeneration(s: State, step: Step, doc: DocId)
    requires Inv(s) && Enabled(s, step) && doc in s.db.docs && doc in Apply(s, step).db.docs
    ensures var before, after := s.db.docs[doc].active, Apply(s, step).db.docs[doc].active;
            if PublishesGeneration(s, step, doc) then
              var id := s.sessions[step.i].phase.held.task;
              && before <= after <= before + 1
              && BuiltBy(Apply(s, step).db, doc, after, id) && id in s.db.tasks
              && s.db.tasks[id].status == Running
            else after == before
  {
    if step.CompleteStep? {
      CompletionMovesGeneration(s, step, doc);
    } else {
      OthersLeaveGenerations(s, step, doc);
    }
  }

  lemma OthersLeaveGenerations(s: State, step: Step, doc: DocId)
    requires IdsUsed(s) && Enabled(s, step) && !step.CompleteStep?
    requires doc in s.db.docs && doc in DbAfter(s, step).docs
    ensures DbAfter(s, step).docs[doc] == s.db.docs[doc]
  {
    hide Enqueue, FailedEvent, ClaimedEvent, AcquiredRow, CasRow, RecoveredRow, RetriedRow, FreshTask;
  }

  lemma CompletionMovesGeneration(s: State, step: Step, doc: DocId)
    requires Inv(s) && Enabled(s, step) && step.CompleteStep? && doc in s.db.docs
    ensures doc in Apply(s, step).db.docs
    ensures var before, after := s.db.docs[doc].active, Apply(s, step).db.docs[doc].active;
            if PublishesGeneration(s, step, doc) then
              var id := s.sessions[step.i].phase.held.task;
              && before <= after <= before + 1
              && BuiltBy(Apply(s, step).db, doc, after, id) && id in s.db.tasks
              && s.db.tasks[id].status == Running
            else after == before
  {
    hide ControlAfter;
    assert SessionOk(s, s.sessions[step.i]);
    if PublishesGeneration(s, step, doc) {
      assert RowFits(s.db.docs, s.db.tasks[s.sessions[step.i].phase.held.task]);
    }
  }

  /** A task becomes SUCCEEDED only together with its generation: both in one commit, or neither. */
  lemma SuccessIsPublication(s: State, step: Step, id: TaskId)
    requires Inv(s) && Enabled(s, step) && id in s.db.tasks && id in Apply(s, step).db.tasks
    requires s.db.tasks[id].status != Succeeded && Apply(s, step).db.tasks[id].status == Succeeded
    ensures var t := Apply(s, step).db.tasks[id];
            && PublishesGeneration(s, step, t.doc)
            && t.doc in Apply(s, step).db.docs
            && Apply(s, step).db.docs[t.doc].active == t.target
  {
    BecomesSucceeded(s, step, id);
    OwnerFinalisesOwnTarget(s, step.i, false);
  }

  lemma BecomesSucceeded(s: State, step: Step, id: TaskId)
    requires IdsUsed(s) && Enabled(s, step) && id in s.db.tasks && id in Apply(s, step).db.tasks
    requires s.db.tasks[id].status != Succeeded && Apply(s, step).db.tasks[id].status == Succeeded
    ensures step.CompleteStep? && !step.partial && CanComplete(s.db, CompletionOf(s, step.i, false))
    ensures s.sessions[step.i].phase.held.task == id
  {
    hide Enqueue, FailedEvent, ClaimedEvent, PublishBackoff, RecoveryBackoff, ControlAfter;
  }

  lemma DocGoneStaysGone(s: State, step: Step, doc: DocId)
    requires IdsUsed(s) && Enabled(s, step) && doc in s.usedDocs
    ensures doc in Apply(s, step).usedDocs
    ensures doc !in s.db.docs ==> doc !in Apply(s, step).db.docs
  {
    NoOtherDocs(s, step);
  }

  lemma {:induction false} DeletedDocStaysDeleted(s: State, steps: seq<Step>, doc: DocId)
    requires Inv(s) && IsRun(s, steps) && doc in s.usedDocs && doc !in s.db.docs
    ensures doc !in After(s, steps).db.docs
    decreases |steps|
  {
    hide Apply, Enabled;
    if steps != [] {
      DocGoneStaysGone(s, steps[0], doc);
      StepKeepsInv(s, steps[0]);
      DeletedDocStaysDeleted(Apply(s, steps[0]), steps[1..], doc);
    }
  }

  /** `active_generation` never decreases in any run. */
  lemma {:induction false} GenerationNeverDecreases(s: State, steps: seq<Step>, doc: DocId)
    requires Inv(s) && IsRun(s, steps) && doc in s.db.docs && doc in After(s, steps).db.docs
    ensures s.db.docs[doc].active <= After(s, steps).db.docs[doc].active
    decreases |steps|
  {
    hide Apply, Enabled, PublishesGeneration;
    if steps != [] {
      var s1 := Apply(s, steps[0]);
      DocGoneStaysGone(s, steps[0], doc);
      StepKeepsInv(s, steps[0]);
      if doc in s1.db.docs {
        OnlySuccessMovesGeneration(s, steps[0], doc);
        GenerationNeverDecreases(s1, steps[1..], doc);
      } else {
        DeletedDocStaysDeleted(s1, steps[1..], doc);
      }
    }
  }

  /** In every reachable state each generation from 2 to the active one was built by a SUCCEEDED
      task, and no SUCCEEDED task is ahead of the active generation. */
  lemma GenerationsHaveNoGaps(s: State, steps: seq<Step>)
    requires Init(s) && IsRun(s, steps)
    ensures var db := After(s, steps).db;
            && NoGaps(db)
            && forall id :: id in db.tasks && db.tasks[id].status == Succeeded ==>
                 db.tasks[id].doc in db.docs && db.tasks[id].target <= db.docs[db.tasks[id].doc].active
  {
    InitHasInv(s);
    RunKeepsInv(s, steps);
    var db := After(s, steps).db;
    forall id | id in db.tasks && db.tasks[id].status == Succeeded
      ensures db.tasks[id].doc in db.docs && db.tasks[id].target <= db.docs[db.tasks[id].doc].active
    {
      assert RowFits(db.docs, db.tasks[id]);
    }
  }
}
