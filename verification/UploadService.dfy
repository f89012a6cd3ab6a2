/** `DocService.upload_document` as sequential code, with other participants' steps between its
    statements.  `others` says which steps those are; it is arbitrary. */
module UploadService {
  import opened Options
  import opened TaskFsm
  import opened UploadProtocol
  import opened UploadSafety

  predicate IsOwnStep(step: Step, me: nat) {
    match step
    case PreCheck(i) => i == me
    case LockTenant(i) => i == me
    case Recheck(i) => i == me
    case ReadStorage(i) => i == me
    case ReadCount(i) => i == me
    case ReadActive(i) => i == me
    case PutObject(i, _) => i == me
    case CommitUpload(i) => i == me
    case LockForReingest(i) => i == me
    case WeighReingest(i) => i == me
    case CommitReingest(i) => i == me
    case Die(i) => i == me
    case _ => false
  }

  predicate Undisturbed(s: State, s': State, me: nat) {
    me < |s.threads| ==> me < |s'.threads| && s'.threads[me] == s.threads[me]
  }

  lemma ForeignStep(s: State, step: Step, me: nat, limits: Limits)
    requires Enabled(s, step) && !IsOwnStep(step, me)
    ensures Undisturbed(s, Apply(s, step, limits), me)
  {
    hide Bytes, Active, FindKey, WithoutDoc, WithoutTasksOf, Moved, CheckIdempotent, Refuses;
  }

  class DocService {
    const limits: Limits
    var docs: seq<DocRow>
    var tasks: seq<TaskRow>
    var nextId: nat
    var lock: Option<nat>
    var threads: seq<Thread>

    function Now(): State
      reads this
    {
      State(docs, tasks, nextId, lock, threads)
    }

    constructor (limits: Limits)
      ensures this.limits == limits && Now() == EMPTY
    {
      this.limits := limits;
      docs, tasks, nextId, lock, threads := [], [], 0, None, [];
    }

    /** Another participant takes a step. */
    method Take(s: State)
      modifies this
      ensures Now() == s
    {
      docs, tasks, nextId, lock, threads := s.docs, s.tasks, s.nextId, s.lock, s.threads;
    }

    /** The gap between two statements: the others take those of `steps` that they can. */
    method Others(steps: seq<Step>, me: nat, ghost start: State, ghost run: seq<Step>) returns (ghost run': seq<Step>)
      requires IsRun(start, run, limits) && Now() == After(start, run, limits)
      modifies this
      ensures IsRun(start, run', limits) && Now() == After(start, run', limits)
      ensures Undisturbed(old(Now()), Now(), me)
    {
      hide Enabled, Apply, IsOwnStep;
      run' := run;
      for k := 0 to |steps|
        invariant IsRun(start, run', limits) && Now() == After(start, run', limits)
        invariant Undisturbed(old(Now()), Now(), me)
      {
        var s := Now();
        if Enabled(s, steps[k]) && !IsOwnStep(steps[k], me) {
          ForeignStep(s, steps[k], me, limits);
          ExtendRun(start, run', steps[k], limits);
          Take(Apply(s, steps[k], limits));
          run' := run' + [steps[k]];
        }
      }
    }

    // -------------------------------------------------------------- statements

    method Goes(me: nat, phase: Phase)
      requires InPhase(Now(), me)
      modifies this`threads
      ensures Now() == UploadProtocol.Goes(old(Now()), me, phase)
    {
      threads := threads[me := threads[me].(phase := phase)];
    }

    /** The transaction ends and gives up its lock. */
    method Ends(me: nat, outcome: Outcome)
      requires InPhase(Now(), me)
      modifies this`threads, this`lock
      ensures Now() == UploadProtocol.Ends(old(Now()), me, outcome)
    {
      Goes(me, Done(outcome));
      if lock == Some(me) {
        lock := None;
      }
    }

    /** The idempotency check before the lock. */
    method LookForTwin(me: nat)
      requires Enabled(Now(), PreCheck(me))
      modifies this`threads, this`lock
      ensures Now() == AfterPreCheck(old(Now()), me)
    {
      hide FindKey;
      match CheckIdempotent(FindKey(tasks, threads[me].key)) {
        case AlreadyCompleted(row) => Ends(me, Twin(row.id));
        case InFlight(row) => Ends(me, Twin(row.id));
        case PreviousFailed(row) => Goes(me, Checked(Some(row)));
        case NewTask => Goes(me, Checked(None));
      }
    }

    /** The check under the lock, by the same session. */
    method LookAgain(me: nat)
      requires Enabled(Now(), Recheck(me))
      modifies this`threads, this`lock
      ensures Now() == AfterRecheck(old(Now()), me)
    {
      hide FindKey;
      var found := FindKey(tasks, threads[me].key);
      var seen := threads[me].phase.seen;
      if found.Some? && seen.Some? && found.value.id == seen.value.id {
        found := seen;
      }
      match CheckIdempotent(found) {
        case AlreadyCompleted(row) => Ends(me, Twin(row.id));
        case InFlight(row) => Ends(me, Twin(row.id));
        case PreviousFailed(row) => Goes(me, Rechecked(Some(row.id)));
        case NewTask => Goes(me, Rechecked(None));
      }
    }

    /** The quota comparisons, once everything is read. */
    method Compare(me: nat)
      requires Enabled(Now(), ReadActive(me))
      modifies this`threads, this`lock
      ensures Now() == AfterReadActive(old(Now()), me, limits)
      ensures var Uploading(_, size, Counted(prior, used, count)) := old(threads)[me];
              var t := old(threads)[me];
              && (threads[me] == t.(phase := Cleared(prior)) <==>
                    && size <= limits.maxFile && used + size <= limits.maxStorage
                    && count < limits.maxDocuments && Active(tasks) < limits.maxActive)
              && (threads[me] == t.(phase := Done(Refused(FileTooLarge))) <==> size > limits.maxFile)
              && (threads[me] == t.(phase := Done(Refused(StorageFull))) <==>
                    size <= limits.maxFile && used + size > limits.maxStorage)
              && (threads[me] == t.(phase := Done(Refused(TooManyDocuments))) <==>
                    size <= limits.maxFile && used + size <= limits.maxStorage && count >= limits.maxDocuments)
              && (threads[me] == t.(phase := Done(Refused(TooManyTasks))) <==>
                    && size <= limits.maxFile && used + size <= limits.maxStorage
                    && count < limits.maxDocuments && Active(tasks) >= limits.maxActive)
    {
      hide Active;
      var Uploading(_, size, Counted(prior, used, count)) := threads[me];
      if size > limits.maxFile {
        Ends(me, Refused(FileTooLarge));
      } else if used + size > limits.maxStorage {
        Ends(me, Refused(StorageFull));
      } else if count >= limits.maxDocuments {
        Ends(me, Refused(TooManyDocuments));
      } else if Active(tasks) >= limits.maxActive {
        Ends(me, Refused(TooManyTasks));
      } else {
        Goes(me, Cleared(prior));
      }
    }

    /** The commit: the document, its task and the event, or a violated constraint and nothing. */
    method Insert(me: nat)
      requires Enabled(Now(), CommitUpload(me))
      modifies this
      ensures Now() == AfterCommit(old(Now()), me)
    {
      hide FindKey;
      var Uploading(key, size, _) := threads[me];
      if FindKey(tasks, key).Some? {
        Ends(me, UniqueViolation);
      } else {
        Ends(me, Created(nextId));
        docs := docs + [DocRow(nextId, size)];
        tasks := tasks + [TaskRow(nextId, nextId, key, Pending)];
        nextId := nextId + 1;
      }
    }

    // -------------------------------------------------------------- the method

    /** Up to the second check.  It comes back unfinished while another transaction has the lock. */
    method Enter(me: nat, others: nat -> seq<Step>, ghost start: State, ghost run: seq<Step>)
      returns (ghost run': seq<Step>)
      requires IsRun(start, run, limits) && Now() == After(start, run, limits)
      requires InPhase(Now(), me) && threads[me].phase.Begun?
      modifies this
      ensures IsRun(start, run', limits) && Now() == After(start, run', limits)
      ensures InPhase(Now(), me) && threads[me] == old(threads[me]).(phase := threads[me].phase)
      ensures threads[me].phase.Checked? ==> lock.Some?
      ensures threads[me].phase.Checked? || threads[me].phase.Rechecked?
              || (threads[me].phase.Done? && threads[me].phase.outcome.Twin?)
    {
      hide IsRun, After, CheckIdempotent;
      run' := Others(others(0), me, start, run);
      ExtendRun(start, run', PreCheck(me), limits);
      LookForTwin(me);
      run' := run' + [PreCheck(me)];
      if threads[me].phase.Checked? {
        run' := Others(others(1), me, start, run');
        if lock == None {
          ExtendRun(start, run', LockTenant(me), limits);
          Goes(me, Locked(threads[me].phase.seen));
          lock := Some(me);
          run' := run' + [LockTenant(me)];
          run' := Others(others(2), me, start, run');
          ExtendRun(start, run', Recheck(me), limits);
          LookAgain(me);
          run' := run' + [Recheck(me)];
        }
      }
    }

    /** The three reads and the comparisons. */
    method Weigh(me: nat, others: nat -> seq<Step>, ghost start: State, ghost run: seq<Step>)
      returns (ghost run': seq<Step>)
      requires IsRun(start, run, limits) && Now() == After(start, run, limits)
      requires InPhase(Now(), me) && threads[me].phase.Rechecked?
      modifies this
      ensures IsRun(start, run', limits) && Now() == After(start, run', limits)
      ensures InPhase(Now(), me) && threads[me] == old(threads[me]).(phase := threads[me].phase)
      ensures threads[me].phase.Cleared? || (threads[me].phase.Done? && threads[me].phase.outcome.Refused?)
    {
      hide IsRun, After, Refuses, Bytes, Active;
      run' := Others(others(3), me, start, run);
      ExtendRun(start, run', ReadStorage(me), limits);
      Goes(me, Summed(threads[me].phase.prior, Bytes(docs)));
      run' := run' + [ReadStorage(me)];
      run' := Others(others(4), me, start, run');
      ExtendRun(start, run', ReadCount(me), limits);
      Goes(me, Counted(threads[me].phase.prior, threads[me].phase.used, |docs|));
      run' := run' + [ReadCount(me)];
      run' := Others(others(5), me, start, run');
      ExtendRun(start, run', ReadActive(me), limits);
      Compare(me);
      run' := run' + [ReadActive(me)];
    }

    /** The object is stored first, then the rows are committed. */
    method Persist(me: nat, stored: bool, others: nat -> seq<Step>, ghost start: State, ghost run: seq<Step>)
      returns (ghost run': seq<Step>)
      requires IsRun(start, run, limits) && Now() == After(start, run, limits)
      requires InPhase(Now(), me) && threads[me].phase.Cleared?
      modifies this
      ensures IsRun(start, run', limits) && Now() == After(start, run', limits)
      ensures InPhase(Now(), me) && threads[me] == old(threads[me]).(phase := threads[me].phase)
      ensures threads[me].phase.Done?
      ensures threads[me].phase.outcome.Created?
        ==> TaskRow(threads[me].phase.outcome.task, threads[me].phase.outcome.task, threads[me].key, Pending) in tasks
      ensures threads[me].phase.outcome == StorageUnavailable <==> !stored
      ensures threads[me].phase.outcome != Died
    {
      hide IsRun, After, FindKey;
      run' := Others(others(6), me, start, run);
      ExtendRun(start, run', PutObject(me, stored), limits);
      run' := run' + [PutObject(me, stored)];
      if !stored {
        Ends(me, StorageUnavailable);
        return;
      }
      Goes(me, Stored(threads[me].phase.prior));
      run' := Others(others(7), me, start, run');
      ExtendRun(start, run', CommitUpload(me), limits);
      Insert(me);
      run' := run' + [CommitUpload(me)];
    }

    /** `upload_document`.  It returns nothing only while it waits for the tenant lock. */
    method UploadDocument(key: Key, size: nat, stored: bool, others: nat -> seq<Step>)
      returns (outcome: Option<Outcome>, me: nat, ghost run: seq<Step>)
      requires Inv(Now(), limits) && key.Fingerprint?
      modifies this
      ensures IsRun(old(Now()), run, limits) && Now() == After(old(Now()), run, limits)
      ensures Inv(Now(), limits)
      ensures me == |old(threads)| && InPhase(Now(), me) && threads[me].key == key && threads[me].size == size
      ensures match outcome
              case Some(o) => threads[me].phase == Done(o)
              case None => threads[me].phase.Checked? && lock.Some?
      ensures outcome != Some(Died) && (outcome == Some(StorageUnavailable) ==> !stored)
      ensures outcome.Some? && outcome.value.Created?
        ==> TaskRow(outcome.value.task, outcome.value.task, key, Pending) in tasks
    {
      hide IsRun, After, Inv;
      ghost var start := Now();
      me := |threads|;
      OneStep(start, BeginUpload(key, size), limits);
      threads := threads + [Uploading(key, size, Begun)];
      run := [BeginUpload(key, size)];
      run := Enter(me, others, start, run);
      if threads[me].phase.Rechecked? {
        run := Weigh(me, others, start, run);
        if threads[me].phase.Cleared? {
          run := Persist(me, stored, others, start, run);
        }
      }
      outcome := if threads[me].phase.Done? then Some(threads[me].phase.outcome) else None;
      RunKeepsInv(start, run, limits);
    }
  }
}
