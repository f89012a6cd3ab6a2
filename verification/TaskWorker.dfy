/** The publisher loop and the worker's handling of one message, as sequential code whose commits are
    interleaved with the commits of everybody else.

    `env` tells, for each gap between two actions of the code, which steps the rest of the system takes
    there; it is arbitrary.  Every method returns the run it took part in as a ghost trace, so whatever
    is proved about runs holds for these programs. */
module TaskWorker {
  import opened Options
  import opened TaskFsm
  import opened TaskRows
  import opened TaskProtocol
  import opened TaskDatabase
  import opened TaskInvariant
  import opened TaskSteps
  import opened TaskDelivery

  /** How `process_document` ends. */
  datatype Processing = Returns(partial: bool) | Raises(error: ErrorText)

  /** What became of one delivered message. */
  datatype Handling =
    | Skipped
    | DocumentMissing
    | Finished(partial: bool)
    | RecordedFailure
    | OwnershipLost

  /** Steps that only the publisher in slot `p` itself takes. */
  predicate IsPublisherStep(step: Step, p: nat) {
    || (step.XaddStep? && step.p == p)
    || (step.ReadFailureStep? && step.p == p)
    || (step.WriteFailureStep? && step.p == p)
    || (step.MarkStep? && step.p == p)
    || (step.PublisherCrash? && step.p == p)
  }

  /** Steps that only the session in slot `i` itself takes.  Its heartbeats run beside it. */
  predicate IsSessionStep(step: Step, i: nat) {
    || (step.AcquireStep? && step.i == i)
    || (step.DocMissingStep? && step.i == i)
    || (step.ProgressStep? && step.i == i)
    || (step.CompleteStep? && step.i == i)
    || (step.FailStep? && step.i == i)
    || (step.AckStep? && step.i == i)
    || (step.SessionCrash? && step.i == i)
  }

  datatype Self = PublisherSelf(p: nat) | SessionSelf(i: nat) | Nobody

  predicate IsOwnStep(step: Step, me: Self) {
    match me
    case PublisherSelf(p) => IsPublisherStep(step, p)
    case SessionSelf(i) => IsSessionStep(step, i)
    case Nobody => false
  }

  /** The slot of the acting program is where it left it. */
  predicate Undisturbed(s: State, s': State, me: Self) {
    match me
    case PublisherSelf(p) =>
      p < |s.publishers| ==> p < |s'.publishers| && s'.publishers[p] == s.publishers[p]
    case SessionSelf(i) =>
      i < |s.sessions| ==> i < |s'.sessions| && s'.sessions[i] == s.sessions[i]
    case Nobody => true
  }

  lemma ForeignStep(s: State, step: Step, me: Self)
    requires Enabled(s, step) && !IsOwnStep(step, me)
    ensures Undisturbed(s, Apply(s, step), me)
  {
  }

  lemma EmptyRun(s: State)
    ensures IsRun(s, []) && After(s, []) == s
  {
  }

  class System {
    const db: Database
    var clock: Time
    var maxAttempts: nat
    var usedTasks: set<TaskId>
    var usedDocs: set<DocId>
    var stream: seq<Message>
    var acked: set<nat>
    var publishers: seq<Publisher>
    var sessions: seq<Session>

    ghost function Now(): State
      reads this, db
    {
      State(clock, maxAttempts, db.Rows(), usedTasks, usedDocs, stream, acked, publishers, sessions)
    }

    /** The state an executable program can read. */
    function Snapshot(): (s: State)
      reads this, db
      ensures s == Now()
    {
      State(clock, maxAttempts, db.Rows(), usedTasks, usedDocs, stream, acked, publishers, sessions)
    }

    constructor (clock: Time, maxAttempts: nat)
      requires maxAttempts >= 1
      ensures Init(Now()) && fresh(db)
    {
      db := new Database();
      this.clock, this.maxAttempts := clock, maxAttempts;
      usedTasks, usedDocs, stream, acked, publishers, sessions := {}, {}, [], {}, [], [];
    }

    /** Another participant takes a step. */
    method Take(s: State)
      modifies this, db
      ensures Now() == s
    {
      clock, maxAttempts := s.clock, s.maxAttempts;
      db.Rollback(s.db);
      usedTasks, usedDocs, stream, acked := s.usedTasks, s.usedDocs, s.stream, s.acked;
      publishers, sessions := s.publishers, s.sessions;
    }

    /** The gap between two actions: the others take those of `steps` that are enabled. */
    method Others(steps: seq<Step>, me: Self) returns (ghost trace: seq<Step>)
      modifies this, db
      ensures IsRun(old(Now()), trace) && Now() == After(old(Now()), trace)
      ensures Undisturbed(old(Now()), Now(), me)
      ensures old(clock) <= clock
      ensures steps == [] ==> trace == [] && Now() == old(Now())
      ensures forall k :: 0 <= k < |trace| ==> !IsOwnStep(trace[k], me)
    {
      hide Enabled, Apply, IsOwnStep, Undisturbed;
      trace := [];
      EmptyRun(Now());
      Untouched(Now(), me);
      for k := 0 to |steps|
        invariant IsRun(old(Now()), trace) && Now() == After(old(Now()), trace)
        invariant Undisturbed(old(Now()), Now(), me)
        invariant |trace| <= k && old(clock) <= clock
        invariant forall j :: 0 <= j < |trace| ==> !IsOwnStep(trace[j], me)
      {
        var s := Snapshot();
        if Enabled(s, steps[k]) && !IsOwnStep(steps[k], me) {
          ForeignStep(s, steps[k], me);
          TimeAndIdsGrow(s, steps[k]);
          StillUndisturbed(old(Now()), s, Apply(s, steps[k]), me);
          ExtendRun(old(Now()), trace, steps[k]);
          Take(Apply(s, steps[k]));
          trace := trace + [steps[k]];
        }
      }
    }

    lemma Untouched(s: State, me: Self)
      ensures Undisturbed(s, s, me)
    {
    }

    lemma StillUndisturbed(s: State, s': State, s'': State, me: Self)
      requires Undisturbed(s, s', me) && Undisturbed(s', s'', me)
      ensures Undisturbed(s, s'', me)
    {
    }

    // -------------------------------------------------------------- outbox.py

    /** The claiming commit.  The event claimed is the oldest due one that nobody has locked. */
    method Claim(locked: set<EventKey>, only: Option<TaskId>) returns (p: Option<nat>)
      modifies this, db
      ensures p.None? ==> Now() == old(Now())
      ensures p.None? <==> forall key :: !Selectable(old(db.outbox), key, locked, only, old(clock))
      ensures p.Some? ==>
        && p.value == |old(publishers)| && p.value < |publishers|
        && publishers[p.value].phase == Claimed
        && Selectable(old(db.outbox), publishers[p.value].event, locked, only, old(clock))
        && (forall key :: Selectable(old(db.outbox), key, locked, only, old(clock)) ==>
              old(db.outbox)[publishers[p.value].event].created <= old(db.outbox)[key].created)
        && Enabled(old(Now()), ClaimStep(publishers[p.value].event, old(clock)))
        && Now() == Apply(old(Now()), ClaimStep(publishers[p.value].event, old(clock)))
    {
      var claimed := db.ClaimOldestEvent(locked, only, clock);
      if claimed.None? {
        return None;
      }
      p := Some(|publishers|);
      publishers := publishers + [Publisher(claimed.value, Claimed)];
    }

    method Xadd(p: nat, outcome: XaddOutcome)
      requires InPhase(Now(), p, Claimed)
      modifies this
      ensures Now() == Apply(old(Now()), XaddStep(p, outcome))
    {
      var event := publishers[p].event;
      if outcome != Lost {
        stream := stream + [Message(event, clock)];
      }
      publishers := publishers[p := Publisher(event, if outcome == Stored then Appended else Raised)];
    }

    /** The SELECT after a failed `xadd`.  Nothing is left to do when the event is gone. */
    method ReadFailure(p: nat) returns (read: Option<Event>)
      requires InPhase(Now(), p, Raised)
      modifies this, db
      ensures Now() == Apply(old(Now()), ReadFailureStep(p))
      ensures p < |publishers| && publishers[p].event == old(publishers)[p].event
      ensures match read
              case Some(e) => publishers[p].phase == Recording(e, clock)
              case None => publishers[p].phase == PublisherGone
    {
      read := db.ReadEvent(publishers[p].event);
      publishers := publishers[p := publishers[p].(phase := if read.Some? then Recording(read.value, clock)
                                                            else PublisherGone)];
    }

    /** The flush and commit of what was computed from the row that was read. */
    method WriteFailure(p: nat, now: Time) returns (matched: bool)
      requires Enabled(Now(), WriteFailureStep(p, now))
      modifies this, db
      ensures Now() == Apply(old(Now()), WriteFailureStep(p, now))
      ensures matched == (old(publishers)[p].event in old(Now()).db.outbox)
      ensures !matched ==> old(publishers)[p].event !in db.outbox
    {
      matched := db.RecordPublicationFailure(publishers[p].event, publishers[p].phase.read, now);
      publishers := publishers[p := publishers[p].(phase := PublisherGone)];
    }

    method Mark(p: nat) returns (rowcount: nat)
      requires InPhase(Now(), p, Appended)
      modifies this, db
      ensures Now() == Apply(old(Now()), MarkStep(p))
      ensures rowcount == if CanMark(old(Now()).db, old(publishers)[p].event) then 1 else 0
      ensures rowcount == 1 ==>
        var key := old(publishers)[p].event;
        key in db.outbox && db.outbox[key].status == EventPublished
    {
      rowcount := db.MarkEventPublished(publishers[p].event);
      publishers := publishers[p := publishers[p].(phase := PublisherGone)];
    }

    /** The last step of an iteration that claimed an event. */
    static predicate EndsIteration(step: Step, p: nat, outcome: XaddOutcome) {
      if outcome == Stored then step == MarkStep(p)
      else step == ReadFailureStep(p) || (step.WriteFailureStep? && step.p == p)
    }

    /** One iteration of `publish_pending`: claim, `xadd`, then mark or record the failure.  It raises when
        the event was deleted between the two statements of the failure branch. */
    method PublishOne(only: Option<TaskId>, outcome: XaddOutcome, env: nat -> seq<Step>)
      returns (found: bool, published: nat, raised: bool, ghost trace: seq<Step>)
      modifies this, db
      ensures IsRun(old(Now()), trace) && Now() == After(old(Now()), trace)
      ensures found <==> exists key :: Selectable(old(db.outbox), key, {}, only, old(clock))
      ensures !found ==> trace == [] && published == 0
      ensures found ==>
        var p := |old(publishers)|;
        && |trace| >= 3
        && trace[0].ClaimStep? && trace[0].now == old(clock)
        && Selectable(old(db.outbox), trace[0].event, {}, only, old(clock))
        && (forall key :: Selectable(old(db.outbox), key, {}, only, old(clock)) ==>
              old(db.outbox)[trace[0].event].created <= old(db.outbox)[key].created)
        && XaddStep(p, outcome) in trace
        && EndsIteration(trace[|trace| - 1], p, outcome)
      ensures published == 1 ==>
        trace[0].event in db.outbox && db.outbox[trace[0].event].status == EventPublished
      ensures published <= 1 && (outcome != Stored ==> published == 0) && (raised ==> outcome != Stored)
      ensures found && outcome == Stored && env(0) == [] && env(1) == [] ==> published == 1
    {
      hide Enabled, Apply, Selectable;
      ghost var start := Now();
      var p := Claim({}, only);
      EmptyRun(start);
      if p.None? {
        return false, 0, false, [];
      }
      ghost var claim := ClaimStep(publishers[p.value].event, old(clock));
      ClaimedRow(start, claim);
      ExtendRun(start, [], claim);
      ghost var rest;
      published, raised, rest := PublishClaimed(p.value, outcome, env);
      RunsCompose(start, [claim], rest);
      return true, published, raised, [claim] + rest;
    }

    /** The rest of the iteration, from the claimed event on. */
    method PublishClaimed(p: nat, outcome: XaddOutcome, env: nat -> seq<Step>)
      returns (published: nat, raised: bool, ghost trace: seq<Step>)
      requires InPhase(Now(), p, Claimed)
      modifies this, db
      ensures IsRun(old(Now()), trace) && Now() == After(old(Now()), trace)
      ensures |trace| >= 2 && XaddStep(p, outcome) in trace
      ensures EndsIteration(trace[|trace| - 1], p, outcome)
      ensures published <= 1 && (outcome != Stored ==> published == 0) && (raised ==> outcome != Stored)
      ensures published == 1 ==>
        var key := old(publishers)[p].event;
        key in db.outbox && db.outbox[key].status == EventPublished
      ensures outcome == Stored && env(0) == [] && env(1) == [] && CanMark(old(Now()).db, old(publishers)[p].event)
        ==> published == 1
    {
      hide Enabled, Apply;
      ghost var start := Now();
      var me := PublisherSelf(p);
      ghost var gap0 := Others(env(0), me);
      ghost var beforeXadd := Now();
      XaddEnabled(beforeXadd, p, outcome);
      Xadd(p, outcome);
      AfterXadd(beforeXadd, p, outcome);
      ExtendRun(start, gap0, XaddStep(p, outcome));
      trace := gap0 + [XaddStep(p, outcome)];
      ghost var gap1 := Others(env(1), me);
      RunsCompose(start, trace, gap1);
      trace := trace + gap1;
      raised := false;
      if outcome == Stored {
        MarkEnabled(Now(), p);
        published := Mark(p);
        ExtendRun(start, trace, MarkStep(p));
        trace := trace + [MarkStep(p)];
      } else {
        published := 0;
        raised, trace := RecordFailure(start, trace, p, env);
        assert trace[|gap0|] == XaddStep(p, outcome);
      }
    }

    /** The failure branch: a SELECT, a clock reading, and the write. */
    method RecordFailure(ghost start: State, ghost before: seq<Step>, p: nat, env: nat -> seq<Step>)
      returns (raised: bool, ghost trace: seq<Step>)
      requires IsRun(start, before) && Now() == After(start, before) && InPhase(Now(), p, Raised)
      modifies this, db
      ensures IsRun(start, trace) && Now() == After(start, trace) && before < trace
      ensures trace[|trace| - 1] == ReadFailureStep(p)
           || (trace[|trace| - 1].WriteFailureStep? && trace[|trace| - 1].p == p)
      ensures raised ==> old(publishers)[p].event !in db.outbox
    {
      hide Enabled, Apply;
      var me := PublisherSelf(p);
      ReadEnabled(Now(), p);
      var read := ReadFailure(p);
      ExtendRun(start, before, ReadFailureStep(p));
      trace := before + [ReadFailureStep(p)];
      raised := false;
      if read.Some? {
        ghost var since := clock;
        ghost var gap2 := Others(env(2), me);
        RunsCompose(start, trace, gap2);
        trace := trace + gap2;
        var now := clock;
        ghost var gap3 := Others(env(3), me);
        RunsCompose(start, trace, gap3);
        trace := trace + gap3;
        WriteEnabled(Now(), p, read.value, since, now);
        var matched := WriteFailure(p, now);
        ExtendRun(start, trace, WriteFailureStep(p, now));
        trace := trace + [WriteFailureStep(p, now)];
        raised := !matched;
      }
    }

    lemma ClaimedRow(s: State, claim: Step)
      requires claim.ClaimStep? && Enabled(s, claim)
      ensures CanMark(Apply(s, claim).db, claim.event)
    {
    }

    lemma XaddEnabled(s: State, p: nat, outcome: XaddOutcome)
      requires InPhase(s, p, Claimed)
      ensures Enabled(s, XaddStep(p, outcome))
    {
    }

    lemma MarkEnabled(s: State, p: nat)
      requires InPhase(s, p, Appended)
      ensures Enabled(s, MarkStep(p))
    {
    }

    lemma ReadEnabled(s: State, p: nat)
      requires InPhase(s, p, Raised)
      ensures Enabled(s, ReadFailureStep(p))
    {
    }

    lemma WriteEnabled(s: State, p: nat, read: Event, since: Time, now: Time)
      requires InPhase(s, p, Recording(read, since)) && since <= now <= s.clock
      ensures Enabled(s, WriteFailureStep(p, now))
    {
    }

    lemma AfterXadd(s: State, p: nat, outcome: XaddOutcome)
      requires Enabled(s, XaddStep(p, outcome))
      ensures Apply(s, XaddStep(p, outcome)).db == s.db
      ensures Apply(s, XaddStep(p, outcome)).publishers[p].event == s.publishers[p].event
      ensures InPhase(Apply(s, XaddStep(p, outcome)), p, if outcome == Stored then Appended else Raised)
    {
    }

    /** `publish_pending`: at most `limit` iterations, stopping when no event is due or when an iteration
        raises.  When Redis is
        up and nobody interferes, it stops early only because no event is due any more. */
    method PublishPending(limit: nat, only: Option<TaskId>, outcomes: nat -> XaddOutcome,
                          env: nat -> nat -> seq<Step>)
      returns (published: nat, raised: bool, ghost trace: seq<Step>)
      modifies this, db
      ensures IsRun(old(Now()), trace) && Now() == After(old(Now()), trace)
      ensures published <= limit
      ensures (forall k :: outcomes(k) == Stored && env(k)(0) == [] && env(k)(1) == []) ==>
        published == limit || forall key :: !Selectable(db.outbox, key, {}, only, clock)
    {
      hide Enabled, Apply, Selectable;
      published := 0;
      raised := false;
      trace := [];
      EmptyRun(Now());
      for k := 0 to limit
        invariant IsRun(old(Now()), trace) && Now() == After(old(Now()), trace)
        invariant published <= k
        invariant (forall j :: outcomes(j) == Stored && env(j)(0) == [] && env(j)(1) == []) ==> published == k
      {
        var found, one;
        ghost var steps;
        found, one, raised, steps := PublishOne(only, outcomes(k), env(k));
        RunsCompose(old(Now()), trace, steps);
        trace := trace + steps;
        if !found || raised {
          return;
        }
        published := published + one;
      }
    }

    // -------------------------------------------------------------- worker/main.py

    /** `xreadgroup` or `xautoclaim` hands out an unacknowledged message. */
    method Deliver(worker: string, m: nat) returns (i: nat)
      requires m < |stream| && m !in acked
      modifies this
      ensures Enabled(old(Now()), DeliverStep(worker, m))
      ensures Now() == Apply(old(Now()), DeliverStep(worker, m))
      ensures i == |old(sessions)| && i < |sessions|
      ensures sessions[i] == Session(worker, m, stream[m].event, Delivered(clock))
      ensures clock == old(clock) && stream == old(stream)
    {
      i := |sessions|;
      sessions := sessions + [Session(worker, m, stream[m].event, Delivered(clock))];
    }

    method Acquire(i: nat) returns (acquired: bool)
      requires i < |sessions| && sessions[i].phase.Delivered? && sessions[i].phase.since <= clock
      modifies this, db
      ensures Enabled(old(Now()), AcquireStep(i, old(clock)))
      ensures Now() == Apply(old(Now()), AcquireStep(i, old(clock)))
      ensures acquired == CanAcquire(old(Now()).db, old(sessions)[i].event.task, old(clock))
      ensures i < |sessions| && (if acquired then sessions[i].phase.Owning? else sessions[i].phase.Acking?)
    {
      var task;
      acquired, task := db.AcquireTaskLease(sessions[i].event.task, sessions[i].worker, ACQUIRE_LEASE, clock);
      if acquired {
        sessions := sessions[i := sessions[i].(phase := Owning(HoldingOf(sessions[i].event.task, task.value)))];
      } else {
        sessions := sessions[i := sessions[i].(phase := Acking)];
      }
    }

    /** The canonical document is missing: FAILED if still owned, and acknowledged in any case. */
    method FailMissing(i: nat)
      requires IsOwning(Now(), i) && !DocPresent(db.Rows(), sessions[i].phase.held)
      modifies this, db
      ensures Enabled(old(Now()), DocMissingStep(i)) && Now() == Apply(old(Now()), DocMissingStep(i))
      ensures i < |sessions| && sessions[i].phase.Acking?
    {
      var h := sessions[i].phase.held;
      var r := db.UpdateTaskStatusCas(h.task, Running, Failed, h.token, Failure(sessions[i].worker, MissingDocument));
      sessions := sessions[i := sessions[i].(phase := Acking)];
    }

    method ReportProgress(i: nat, stage: Stage, percent: int) returns (updated: bool)
      requires IsOwning(Now(), i)
      modifies this, db
      ensures Enabled(old(Now()), ProgressStep(i, stage, percent))
      ensures Now() == Apply(old(Now()), ProgressStep(i, stage, percent))
      ensures i < |sessions| && (if updated then sessions[i].phase.Owning? else sessions[i].phase.Raising?)
      ensures updated <==>
        Owns(old(Now()).db, old(sessions)[i].phase.held.task, old(sessions)[i].worker, old(sessions)[i].phase.held.token)
    {
      var h := sessions[i].phase.held;
      updated := db.UpdateTaskProgressCas(h.task, sessions[i].worker, h.token, stage, percent);
      if !updated {
        sessions := sessions[i := sessions[i].(phase := Raising(h))];
      }
    }

    method Finalise(i: nat, partial: bool) returns (transitioned: bool)
      requires IsOwning(Now(), i)
      modifies this, db
      ensures Enabled(old(Now()), CompleteStep(i, partial))
      ensures Now() == Apply(old(Now()), CompleteStep(i, partial))
      ensures transitioned == CanComplete(old(Now()).db, CompletionOf(old(Now()), i, partial))
      ensures i < |sessions| && (if transitioned then sessions[i].phase.Acking? else sessions[i].phase.Raising?)
      ensures !transitioned ==>
        db.Rows() == old(db.Rows()) && sessions[i] == old(sessions)[i].(phase := Raising(old(sessions)[i].phase.held))
    {
      var h := sessions[i].phase.held;
      var r := db.CompleteTaskWithGeneration(
        Completion(h.task, h.tenant, h.doc, h.token, sessions[i].worker, h.target,
                   if partial then PartialSucceeded else Succeeded, !partial));
      transitioned := r.value;
      sessions := sessions[i := sessions[i].(phase := if transitioned then Acking else Raising(h))];
    }

    method RecordFailed(i: nat, error: ErrorText) returns (failed: bool)
      requires i < |sessions| && (sessions[i].phase.Owning? || sessions[i].phase.Raising?)
      modifies this, db
      ensures Enabled(old(Now()), FailStep(i, error)) && Now() == Apply(old(Now()), FailStep(i, error))
      ensures i < |sessions| && (if failed then sessions[i].phase.Acking? else sessions[i].phase.SessionGone?)
      ensures var h := old(sessions)[i].phase.held;
              failed == Owns(old(Now()).db, h.task, old(sessions)[i].worker, h.token)
    {
      var h := sessions[i].phase.held;
      var r := db.UpdateTaskStatusCas(h.task, Running, Failed, h.token, Failure(sessions[i].worker, error));
      failed := r.value;
      sessions := sessions[i := sessions[i].(phase := if failed then Acking else SessionGone)];
    }

    method Ack(i: nat)
      requires i < |sessions| && sessions[i].phase.Acking?
      modifies this
      ensures Enabled(old(Now()), AckStep(i)) && Now() == Apply(old(Now()), AckStep(i))
      ensures acked == old(acked) + {old(sessions)[i].message}
    {
      acked := acked + {sessions[i].message};
      sessions := sessions[i := sessions[i].(phase := SessionGone)];
    }

    /** A gap in the program of session `i`. */
    method Gap(ghost start: State, ghost trace: seq<Step>, steps: seq<Step>, i: nat)
      returns (ghost longer: seq<Step>)
      requires IsRun(start, trace) && Now() == After(start, trace) && i < |sessions|
      modifies this, db
      ensures IsRun(start, longer) && Now() == After(start, longer)
      ensures trace <= longer
      ensures forall k :: |trace| <= k < |longer| ==> !IsSessionStep(longer[k], i)
      ensures i < |sessions| && sessions[i] == old(sessions)[i] && old(clock) <= clock
      ensures steps == [] ==> Now() == old(Now())
    {
      hide Enabled, Apply;
      ghost var more := Others(steps, SessionSelf(i));
      RunsCompose(start, trace, more);
      longer := trace + more;
    }

    /** The session in slot `i` holds its task's lease. */
    ghost predicate OwnsTask(i: nat)
      reads this, db
    {
      IsOwning(Now(), i)
      && Owns(Now().db, sessions[i].phase.held.task, sessions[i].worker, sessions[i].phase.held.token)
    }

    /** A completion of this kind would go through. */
    ghost predicate MayFinish(i: nat, partial: bool)
      reads this, db
    {
      IsOwning(Now(), i) && CanComplete(Now().db, CompletionOf(Now(), i, partial))
    }

    /** A report of the owner goes through and leaves it the owner. */
    lemma OwnerReports(s: State, i: nat, stage: Stage, percent: int, partial: bool)
      requires IsOwning(s, i)
      requires Owns(s.db, s.sessions[i].phase.held.task, s.sessions[i].worker, s.sessions[i].phase.held.token)
      ensures Enabled(s, ProgressStep(i, stage, percent))
      ensures var s' := Apply(s, ProgressStep(i, stage, percent));
              && s'.sessions == s.sessions
              && Owns(s'.db, s.sessions[i].phase.held.task, s.sessions[i].worker, s.sessions[i].phase.held.token)
              && (CanComplete(s.db, CompletionOf(s, i, partial)) <==> CanComplete(s'.db, CompletionOf(s', i, partial)))
    {
    }

    /** The progress reports of one attempt; the first that finds the lease lost raises. */
    method Report(ghost start: State, ghost before: seq<Step>, i: nat, reports: seq<(Stage, int)>, env: nat -> seq<Step>)
      returns (raised: bool, ghost trace: seq<Step>)
      requires IsRun(start, before) && Now() == After(start, before) && IsOwning(Now(), i)
      modifies this, db
      ensures IsRun(start, trace) && Now() == After(start, trace) && before <= trace
      ensures i < |sessions| && sessions[i].message == old(sessions)[i].message
      ensures if raised then sessions[i].phase.Raising? else sessions[i].phase.Owning?
      ensures (forall k :: env(k) == []) && old(OwnsTask(i)) ==>
        !raised && OwnsTask(i) && forall partial :: old(MayFinish(i, partial)) <==> MayFinish(i, partial)
    {
      hide Enabled, Apply, IsRun, After, CanComplete, Owns;
      trace := before;
      raised := false;
      for k := 0 to |reports|
        invariant (forall j :: env(j) == []) && old(OwnsTask(i)) ==>
          !raised && OwnsTask(i) && forall partial :: old(MayFinish(i, partial)) <==> MayFinish(i, partial)
        invariant IsRun(start, trace) && Now() == After(start, trace) && before <= trace
        invariant i < |sessions| && sessions[i].message == old(sessions)[i].message
        invariant if raised then sessions[i].phase.Raising? else sessions[i].phase.Owning?
      {
        trace := Gap(start, trace, env(k), i);
        if !raised {
          ghost var s := Now();
          if OwnsTask(i) {
            OwnerReports(s, i, reports[k].0, reports[k].1, true);
            OwnerReports(s, i, reports[k].0, reports[k].1, false);
          }
          var updated := ReportProgress(i, reports[k].0, reports[k].1);
          MessageKept(s, ProgressStep(i, reports[k].0, reports[k].1), i);
          ExtendRun(start, trace, ProgressStep(i, reports[k].0, reports[k].1));
          trace := trace + [ProgressStep(i, reports[k].0, reports[k].1)];
          raised := !updated;
        }
      }
    }

    /** The processing callback calls of one attempt, and how `process_document` ends. */
    method Process(ghost start: State, ghost before: seq<Step>, i: nat, reports: seq<(Stage, int)>,
                   processing: Processing, env: nat -> seq<Step>)
      returns (handling: Handling, ghost trace: seq<Step>)
      requires IsRun(start, before) && Now() == After(start, before) && IsOwning(Now(), i)
      modifies this, db
      ensures IsRun(start, trace) && Now() == After(start, trace) && before <= trace
      ensures i < |sessions|
      ensures handling.Finished? ==>
        sessions[i].phase.Acking? && processing == Returns(handling.partial)
        && trace[|trace| - 1] == CompleteStep(i, handling.partial)
      ensures handling.RecordedFailure? ==>
        sessions[i].phase.Acking? && trace[|trace| - 1].FailStep? && trace[|trace| - 1].i == i
      ensures handling.OwnershipLost? ==>
        sessions[i].phase.SessionGone? && trace[|trace| - 1].FailStep? && trace[|trace| - 1].i == i
      ensures handling.Finished? || handling.RecordedFailure? || handling.OwnershipLost?
      ensures |trace| > |before| && sessions[i].message == old(sessions)[i].message
      ensures (forall k :: env(k) == []) && old(OwnsTask(i)) && processing.Raises? ==>
        handling == RecordedFailure && trace[|trace| - 1] == FailStep(i, processing.error)
      ensures (forall k :: env(k) == []) && old(OwnsTask(i)) && processing.Returns? ==>
        if old(MayFinish(i, processing.partial)) then handling == Finished(processing.partial)
        else handling == RecordedFailure
    {
      hide Enabled, Apply, IsRun, After, CanComplete, Owns;
      var raised;
      raised, trace := Report(start, before, i, reports, env);
      trace := Gap(start, trace, env(|reports|), i);
      if !raised && processing.Returns? {
        ghost var s := Now();
        var transitioned := Finalise(i, processing.partial);
        MessageKept(s, CompleteStep(i, processing.partial), i);
        ExtendRun(start, trace, CompleteStep(i, processing.partial));
        trace := trace + [CompleteStep(i, processing.partial)];
        if transitioned {
          return Finished(processing.partial), trace;
        }
      }
      handling, trace := Fail(start, trace, i, if processing.Raises? then processing.error else ExceptionText(""),
                              env(|reports| + 1));
    }

    /** The outer exception handler. */
    method Fail(ghost start: State, ghost before: seq<Step>, i: nat, error: ErrorText, steps: seq<Step>)
      returns (handling: Handling, ghost trace: seq<Step>)
      requires IsRun(start, before) && Now() == After(start, before)
      requires i < |sessions| && (sessions[i].phase.Owning? || sessions[i].phase.Raising?)
      modifies this, db
      ensures IsRun(start, trace) && Now() == After(start, trace)
      ensures before < trace && trace[|trace| - 1] == FailStep(i, error)
      ensures i < |sessions| && sessions[i].message == old(sessions)[i].message
      ensures handling == RecordedFailure ==> sessions[i].phase.Acking?
      ensures handling == OwnershipLost ==> sessions[i].phase.SessionGone?
      ensures handling == RecordedFailure || handling == OwnershipLost
      ensures steps == [] ==>
        var h := old(sessions)[i].phase.held;
        handling == RecordedFailure <==> Owns(old(Now()).db, h.task, old(sessions)[i].worker, h.token)
    {
      hide Enabled, Apply, IsRun, After, Owns;
      trace := Gap(start, before, steps, i);
      ghost var s := Now();
      var failed := RecordFailed(i, error);
      MessageKept(s, FailStep(i, error), i);
      ExtendRun(start, trace, FailStep(i, error));
      trace := trace + [FailStep(i, error)];
      handling := if failed then RecordedFailure else OwnershipLost;
    }

    lemma MessageKept(s: State, step: Step, i: nat)
      requires Enabled(s, step) && i < |s.sessions|
      ensures i < |Apply(s, step).sessions| && Apply(s, step).sessions[i].message == s.sessions[i].message
    {
    }

    /** What a session that has just acquired its task can do. */
    lemma JustAcquired(s: State, i: nat, now: Time)
      requires Enabled(s, AcquireStep(i, now)) && CanAcquire(s.db, s.sessions[i].event.task, now)
      ensures var s', t := Apply(s, AcquireStep(i, now)), s.db.tasks[s.sessions[i].event.task];
              && IsOwning(s', i)
              && Owns(s'.db, s'.sessions[i].phase.held.task, s'.sessions[i].worker, s'.sessions[i].phase.held.token)
              && (DocPresent(s'.db, s'.sessions[i].phase.held) <==> CanBeRead(s.db, t))
              && CanComplete(s'.db, CompletionOf(s', i, true))
              && (CanComplete(s'.db, CompletionOf(s', i, false)) <==>
                    CanBeRead(s.db, t) && s.db.docs[t.doc].active <= t.target)
    {
    }

    /** The task's document is there, under the task's tenant. */
    static predicate CanBeRead(db: Db, t: Task) {
      t.doc in db.docs && db.docs[t.doc].tenant == t.tenant
    }

    /** Takes the message and asks for the lease of its task. */
    method Open(worker: string, m: nat, env: nat -> seq<Step>)
      returns (i: nat, acquired: bool, ghost trace: seq<Step>)
      requires m < |stream| && m !in acked
      modifies this, db
      ensures IsRun(old(Now()), trace) && Now() == After(old(Now()), trace)
      ensures |trace| >= 2 && trace[0] == DeliverStep(worker, m)
      ensures i == |old(sessions)| && i < |sessions| && sessions[i].message == m
      ensures if acquired then sessions[i].phase.Owning? else sessions[i].phase.Acking?
      ensures (forall k :: env(k) == []) ==>
        var rows, id := old(db.Rows()), old(stream)[m].event.task;
        && acquired == CanAcquire(rows, id, old(clock))
        && (acquired ==>
              var t := rows.tasks[id];
              && OwnsTask(i)
              && (DocPresent(db.Rows(), sessions[i].phase.held) <==> CanBeRead(rows, t))
              && MayFinish(i, true) && (MayFinish(i, false) <==> CanBeRead(rows, t) && rows.docs[t.doc].active <= t.target))
    {
      hide Enabled, Apply, CanAcquire, CanComplete, Owns, DocPresent;
      ghost var start := Now();
      EmptyRun(start);
      i := Deliver(worker, m);
      ExtendRun(start, [], DeliverStep(worker, m));
      trace := [] + [DeliverStep(worker, m)];
      trace := Gap(start, trace, env(0), i);
      ghost var s := Now();
      acquired := Acquire(i);
      if acquired {
        JustAcquired(s, i, s.clock);
      }
      MessageKept(s, AcquireStep(i, s.clock), i);
      ExtendRun(start, trace, AcquireStep(i, s.clock));
      trace := trace + [AcquireStep(i, s.clock)];
      trace := Gap(start, trace, env(1), i);
    }

    method Acknowledge(ghost start: State, ghost before: seq<Step>, i: nat, steps: seq<Step>)
      returns (ghost trace: seq<Step>)
      requires IsRun(start, before) && Now() == After(start, before)
      requires i < |sessions| && sessions[i].phase.Acking?
      modifies this, db
      ensures IsRun(start, trace) && Now() == After(start, trace)
      ensures before < trace && trace[|trace| - 1] == AckStep(i) && old(sessions)[i].message in acked
    {
      hide Enabled, Apply, IsRun, After;
      trace := Gap(start, before, steps, i);
      Ack(i);
      ExtendRun(start, trace, AckStep(i));
      trace := trace + [AckStep(i)];
    }

    method Missing(ghost start: State, ghost before: seq<Step>, i: nat) returns (ghost trace: seq<Step>)
      requires IsRun(start, before) && Now() == After(start, before)
      requires IsOwning(Now(), i) && !DocPresent(db.Rows(), sessions[i].phase.held)
      modifies this, db
      ensures IsRun(start, trace) && Now() == After(start, trace) && trace == before + [DocMissingStep(i)]
      ensures i < |sessions| && sessions[i].phase.Acking? && sessions[i].message == old(sessions)[i].message
    {
      hide Enabled, Apply, IsRun, After, DocPresent;
      ghost var s := Now();
      FailMissing(i);
      MessageKept(s, DocMissingStep(i), i);
      ExtendRun(start, before, DocMissingStep(i));
      trace := before + [DocMissingStep(i)];
    }

    /** What becomes of a message when nobody interferes. */
    static ghost predicate Expected(rows: Db, id: TaskId, now: Time, processing: Processing, handling: Handling) {
      if !CanAcquire(rows, id, now) then handling == Skipped
      else
        var t := rows.tasks[id];
        if !CanBeRead(rows, t) then handling == DocumentMissing
        else if processing.Raises? then handling == RecordedFailure
        else if processing.partial || rows.docs[t.doc].active <= t.target then handling == Finished(processing.partial)
        else handling == RecordedFailure
    }

    static lemma ExpectedSkip(rows: Db, id: TaskId, now: Time, processing: Processing)
      ensures !CanAcquire(rows, id, now) ==> Expected(rows, id, now, processing, Skipped)
    {
    }

    static lemma ExpectedTreat(rows: Db, id: TaskId, now: Time, processing: Processing, handling: Handling,
                               present: bool, may: bool)
      requires CanAcquire(rows, id, now) && (present <==> CanBeRead(rows, rows.tasks[id]))
      requires processing.Returns? && processing.partial ==> may
      requires processing.Returns? && !processing.partial ==>
        (may <==> CanBeRead(rows, rows.tasks[id]) && rows.docs[rows.tasks[id].doc].active <= rows.tasks[id].target)
      requires handling == DocumentMissing <==> !present
      requires present ==>
        if processing.Raises? then handling == RecordedFailure
        else if may then handling == Finished(processing.partial) else handling == RecordedFailure
      ensures Expected(rows, id, now, processing, handling)
    {
    }

    /** From the acquired task to its final status. */
    method Treat(ghost start: State, ghost before: seq<Step>, i: nat, reports: seq<(Stage, int)>,
                 processing: Processing, env: nat -> seq<Step>)
      returns (handling: Handling, ghost trace: seq<Step>)
      requires IsRun(start, before) && Now() == After(start, before) && IsOwning(Now(), i)
      modifies this, db
      ensures IsRun(start, trace) && Now() == After(start, trace) && before < trace
      ensures i < |sessions| && sessions[i].message == old(sessions)[i].message
      ensures !handling.OwnershipLost? ==> sessions[i].phase.Acking?
      ensures handling.OwnershipLost? ==> trace[|trace| - 1].FailStep? && trace[|trace| - 1].i == i
      ensures handling.Finished? ==> processing == Returns(handling.partial)
      ensures handling == DocumentMissing <==> !DocPresent(old(db.Rows()), old(sessions)[i].phase.held)
      ensures handling != Skipped
      ensures (forall k :: env(k) == []) && old(OwnsTask(i)) && handling != DocumentMissing ==>
        if processing.Raises? then handling == RecordedFailure && FailStep(i, processing.error) in trace
        else if old(MayFinish(i, processing.partial)) then handling == Finished(processing.partial)
        else handling == RecordedFailure
    {
      hide IsRun, After, CanComplete, Owns, DocPresent, Enabled, Apply;
      if !DocPresent(db.Rows(), sessions[i].phase.held) {
        trace := Missing(start, before, i);
        return DocumentMissing, trace;
      }
      handling, trace := Process(start, before, i, reports, processing, env);
    }

    /** The worker's handling of one message.  The message is acknowledged exactly when the task could
        not be acquired, its document is gone, or this worker itself recorded the final status; when
        ownership was lost it stays in the stream. */
    method HandleMessage(worker: string, m: nat, reports: seq<(Stage, int)>, processing: Processing,
                         env: nat -> seq<Step>)
      returns (handling: Handling, ghost trace: seq<Step>)
      requires m < |stream| && m !in acked
      modifies this, db
      ensures IsRun(old(Now()), trace) && Now() == After(old(Now()), trace)
      ensures var i := |old(sessions)|;
              && |trace| >= 2 && trace[0] == DeliverStep(worker, m)
              && (!handling.OwnershipLost? ==> m in acked && trace[|trace| - 1] == AckStep(i))
              && (handling.OwnershipLost? ==> trace[|trace| - 1].FailStep? && trace[|trace| - 1].i == i)
      ensures handling.Finished? ==> processing == Returns(handling.partial)
      ensures (forall k :: env(k) == []) ==>
        Expected(old(db.Rows()), old(stream)[m].event.task, old(clock), processing, handling)
      ensures (forall k :: env(k) == []) && handling == RecordedFailure && processing.Raises? ==>
        FailStep(|old(sessions)|, processing.error) in trace
    {
      hide IsRun, After, CanAcquire, DocPresent, CanBeRead, System.MayFinish, System.OwnsTask, System.Expected;
      hide Enabled, Apply;
      ghost var start := Now();
      var i, acquired;
      i, acquired, trace := Open(worker, m, env);
      ghost var id := start.stream[m].event.task;
      if !acquired {
        handling := Skipped;
        ExpectedSkip(start.db, id, start.clock, processing);
      } else {
        ghost var may, present := MayFinish(i, processing.Returns? && processing.partial),
                                  DocPresent(db.Rows(), sessions[i].phase.held);
        handling, trace := Treat(start, trace, i, reports, processing, (k: nat) => env(k + 3));
        if forall k :: env(k) == [] {
          ExpectedTreat(start.db, id, start.clock, processing, handling, present, may);
        }
        if handling.OwnershipLost? {
          return;
        }
      }
      trace := Acknowledge(start, trace, i, env(2));
    }

    /** Redis stores what it is given, and nobody comes between. */
    static ghost predicate Calm(outcomes: nat -> XaddOutcome, env: nat -> nat -> seq<Step>) {
      forall k :: outcomes(k) == Stored && env(k)(0) == [] && env(k)(1) == []
    }

    /** Ten events were published, or no event is due any more. */
    static ghost predicate Exhausted(s: State, published: nat) {
      published == 10 || forall key :: !Selectable(s.db.outbox, key, {}, None, s.clock)
    }

    /** One round of the loop.  `mid` is the state in which Redis hands out a message. */
    method Round(worker: string, m: nat, reports: seq<(Stage, int)>, processing: Processing,
                 outcomes: nat -> XaddOutcome, publishEnv: nat -> nat -> seq<Step>, env: nat -> seq<Step>)
      returns (ghost trace: seq<Step>, ghost mid: State, published: nat)
      modifies this, db
      ensures IsRun(old(Now()), trace) && Now() == After(old(Now()), trace)
      ensures Calm(outcomes, publishEnv) ==> Exhausted(mid, published)
      ensures m < |mid.stream| && m !in mid.acked ==> DeliverStep(worker, m) in trace
    {
      hide Enabled, Apply, Selectable;
      var raised;
      published, raised, trace := PublishPending(10, None, outcomes, publishEnv);
      mid := Now();
      if m < |stream| && m !in acked {
        var handling;
        ghost var steps;
        handling, steps := HandleMessage(worker, m, reports, processing, env);
        RunsCompose(old(Now()), trace, steps);
        trace := trace + steps;
      }
    }

    /** The worker's main loop: publish what is due (an exception there is caught), take a message if there
        is one, handle it.  From any reachable state on, no queued task is forgotten.  `pick` stands for the
        message Redis hands out, `picks` for the states in which it does, `counts` for the events published
        before that, and `work` for the documents' contents. */
    method RunWorker(worker: string, rounds: nat, pick: nat -> nat, work: nat -> (seq<(Stage, int)>, Processing),
                     outcomes: nat -> nat -> XaddOutcome, publishEnv: nat -> nat -> nat -> seq<Step>,
                     env: nat -> nat -> seq<Step>)
      returns (ghost trace: seq<Step>, ghost picks: seq<State>, ghost counts: seq<nat>)
      modifies this, db
      ensures IsRun(old(Now()), trace) && Now() == After(old(Now()), trace)
      ensures |picks| == rounds && |counts| == rounds
      ensures forall k | 0 <= k < rounds && Calm(outcomes(k), publishEnv(k)) :: Exhausted(picks[k], counts[k])
      ensures forall k | 0 <= k < rounds && pick(k) < |picks[k].stream| && pick(k) !in picks[k].acked ::
                DeliverStep(worker, pick(k)) in trace
      ensures Inv(old(Now())) ==> Inv(Now())
      ensures Inv(old(Now())) ==>
        forall id :: id in db.tasks && Queued(db.tasks[id]) ==> CanBeWoken(Now(), id)
    {
      hide Enabled, Apply, Inv, IsRun, After, System.Exhausted, System.Calm;
      trace, picks, counts := [], [], [];
      EmptyRun(Now());
      for k := 0 to rounds
        invariant IsRun(old(Now()), trace) && Now() == After(old(Now()), trace)
        invariant |picks| == k && |counts| == k
        invariant forall j | 0 <= j < k && Calm(outcomes(j), publishEnv(j)) :: Exhausted(picks[j], counts[j])
        invariant forall j | 0 <= j < k && pick(j) < |picks[j].stream| && pick(j) !in picks[j].acked ::
                    DeliverStep(worker, pick(j)) in trace
      {
        ghost var steps, mid;
        var published;
        steps, mid, published := Round(worker, pick(k), work(k).0, work(k).1, outcomes(k), publishEnv(k), env(k));
        RunsCompose(old(Now()), trace, steps);
        trace := trace + steps;
        picks, counts := picks + [mid], counts + [published];
      }
      if Inv(old(Now())) {
        RunKeepsInv(old(Now()), trace);
        AllCanBeWoken(Now());
      }
    }

    lemma AllCanBeWoken(s: State)
      requires Inv(s)
      ensures forall id :: id in s.db.tasks && Queued(s.db.tasks[id]) ==> CanBeWoken(s, id)
    {
      forall id | id in s.db.tasks && Queued(s.db.tasks[id])
        ensures CanBeWoken(s, id)
      {
        QueuedCanBeWoken(s, id);
      }
    }
  }
}
