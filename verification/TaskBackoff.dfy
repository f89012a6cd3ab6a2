/** The times of publication: how the backoff grows, and when an event's time can move.

    The failure branch of a publisher reads the event, computes a new time from what it read and writes
    it later, without a lock in between.  So the time can move to an earlier one, and this module says
    exactly when. */
module TaskBackoff {
  import opened TaskRows
  import opened TaskProtocol
  import opened TaskInvariant
  import opened TaskSteps
  import opened TaskDelivery

  lemma {:induction false} Pow2Grows(m: nat, n: nat)
    requires m <= n
    ensures Pow2(m) <= Pow2(n)
    decreases n
  {
    if m < n {
      Pow2Grows(m, n - 1);
    }
  }

  /** The delay of a failed publication doubles from one second and stops at 256 seconds: the cap of 300
      in the code is never reached. */
  lemma PublishBackoffDoubles(attempts: nat)
    ensures PublishBackoff(0) == SECOND
    ensures PublishBackoff(attempts + 1) == if attempts < 8 then 2 * PublishBackoff(attempts) else 256 * SECOND
  {
    Pow2Grows(Min(attempts + 1, 8), 8);
    assert Pow2(8) == 2 * Pow2(7) == 4 * Pow2(6) == 8 * Pow2(5) == 16 * Pow2(4) == 256;
  }

  /** The delay of a recovered task doubles from ten seconds on and stops at five minutes. */
  lemma RecoveryBackoffDoubles(attempt: nat)
    ensures RecoveryBackoff(1) == 10 * SECOND
    ensures RecoveryBackoff(attempt + 1) == Min(300 * SECOND, 2 * RecoveryBackoff(attempt))
  {
    assert Pow2(1) == 2 * Pow2(0) == 2;
  }

  lemma BackoffGrows(attempts: nat)
    ensures 0 <= PublishBackoff(attempts) <= PublishBackoff(attempts + 1) <= 300 * SECOND
  {
    Pow2Grows(Min(attempts, 8), Min(attempts + 1, 8));
  }

  // ---------------------------------------------------------------- when a time moves earlier

  predicate MovesEarlier(s: State, step: Step, key: EventKey)
    requires Enabled(s, step)
  {
    && key in s.db.outbox && key in DbAfter(s, step).outbox
    && DbAfter(s, step).outbox[key].available < s.db.outbox[key].available
  }

  /** The write of a failure whose new time lies before the one the row has by now. */
  predicate WritesTooEarly(s: State, step: Step, key: EventKey)
    requires Enabled(s, step)
  {
    && step.WriteFailureStep? && s.publishers[step.p].event == key && key in s.db.outbox
    && var read := s.publishers[step.p].phase.read;
       && DueAgain(read, step.now) != read.available
       && DueAgain(read, step.now) < s.db.outbox[key].available
  }

  /** An event's time moves earlier in exactly this case, whatever the state and whoever acts. */
  lemma AvailableMovesEarlierExactly(s: State, step: Step, key: EventKey)
    requires Enabled(s, step)
    ensures MovesEarlier(s, step, key) <==> WritesTooEarly(s, step, key)
  {
    hide PublishBackoff;
    if key in s.db.outbox && key in DbAfter(s, step).outbox {
      EventRow(s, step, key);
    }
  }

  lemma EventRow(s: State, step: Step, key: EventKey)
    requires Enabled(s, step) && key in DbAfter(s, step).outbox && key in s.db.outbox
    ensures var e, e' := s.db.outbox[key], DbAfter(s, step).outbox[key];
            if step.WriteFailureStep? && s.publishers[step.p].event == key
            then e' == FailedEvent(e, s.publishers[step.p].phase.read, step.now)
            else e'.available == e.available && e'.attempts == e.attempts
  {
    hide FailedEvent, RecoveredRow;
  }

  // ---------------------------------------------------------------- what else a late write can do

  predicate Is(db: Db, key: EventKey, status: EventStatus) {
    key in db.outbox && db.outbox[key].status == status
  }

  /** A published event goes back to PENDING, and leaves PUBLISHED at all, in exactly one case: a failure is
      written by a publisher that read the event in another state than PENDING. */
  lemma PublishedIsLeftExactly(s: State, step: Step, key: EventKey)
    requires Enabled(s, step) && Is(s.db, key, EventPublished) && key in DbAfter(s, step).outbox
    ensures !Is(DbAfter(s, step), key, EventPublished) <==>
              && step.WriteFailureStep? && s.publishers[step.p].event == key
              && s.publishers[step.p].phase.read.status != EventPending
    ensures !Is(DbAfter(s, step), key, EventPublished) ==> Is(DbAfter(s, step), key, EventPending)
  {
    hide PublishBackoff, RecoveredRow;
  }

  /** PUBLISHING without a lease: no publisher can claim such an event. */
  predicate Unclaimable(db: Db, key: EventKey) {
    Is(db, key, EventPublishing) && db.outbox[key].lease.None?
  }

  /** An event becomes unclaimable in exactly one case: a failure is written, while the event is being
      published, by a publisher that read it as PENDING with a lease, so that only the lease is cleared. */
  lemma BecomesUnclaimableExactly(s: State, step: Step, key: EventKey)
    requires Enabled(s, step) && !Unclaimable(s.db, key)
    ensures Unclaimable(DbAfter(s, step), key) <==>
              && step.WriteFailureStep? && s.publishers[step.p].event == key && Is(s.db, key, EventPublishing)
              && s.publishers[step.p].phase.read.status == EventPending
              && s.publishers[step.p].phase.read.lease.Some?
  {
    hide PublishBackoff, RecoveredRow;
  }

  /** Nobody claims an unclaimable event, and only a publisher that has it already frees it: by marking it, or
      by writing a failure after reading it in another state than PENDING. */
  lemma UnclaimableIsLeftExactly(s: State, step: Step, key: EventKey)
    requires Enabled(s, step) && Unclaimable(s.db, key) && key in DbAfter(s, step).outbox
    ensures !(step.ClaimStep? && step.event == key)
    ensures !Unclaimable(DbAfter(s, step), key) <==>
              || (step.MarkStep? && s.publishers[step.p].event == key)
              || (step.WriteFailureStep? && s.publishers[step.p].event == key
                  && s.publishers[step.p].phase.read.status != EventPending)
  {
    hide PublishBackoff, RecoveredRow;
  }

  // ---------------------------------------------------------------- who can move a time earlier

  /** An event in the hands of a publisher was due when it was claimed, and only a failed attempt at
      publishing it can have moved it since; the same holds of the row that a publisher has read. */
  predicate PatientFor(s: State, p: Publisher) {
    && (p.phase != PublisherGone && p.event in s.db.outbox ==>
          s.db.outbox[p.event].available <= s.clock + PublishBackoff(s.db.outbox[p.event].attempts))
    && (p.phase.Recording? ==> p.phase.read.available <= p.phase.since + PublishBackoff(p.phase.read.attempts))
  }

  ghost predicate PublishersPatient(s: State) {
    forall p | 0 <= p < |s.publishers| :: PatientFor(s, s.publishers[p])
  }

  lemma BackoffCeiling(attempts: nat)
    ensures PublishBackoff(attempts) <= 256 * SECOND
  {
    if attempts > 0 {
      PublishBackoffDoubles(attempts - 1);
      Pow2Grows(Min(attempts, 8), 8);
      PublishBackoffDoubles(8);
    }
  }

  /** The new time is not before the one that was read, and equal to it only at the ceiling. */
  lemma DueAgainIsLater(read: Event, since: Time, now: Time)
    requires read.available <= since + PublishBackoff(read.attempts) && since <= now
    ensures read.available <= DueAgain(read, now)
    ensures read.available == DueAgain(read, now) ==> PublishBackoff(read.attempts + 1) == 256 * SECOND
  {
    BackoffGrows(read.attempts);
    PublishBackoffDoubles(read.attempts);
    hide PublishBackoff;
    if read.attempts < 8 {
      BackoffPositive(read.attempts);
    }
  }

  lemma BackoffPositive(attempts: nat)
    ensures PublishBackoff(attempts) > 0
  {
  }

  lemma WriteStaysPatient(s: State, p: nat, now: Time)
    requires PublishersPatient(s) && Enabled(s, WriteFailureStep(p, now)) && s.publishers[p].event in s.db.outbox
    ensures var e' := DbAfter(s, WriteFailureStep(p, now)).outbox[s.publishers[p].event];
            e'.available <= s.clock + PublishBackoff(e'.attempts)
  {
    hide PublishBackoff;
    var Publisher(key, Recording(read, since)) := s.publishers[p];
    assert PatientFor(s, s.publishers[p]);
    DueAgainIsLater(read, since, now);
    BackoffCeiling(s.db.outbox[key].attempts);
  }

  /** Where a publisher that is at work comes from. */
  lemma PublisherOldOrNew(s: State, step: Step, p: nat)
    requires Enabled(s, step) && p < |Apply(s, step).publishers|
    requires Apply(s, step).publishers[p].phase != PublisherGone
    ensures var x := Apply(s, step).publishers[p];
            || (p < |s.publishers| && s.publishers[p].phase != PublisherGone && s.publishers[p].event == x.event
                && (x.phase.Recording? ==>
                      || (s.publishers[p] == x && !(step.WriteFailureStep? && step.p == p))
                      || (step == ReadFailureStep(p) && x.event in s.db.outbox
                          && x.phase == Recording(s.db.outbox[x.event], s.clock))))
            || (step.ClaimStep? && step.event == x.event && x.phase == Claimed
                && x.event in s.db.outbox && s.db.outbox[x.event].available <= s.clock)
  {
    hide DbAfter;
  }

  lemma HeldEventIsOld(s: State, step: Step, key: EventKey)
    requires Inv(s) && Enabled(s, step) && Known(s, key) && key in DbAfter(s, step).outbox
    ensures key in s.db.outbox
  {
    StepKeepsDb(s, step);
    CommitKeepsKey(s, DbAfter(s, step), key, s.clock);
    assert key.task in DbAfter(s, step).tasks;
  }

  lemma PatientOf(s: State, p: nat)
    requires Inv(s) && PublishersPatient(s) && p < |s.publishers|
    ensures PatientFor(s, s.publishers[p])
    ensures s.publishers[p].phase != PublisherGone ==> Known(s, s.publishers[p].event)
  {
    assert PublisherOk(s, s.publishers[p]);
  }

  lemma DbOf(s: State, step: Step)
    requires Enabled(s, step)
    ensures Apply(s, step).db == DbAfter(s, step)
    ensures step.WriteFailureStep? ==> Apply(s, step).clock == s.clock && IsRecording(s, step.p)
    ensures step.ReadFailureStep? ==> Apply(s, step).clock == s.clock && DbAfter(s, step) == s.db
  {
  }

  lemma PatientStep(s: State, step: Step, p: nat)
    requires Inv(s) && PublishersPatient(s) && Enabled(s, step) && p < |Apply(s, step).publishers|
    ensures PatientFor(Apply(s, step), Apply(s, step).publishers[p])
  {
    hide Apply, DbAfter, Inv, Enabled, PublishersPatient, PublishBackoff;
    var s' := Apply(s, step);
    var x := s'.publishers[p];
    var key := x.event;
    if x.phase != PublisherGone {
      PublisherOldOrNew(s, step, p);
      DbOf(s, step);
      TimeAndIdsGrow(s, step);
      if p < |s.publishers| {
        PatientOf(s, p);
      }
      if key in s'.db.outbox {
        if p < |s.publishers| && s.publishers[p].phase != PublisherGone && s.publishers[p].event == key {
          HeldEventIsOld(s, step, key);
        }
        BackoffGrows(s.db.outbox[key].attempts);
        EventRow(s, step, key);
        if step.WriteFailureStep? && s.publishers[step.p].event == key {
          WriteStaysPatient(s, step.p, step.now);
        }
      }
    }
  }

  lemma PublishersPatientStep(s: State, step: Step)
    requires Inv(s) && PublishersPatient(s) && Enabled(s, step)
    ensures PublishersPatient(Apply(s, step))
  {
    hide Inv, Enabled, Apply, PatientFor;
    forall p | 0 <= p < |Apply(s, step).publishers|
      ensures PatientFor(Apply(s, step), Apply(s, step).publishers[p])
    {
      PatientStep(s, step, p);
    }
  }

  lemma {:induction false} PublishersPatientInRun(s: State, steps: seq<Step>)
    requires Inv(s) && PublishersPatient(s) && IsRun(s, steps)
    ensures PublishersPatient(After(s, steps))
    decreases |steps|
  {
    hide Inv, Enabled, Apply, PublishersPatient;
    if steps != [] {
      PublishersPatientStep(s, steps[0]);
      StepKeepsInv(s, steps[0]);
      PublishersPatientInRun(Apply(s, steps[0]), steps[1..]);
    }
  }

  lemma NoPublishersYet(s: State)
    requires Init(s)
    ensures PublishersPatient(s) && NoneMoved(s)
  {
  }

  /** In every run, whatever overlaps: a step moves an event's time earlier only if it writes a failure and
      somebody else has moved the time later since its publisher read it. */
  lemma OnlyOvertakenWritesMoveEarlier(s: State, steps: seq<Step>, step: Step, key: EventKey)
    requires Init(s) && IsRun(s, steps) && Enabled(After(s, steps), step)
    requires MovesEarlier(After(s, steps), step, key)
    ensures var s' := After(s, steps);
            && step.WriteFailureStep? && s'.publishers[step.p].event == key && key in s'.db.outbox
            && s'.publishers[step.p].phase.read.available < s'.db.outbox[key].available
  {
    hide Enabled, DbAfter, PublishersPatient, Inv, DueAgain;
    InitHasInv(s);
    NoPublishersYet(s);
    PublishersPatientInRun(s, steps);
    RunKeepsInv(s, steps);
    var s' := After(s, steps);
    AvailableMovesEarlierExactly(s', step, key);
    DbOf(s', step);
    PatientOf(s', step.p);
    WriteIsAfterRead(s', step.p, step.now);
    DueAgainIsLater(s'.publishers[step.p].phase.read, s'.publishers[step.p].phase.since, step.now);
  }

  lemma WriteIsAfterRead(s: State, p: nat, now: Time)
    requires Enabled(s, WriteFailureStep(p, now))
    ensures IsRecording(s, p) && s.publishers[p].phase.since <= now
  {
  }

  // ---------------------------------------------------------------- one recording at a time

  /** No two publishers are between the read and the write for the same event.  A row lock on the read
      would see to that. */
  ghost predicate Serial(s: State) {
    forall p, q | 0 <= p < q < |s.publishers| && IsRecording(s, p) && IsRecording(s, q) ::
      s.publishers[p].event != s.publishers[q].event
  }

  ghost predicate SerialRun(s: State, steps: seq<Step>)
    decreases |steps|
  {
    Serial(s) && (steps == [] || (Enabled(s, steps[0]) && SerialRun(Apply(s, steps[0]), steps[1..])))
  }

  /** The time of the row is still the one that was read. */
  predicate Unmoved(s: State, p: Publisher) {
    p.phase.Recording? && p.event in s.db.outbox ==> p.phase.read.available == s.db.outbox[p.event].available
  }

  ghost predicate NoneMoved(s: State) {
    forall p | 0 <= p < |s.publishers| :: Unmoved(s, s.publishers[p])
  }

  lemma SerialOf(s: State, p: nat, q: nat)
    requires Serial(s) && IsRecording(s, p) && IsRecording(s, q) && p != q
    ensures s.publishers[p].event != s.publishers[q].event
  {
  }

  lemma UnmovedStep(s: State, step: Step, p: nat)
    requires Inv(s) && NoneMoved(s) && Serial(s) && Enabled(s, step) && p < |Apply(s, step).publishers|
    ensures Unmoved(Apply(s, step), Apply(s, step).publishers[p])
  {
    hide Apply, DbAfter, Inv, Enabled, Serial;
    var s' := Apply(s, step);
    var x := s'.publishers[p];
    if x.phase.Recording? && x.event in s'.db.outbox {
      PublisherOldOrNew(s, step, p);
      DbOf(s, step);
      KnownPublisher(s, p);
      HeldEventIsOld(s, step, x.event);
      EventRow(s, step, x.event);
      if step.WriteFailureStep? && step.p != p {
        SerialOf(s, step.p, p);
      }
    }
  }

  lemma KnownPublisher(s: State, p: nat)
    requires Inv(s) && p < |s.publishers| && s.publishers[p].phase != PublisherGone
    ensures Known(s, s.publishers[p].event)
  {
    assert PublisherOk(s, s.publishers[p]);
  }

  lemma {:induction false} NoneMovedInRun(s: State, steps: seq<Step>)
    requires Inv(s) && NoneMoved(s) && SerialRun(s, steps) && IsRun(s, steps)
    ensures NoneMoved(After(s, steps))
    decreases |steps|
  {
    hide Inv, Enabled, Apply, Serial, Unmoved;
    if steps != [] {
      forall p | 0 <= p < |Apply(s, steps[0]).publishers|
        ensures Unmoved(Apply(s, steps[0]), Apply(s, steps[0]).publishers[p])
      {
        UnmovedStep(s, steps[0], p);
      }
      StepKeepsInv(s, steps[0]);
      NoneMovedInRun(Apply(s, steps[0]), steps[1..]);
    }
  }

  /** So while failures of one event are recorded one at a time, no event's time ever moves earlier. */
  lemma SerialNeverMovesEarlier(s: State, steps: seq<Step>, step: Step, key: EventKey)
    requires Init(s) && SerialRun(s, steps) && IsRun(s, steps) && Enabled(After(s, steps), step)
    ensures !MovesEarlier(After(s, steps), step, key)
  {
    hide Enabled, DbAfter, Inv, SerialRun, MovesEarlier;
    InitHasInv(s);
    NoPublishersYet(s);
    NoneMovedInRun(s, steps);
    if MovesEarlier(After(s, steps), step, key) {
      OnlyOvertakenWritesMoveEarlier(s, steps, step, key);
      DbOf(After(s, steps), step);
      assert Unmoved(After(s, steps), After(s, steps).publishers[step.p]);
      assert false;
    }
  }
}
