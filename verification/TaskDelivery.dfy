/** Nothing that was queued is forgotten. */
module TaskDelivery {
  import opened TaskFsm
  import opened TaskRows
  import opened TaskProtocol
  import opened TaskInvariant
  import opened TaskSteps

  lemma InitHasInv(s: State)
    requires Init(s)
    ensures Inv(s)
  {
  }

  lemma {:induction false} RunKeepsInv(s: State, steps: seq<Step>)
    requires Inv(s) && IsRun(s, steps)
    ensures Inv(After(s, steps))
    decreases |steps|
  {
    hide Inv, Apply, Enabled;
    if steps != [] {
      StepKeepsInv(s, steps[0]);
      RunKeepsInv(Apply(s, steps[0]), steps[1..]);
    }
  }

  /** A message that is still in the stream and will be delivered again until acknowledged. */
  predicate Undelivered(s: State, m: nat, key: EventKey) {
    m < |s.stream| && m !in s.acked && s.stream[m].event == key
  }

  /** The event that can wake `id` is still to be published (and can be claimed, at the latest when a
      publisher's lease is over), or one of its messages is unacknowledged. */
  ghost predicate CanBeWoken(s: State, id: TaskId)
    requires id in s.db.tasks
  {
    var key := EventKey(id, LiveKind(s.db.tasks[id]));
    && key in s.db.outbox
    && (|| !Delivers(s.db.outbox[key])
        || exists m :: Undelivered(s, m, key))
  }

  lemma LiveMessageUnacked(s: State, id: TaskId, m: nat)
    requires Inv(s) && id in s.db.tasks && Queued(s.db.tasks[id])
    requires m < |s.stream| && s.stream[m].event == EventKey(id, LiveKind(s.db.tasks[id]))
    ensures m !in s.acked
  {
    if m in s.acked {
      assert AckOk(s, m);
      assert HasLiveEvent(s.db, id);
      assert Issued(s.db.tasks[id], LiveKind(s.db.tasks[id]));
      SpentIsNotLive(s.db.tasks[id], LiveKind(s.db.tasks[id]));
      assert false;
    }
  }

  lemma QueuedCanBeWoken(s: State, id: TaskId)
    requires Inv(s) && id in s.db.tasks && Queued(s.db.tasks[id])
    ensures CanBeWoken(s, id)
  {
    var key := EventKey(id, LiveKind(s.db.tasks[id]));
    assert HasLiveEvent(s.db, id);
    if Delivers(s.db.outbox[key]) {
      var m: nat :| m < |s.stream| && s.stream[m].event == key;
      LiveMessageUnacked(s, id, m);
      assert Undelivered(s, m, key);
    }
  }

  /** No lost wake-up: whatever the interleaving and whoever crashes, a PENDING or RETRY_WAITING task
      still has its wake-up in the outbox or in the stream. */
  lemma NoLostWakeUp(s: State, steps: seq<Step>, id: TaskId)
    requires Init(s) && IsRun(s, steps)
    requires id in After(s, steps).db.tasks && Queued(After(s, steps).db.tasks[id])
    ensures CanBeWoken(After(s, steps), id)
  {
    InitHasInv(s);
    RunKeepsInv(s, steps);
    QueuedCanBeWoken(After(s, steps), id);
  }

  /** At least once: a PUBLISHED event was appended to the stream, whatever publishers crash or overlap. */
  lemma PublishedWasAppended(s: State, steps: seq<Step>, key: EventKey)
    requires Init(s) && IsRun(s, steps)
    requires key in After(s, steps).db.outbox && After(s, steps).db.outbox[key].status == EventPublished
    ensures Sent(After(s, steps).stream, key)
  {
    InitHasInv(s);
    RunKeepsInv(s, steps);
  }

  /** A live wake-up is never skipped: in every reachable state, whichever delivery of the live event of a
      queued task asks for the lease, at whatever clock reading after its delivery, gets it. */
  lemma LiveMessageIsNeverSkipped(s: State, steps: seq<Step>, i: nat, now: Time)
    requires Init(s) && IsRun(s, steps) && Enabled(After(s, steps), AcquireStep(i, now))
    requires var s' := After(s, steps);
             var key := s'.sessions[i].event;
             key.task in s'.db.tasks && IsLive(s'.db.tasks[key.task], key.kind)
    ensures CanAcquire(After(s, steps).db, After(s, steps).sessions[i].event.task, now)
  {
    InitHasInv(s);
    RunKeepsInv(s, steps);
    var s' := After(s, steps);
    var key := s'.sessions[i].event;
    if !CanAcquire(s'.db, key.task, now) {
      SkippedMessageIsSpent(s', i, now);
      LiveIsNotSpent(s', i);
      assert false;
    }
  }

  lemma LiveIsNotSpent(s: State, i: nat)
    requires Inv(s) && i < |s.sessions|
    requires var key := s.sessions[i].event; key.task in s.db.tasks && IsLive(s.db.tasks[key.task], key.kind)
    ensures !KeySpent(s.db, s.sessions[i].event)
  {
    var key := s.sessions[i].event;
    assert SessionOk(s, s.sessions[i]);
    assert Issued(s.db.tasks[key.task], key.kind) && RowOk(s.db.tasks[key.task]);
    SpentIsNotLive(s.db.tasks[key.task], key.kind);
  }

  // ---------------------------------------------------------------- a way forward always exists

  lemma OneStep(s: State, step: Step)
    requires Enabled(s, step)
    ensures IsRun(s, [step]) && After(s, [step]) == Apply(s, step)
  {
    assert [step][1..] == [];
  }

  lemma ExtendRun(s: State, trace: seq<Step>, step: Step)
    requires IsRun(s, trace) && Enabled(After(s, trace), step)
    ensures IsRun(s, trace + [step]) && After(s, trace + [step]) == Apply(After(s, trace), step)
  {
    OneStep(After(s, trace), step);
    RunsCompose(s, trace, [step]);
  }

  ghost predicate Runs(s: State, id: TaskId, s': State) {
    && id in s.db.tasks && id in s'.db.tasks
    && s'.db.tasks[id].status == Running
    && s'.db.tasks[id].token == s.db.tasks[id].token + 1
  }

  /** An unacknowledged message of the live event, once delivered, does acquire the task. */
  lemma LiveDeliveryAcquires(s: State, id: TaskId, worker: string, m: nat) returns (steps: seq<Step>)
    requires Inv(s) && id in s.db.tasks && Queued(s.db.tasks[id])
    requires Undelivered(s, m, EventKey(id, LiveKind(s.db.tasks[id])))
    ensures IsRun(s, steps) && Runs(s, id, After(s, steps))
  {
    var deliver := DeliverStep(worker, m);
    var s1 := Apply(s, deliver);
    assert MessageOk(s, s.stream[m]);
    assert RowOk(s.db.tasks[id]);
    assert s1.db == s.db;
    var acquire := AcquireStep(|s.sessions|, s1.clock);
    assert s1.sessions[|s.sessions|] == Session(worker, m, s.stream[m].event, Delivered(s.clock));
    OneStep(s, deliver);
    OneStep(s1, acquire);
    RunsCompose(s, [deliver], [acquire]);
    steps := [deliver] + [acquire];
  }

  /** Waiting long enough makes the live event due. */
  lemma WaitUntilDue(s: State, key: EventKey) returns (tick: Step)
    requires key in s.db.outbox && !Delivers(s.db.outbox[key])
    ensures Enabled(s, tick)
    ensures Apply(s, tick) == s.(clock := Apply(s, tick).clock)
    ensures Due(s.db.outbox[key], Apply(s, tick).clock)
  {
    var e := s.db.outbox[key];
    var until := Max(e.available, if e.lease.Some? then e.lease.value + 1 else 0);
    tick := Tick(Max(0, until - s.clock));
  }

  lemma DueEventReachesStream(s: State, key: EventKey) returns (steps: seq<Step>)
    requires key in s.db.outbox && Due(s.db.outbox[key], s.clock)
    ensures IsRun(s, steps)
    ensures After(s, steps).db.tasks == s.db.tasks
    ensures |After(s, steps).stream| > 0
    ensures After(s, steps).stream[|After(s, steps).stream| - 1].event == key
  {
    var claim := ClaimStep(key, s.clock);
    var s1 := Apply(s, claim);
    var xadd := XaddStep(|s.publishers|, Stored);
    OneStep(s, claim);
    OneStep(s1, xadd);
    RunsCompose(s, [claim], [xadd]);
    steps := [claim] + [xadd];
  }

  /** From every reachable state, a queued task can still be run: some continuation acquires it. */
  lemma QueuedTaskCanRun(s: State, id: TaskId, worker: string) returns (steps: seq<Step>)
    requires Inv(s) && id in s.db.tasks && Queued(s.db.tasks[id])
    ensures IsRun(s, steps) && Runs(s, id, After(s, steps))
  {
    var key := EventKey(id, LiveKind(s.db.tasks[id]));
    QueuedCanBeWoken(s, id);
    if Delivers(s.db.outbox[key]) {
      var m :| Undelivered(s, m, key);
      steps := LiveDeliveryAcquires(s, id, worker, m);
    } else {
      steps := UnpublishedTaskCanRun(s, id, worker);
    }
  }

  lemma UnpublishedTaskCanRun(s: State, id: TaskId, worker: string) returns (steps: seq<Step>)
    requires Inv(s) && id in s.db.tasks && Queued(s.db.tasks[id])
    requires var key := EventKey(id, LiveKind(s.db.tasks[id]));
             key in s.db.outbox && !Delivers(s.db.outbox[key])
    ensures IsRun(s, steps) && Runs(s, id, After(s, steps))
  {
    hide Inv, Due, LiveKind, IsRun, After;
    var key := EventKey(id, LiveKind(s.db.tasks[id]));
    var tick := WaitUntilDue(s, key);
    OneStep(s, tick);
    var s1 := Apply(s, tick);
    var publish := DueEventReachesStream(s1, key);
    RunsCompose(s, [tick], publish);
    var s2 := After(s1, publish);
    RunKeepsInv(s, [tick] + publish);
    LiveMessageUnacked(s2, id, |s2.stream| - 1);
    var deliver := LiveDeliveryAcquires(s2, id, worker, |s2.stream| - 1);
    RunsCompose(s, [tick] + publish, deliver);
    steps := ([tick] + publish) + deliver;
  }

  lemma NothingQueuedIsStuck(s: State, steps: seq<Step>, id: TaskId, worker: string)
    returns (continuation: seq<Step>)
    requires Init(s) && IsRun(s, steps)
    requires id in After(s, steps).db.tasks && Queued(After(s, steps).db.tasks[id])
    ensures IsRun(s, steps + continuation)
    ensures Runs(After(s, steps), id, After(s, steps + continuation))
  {
    InitHasInv(s);
    RunKeepsInv(s, steps);
    continuation := QueuedTaskCanRun(After(s, steps), id, worker);
    RunsCompose(s, steps, continuation);
  }

  /** Nor is a task whose worker died: once its lease is over, the next sweep that gets its row lock
      requeues it or buries it. */
  lemma NothingRunningIsStuck(s: State, steps: seq<Step>, id: TaskId) returns (continuation: seq<Step>)
    requires Init(s) && IsRun(s, steps)
    requires id in After(s, steps).db.tasks && After(s, steps).db.tasks[id].status == Running
    ensures IsRun(s, steps + continuation)
    ensures var t := After(s, steps).db.tasks[id];
            var s' := After(s, steps + continuation);
            && id in s'.db.tasks
            && s'.db.tasks[id].token == t.token + 1
            && s'.db.tasks[id].status == (if t.attempt + 1 < s.maxAttempts then RetryWaiting else DeadLetter)
  {
    InitHasInv(s);
    RunKeepsInv(s, steps);
    MaxAttemptsFixed(s, steps);
    var s1 := After(s, steps);
    assert RowOk(s1.db.tasks[id]);
    var tick := Tick(Max(0, s1.db.tasks[id].lease.value + 1 - s1.clock));
    var s2 := Apply(s1, tick);
    var sweep := SweepStep({}, s2.clock);
    assert id in OrphansOf(s2, {}, s2.clock);
    OneStep(s1, tick);
    OneStep(s2, sweep);
    RunsCompose(s1, [tick], [sweep]);
    continuation := [tick] + [sweep];
    RunsCompose(s, steps, continuation);
  }

  lemma MaxAttemptsStep(s: State, step: Step)
    requires Enabled(s, step)
    ensures Apply(s, step).maxAttempts == s.maxAttempts
  {
  }

  lemma {:induction false} MaxAttemptsFixed(s: State, steps: seq<Step>)
    requires IsRun(s, steps)
    ensures After(s, steps).maxAttempts == s.maxAttempts
    decreases |steps|
  {
    hide Apply, Enabled;
    if steps != [] {
      MaxAttemptsStep(s, steps[0]);
      MaxAttemptsFixed(Apply(s, steps[0]), steps[1..]);
    }
  }
}
