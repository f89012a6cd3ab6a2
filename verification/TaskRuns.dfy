/** Runs of one uploaded task, from the initial state: one that goes well, and those that end in what the
    code's comments rule out. */
module TaskRuns {
  import opened Options
  import opened TaskFsm
  import opened TaskRows
  import opened TaskProtocol
  import opened TaskDelivery
  import opened TaskBackoff

  const KEY: EventKey := EventKey(0, Initial)

  const START: State := State(0, 2, Db(map[], map[], map[]), {}, {}, [], {}, [], [])

  /** Everything that changes while there is one task with one event. */
  datatype Scene = Scene(
    clock: Time,
    task: Task,
    event: Event,
    stream: seq<Message>,
    publishers: seq<Publisher>,
    sessions: seq<Session>)

  function StateOf(x: Scene): State {
    State(x.clock, 2, Db(map[0 := Document("", 1)], map[0 := x.task], map[KEY := x.event]),
          {0}, {0}, x.stream, {}, x.publishers, x.sessions)
  }

  /** These steps lead from the initial state to the scene. */
  ghost predicate Leads(steps: seq<Step>, x: Scene) {
    IsRun(START, steps) && After(START, steps) == StateOf(x)
  }

  lemma Then(steps: seq<Step>, x: Scene, step: Step, x': Scene) returns (more: seq<Step>)
    requires Leads(steps, x) && Enabled(StateOf(x), step) && Apply(StateOf(x), step) == StateOf(x')
    ensures more == steps + [step] && Leads(more, x')
  {
    hide Enabled, Apply, IsRun, After;
    more := steps + [step];
    ExtendRun(START, steps, step);
  }

  // ---------------------------------------------------------------- one step after the other

  lemma Uploaded() returns (steps: seq<Step>, x: Scene)
    ensures Init(START) && Leads(steps, x)
    ensures x == Scene(0, FreshTask("", 0, 1), NewEvent(0, 0), [], [], [])
  {
    var step := UploadStep(0, 0, "");
    x := Scene(0, FreshTask("", 0, 1), NewEvent(0, 0), [], [], []);
    assert Apply(START, step) == StateOf(x);
    steps := [] + [step];
    ExtendRun(START, [], step);
  }

  lemma Passes(steps: seq<Step>, x: Scene, elapsed: nat) returns (more: seq<Step>, x': Scene)
    requires Leads(steps, x)
    ensures Leads(more, x') && x' == x.(clock := x.clock + elapsed)
  {
    hide Leads;
    x' := x.(clock := x.clock + elapsed);
    more := Then(steps, x, Tick(elapsed), x');
  }

  lemma Claims(steps: seq<Step>, x: Scene) returns (more: seq<Step>, x': Scene)
    requires Leads(steps, x) && Due(x.event, x.clock)
    ensures Leads(more, x')
    ensures x' == x.(event := ClaimedEvent(x.event, x.clock), publishers := x.publishers + [Publisher(KEY, Claimed)])
  {
    hide Leads, Due, ClaimedEvent;
    x' := x.(event := ClaimedEvent(x.event, x.clock), publishers := x.publishers + [Publisher(KEY, Claimed)]);
    assert map[KEY := x.event][KEY := x'.event] == map[KEY := x'.event];
    more := Then(steps, x, ClaimStep(KEY, x.clock), x');
  }

  lemma Stores(steps: seq<Step>, x: Scene, p: nat) returns (more: seq<Step>, x': Scene)
    requires Leads(steps, x) && p < |x.publishers| && x.publishers[p] == Publisher(KEY, Claimed)
    ensures Leads(more, x')
    ensures x' == x.(stream := x.stream + [Message(KEY, x.clock)],
                     publishers := x.publishers[p := Publisher(KEY, Appended)])
  {
    hide Leads;
    x' := x.(stream := x.stream + [Message(KEY, x.clock)], publishers := x.publishers[p := Publisher(KEY, Appended)]);
    more := Then(steps, x, XaddStep(p, Stored), x');
  }

  lemma Marks(steps: seq<Step>, x: Scene, p: nat) returns (more: seq<Step>, x': Scene)
    requires Leads(steps, x) && p < |x.publishers| && x.publishers[p] == Publisher(KEY, Appended)
    requires x.event.status == EventPublishing
    ensures Leads(more, x')
    ensures x' == x.(event := x.event.(status := EventPublished, lease := None),
                     publishers := x.publishers[p := Publisher(KEY, PublisherGone)])
  {
    hide Leads;
    x' := x.(event := x.event.(status := EventPublished, lease := None),
             publishers := x.publishers[p := Publisher(KEY, PublisherGone)]);
    assert map[KEY := x.event][KEY := x'.event] == map[KEY := x'.event];
    more := Then(steps, x, MarkStep(p), x');
  }

  /** The message is lost, and the publisher reads the event to record the failure. */
  lemma Fails(steps: seq<Step>, x: Scene, p: nat) returns (more: seq<Step>, x': Scene)
    requires Leads(steps, x) && p < |x.publishers| && x.publishers[p] == Publisher(KEY, Claimed)
    ensures Leads(more, x')
    ensures x' == x.(publishers := x.publishers[p := Publisher(KEY, Recording(x.event, x.clock))])
  {
    hide Leads;
    var raised := x.(publishers := x.publishers[p := Publisher(KEY, Raised)]);
    more := Then(steps, x, XaddStep(p, Lost), raised);
    x' := x.(publishers := x.publishers[p := Publisher(KEY, Recording(x.event, x.clock))]);
    assert raised.publishers[p := x'.publishers[p]] == x'.publishers;
    more := Then(more, raised, ReadFailureStep(p), x');
  }

  /** What the publisher has read and since when. */
  predicate HasRead(x: Scene, p: nat, read: Event, since: Time) {
    p < |x.publishers| && x.publishers[p] == Publisher(KEY, Recording(read, since))
  }

  function Written(x: Scene, p: nat, read: Event, now: Time): Scene
    requires p < |x.publishers|
  {
    x.(event := FailedEvent(x.event, read, now), publishers := x.publishers[p := Publisher(KEY, PublisherGone)])
  }

  lemma WriteMoves(x: Scene, p: nat, read: Event, since: Time, now: Time)
    requires HasRead(x, p, read, since) && since <= now <= x.clock
    ensures Enabled(StateOf(x), WriteFailureStep(p, now))
    ensures Apply(StateOf(x), WriteFailureStep(p, now)) == StateOf(Written(x, p, read, now))
  {
    hide FailedEvent;
    var e' := FailedEvent(x.event, read, now);
    assert map[KEY := x.event][KEY := e'] == map[KEY := e'];
  }

  lemma Writes(steps: seq<Step>, x: Scene, p: nat, read: Event, since: Time, now: Time)
    returns (more: seq<Step>, x': Scene)
    requires Leads(steps, x) && HasRead(x, p, read, since) && since <= now <= x.clock
    ensures Leads(more, x') && x' == Written(x, p, read, now)
  {
    hide Leads, Enabled, Apply, StateOf;
    x' := Written(x, p, read, now);
    WriteMoves(x, p, read, since, now);
    more := Then(steps, x, WriteFailureStep(p, now), x');
  }

  /** The last step of a run: a failure write. */
  lemma WritesAtLast(steps: seq<Step>, x: Scene, p: nat, read: Event, since: Time, now: Time)
    requires Leads(steps, x) && HasRead(x, p, read, since) && since <= now <= x.clock
    ensures IsRun(START, steps) && Enabled(After(START, steps), WriteFailureStep(p, now))
    ensures After(START, steps).db.outbox == map[KEY := x.event]
    ensures DbAfter(After(START, steps), WriteFailureStep(p, now)).outbox
         == map[KEY := FailedEvent(x.event, read, now)]
  {
    hide FailedEvent, IsRun, After, Enabled, ControlAfter, DbAfter;
    WriteMoves(x, p, read, since, now);
    assert Apply(StateOf(x), WriteFailureStep(p, now)).db == DbAfter(StateOf(x), WriteFailureStep(p, now));
  }

  lemma FirstBackoffs()
    ensures PublishBackoff(1) == 2 * SECOND && PublishBackoff(2) == 4 * SECOND
  {
    PublishBackoffDoubles(0);
    PublishBackoffDoubles(1);
  }

  // ---------------------------------------------------------------- failures that overlap

  /** Two publishers claim the same event, the second one after the first one's lease.  Both fail and read
      the row; the second one writes 64 seconds, and then the first one writes 63. */
  lemma LateWriteMovesEarlier() returns (steps: seq<Step>, step: Step)
    ensures Init(START) && IsRun(START, steps) && Enabled(After(START, steps), step)
    ensures MovesEarlier(After(START, steps), step, KEY)
    ensures After(START, steps).db.outbox[KEY].available == 64 * SECOND
    ensures DbAfter(After(START, steps), step).outbox[KEY].available == 63 * SECOND
  {
    hide Leads, IsRun, After, Enabled, DbAfter, PublishBackoff;
    FirstBackoffs();
    var x;
    steps, x := Uploaded();
    steps, x := Claims(steps, x);
    steps, x := Passes(steps, x, 61 * SECOND);
    steps, x := Claims(steps, x);
    steps, x := Fails(steps, x, 0);
    steps, x := Fails(steps, x, 1);
    steps, x := Passes(steps, x, SECOND);
    var read := x.event;
    steps, x := Writes(steps, x, 1, read, 61 * SECOND, 62 * SECOND);
    step := WriteFailureStep(0, 61 * SECOND);
    WritesAtLast(steps, x, 0, read, 61 * SECOND, 61 * SECOND);
  }

  /** Two publishers claim the same event.  The second one publishes it; then the first one fails, reads the
      published row and sets it back to PENDING. */
  lemma LateWriteReopens() returns (steps: seq<Step>, step: Step)
    ensures Init(START) && IsRun(START, steps) && Enabled(After(START, steps), step)
    ensures Is(After(START, steps).db, KEY, EventPublished)
    ensures Is(DbAfter(After(START, steps), step), KEY, EventPending)
  {
    hide Leads, IsRun, After, Enabled, DbAfter, PublishBackoff;
    var x;
    steps, x := Uploaded();
    steps, x := Claims(steps, x);
    steps, x := Passes(steps, x, 61 * SECOND);
    steps, x := Claims(steps, x);
    steps, x := Stores(steps, x, 1);
    steps, x := Marks(steps, x, 1);
    steps, x := Fails(steps, x, 0);
    step := WriteFailureStep(0, 61 * SECOND);
    WritesAtLast(steps, x, 0, x.event, 61 * SECOND, 61 * SECOND);
  }

  /** Three publishers claim the event in turn; the third one publishes it and the other two read it as
      published. */
  lemma TwoReadPublished() returns (steps: seq<Step>, x: Scene)
    ensures Init(START) && Leads(steps, x) && x.clock == 122 * SECOND && |x.publishers| == 3
    ensures x.event == Event(EventPublished, 0, 0, None, 0)
    ensures HasRead(x, 0, x.event, x.clock) && HasRead(x, 1, x.event, x.clock)
  {
    hide Leads, PublishBackoff;
    steps, x := Uploaded();
    steps, x := Claims(steps, x);
    steps, x := Passes(steps, x, 61 * SECOND);
    steps, x := Claims(steps, x);
    steps, x := Passes(steps, x, 61 * SECOND);
    steps, x := Claims(steps, x);
    steps, x := Stores(steps, x, 2);
    steps, x := Marks(steps, x, 2);
    steps, x := Fails(steps, x, 0);
    steps, x := Fails(steps, x, 1);
  }

  /** One of the two reopens the event, a fourth publisher claims it, and the write of the other one leaves
      it PENDING with the fourth one's lease.  That one fails and reads this row.  A fifth publisher claims
      the event, and the fourth one's write clears nothing but the lease: the event is PUBLISHING and
      nobody can claim it. */
  lemma LateWriteTakesLease() returns (steps: seq<Step>, step: Step)
    ensures Init(START) && IsRun(START, steps) && Enabled(After(START, steps), step)
    ensures Is(After(START, steps).db, KEY, EventPublishing) && !Unclaimable(After(START, steps).db, KEY)
    ensures Unclaimable(DbAfter(After(START, steps), step), KEY)
  {
    hide Leads, IsRun, After, Enabled, DbAfter, PublishBackoff;
    FirstBackoffs();
    var x;
    steps, x := TwoReadPublished();
    var published, at := x.event, x.clock;
    steps, x := Writes(steps, x, 1, published, at, at);
    steps, x := Passes(steps, x, 2 * SECOND);
    steps, x := Claims(steps, x);
    steps, x := Writes(steps, x, 0, published, at, at);
    var leased := x.event;
    assert leased == Event(EventPending, 1, 124 * SECOND, Some(184 * SECOND), 0);
    steps, x := Fails(steps, x, 3);
    steps, x := Claims(steps, x);
    step := WriteFailureStep(3, x.clock);
    WritesAtLast(steps, x, 3, leased, x.clock, x.clock);
  }

  // ---------------------------------------------------------------- one delivery

  const WORKER: string := "w"

  lemma Delivers(steps: seq<Step>, x: Scene) returns (more: seq<Step>, x': Scene)
    requires Leads(steps, x) && x.stream == [Message(KEY, x.clock)]
    ensures Leads(more, x') && x' == x.(sessions := x.sessions + [Session(WORKER, 0, KEY, Delivered(x.clock))])
  {
    hide Leads;
    x' := x.(sessions := x.sessions + [Session(WORKER, 0, KEY, Delivered(x.clock))]);
    more := Then(steps, x, DeliverStep(WORKER, 0), x');
  }

  lemma Acquires(steps: seq<Step>, x: Scene) returns (more: seq<Step>, x': Scene)
    requires Leads(steps, x) && x.sessions == [Session(WORKER, 0, KEY, Delivered(x.clock))]
    requires x.task.status == Pending
    ensures var row := AcquiredRow(x.task, WORKER, ACQUIRE_LEASE, x.clock);
            && Leads(more, x')
            && x' == x.(task := row, sessions := [Session(WORKER, 0, KEY, Owning(HoldingOf(0, row)))])
  {
    hide Leads, AcquiredRow;
    var row := AcquiredRow(x.task, WORKER, ACQUIRE_LEASE, x.clock);
    x' := x.(task := row, sessions := [Session(WORKER, 0, KEY, Owning(HoldingOf(0, row)))]);
    assert map[0 := x.task][0 := row] == map[0 := row];
    assert x.sessions[0 := x'.sessions[0]] == x'.sessions;
    more := Then(steps, x, AcquireStep(0, x.clock), x');
  }

  /** The uploaded task is published, delivered and acquired, all at time 0. */
  lemma Acquired() returns (steps: seq<Step>, x: Scene)
    ensures Init(START) && Leads(steps, x) && x.clock == 0
    ensures x.task == AcquiredRow(FreshTask("", 0, 1), WORKER, ACQUIRE_LEASE, 0)
    ensures x.sessions == [Session(WORKER, 0, KEY, Owning(HoldingOf(0, x.task)))]
  {
    hide Leads, ClaimedEvent;
    steps, x := Uploaded();
    steps, x := Claims(steps, x);
    steps, x := Stores(steps, x, 0);
    steps, x := Delivers(steps, x);
    steps, x := Acquires(steps, x);
  }

  /** The first ingestion of a document succeeds: upload, publication, delivery, acquisition, completion.  The
      document stays at generation 1, which its upload gave it. */
  lemma FirstIngestionSucceeds() returns (steps: seq<Step>, completion: Step)
    ensures Init(START) && IsRun(START, steps) && Enabled(After(START, steps), completion)
    ensures After(START, steps).db.docs == map[0 := Document("", 1)]
    ensures var db := DbAfter(After(START, steps), completion);
            && db.docs == map[0 := Document("", 1)]
            && 0 in db.tasks && db.tasks[0].status == Succeeded && db.tasks[0].progress == 100
  {
    var x;
    steps, x := Acquired();
    hide IsRun, After;
    completion := CompleteStep(0, false);
    assert Owns(StateOf(x).db, 0, WORKER, 2);
    assert map[0 := Document("", 1)][0 := Document("", 1)] == map[0 := Document("", 1)];
  }

  /** The acquisition leases the task for 60 seconds; the first heartbeat, ten seconds later, cuts that to
      40. */
  lemma FirstBeatCutsLease() returns (steps: seq<Step>, beat: Step)
    ensures Init(START) && IsRun(START, steps) && Enabled(After(START, steps), beat) && beat.HeartbeatStep?
    ensures After(START, steps).clock == beat.now == 10 * SECOND
    ensures var before, after := After(START, steps).db.tasks, DbAfter(After(START, steps), beat).tasks;
            && 0 in before && before[0].lease == Some(60 * SECOND)
            && 0 in after && after[0] == before[0].(lease := Some(40 * SECOND))
  {
    var x;
    steps, x := Acquired();
    steps, x := Passes(steps, x, 10 * SECOND);
    hide IsRun, After;
    beat := HeartbeatStep(0, 10 * SECOND);
    assert Owns(StateOf(x).db, 0, WORKER, 2);
  }

  /** The worker never beats.  After its lease a sweep takes the task from RUNNING to DEAD_LETTER, and a
      manual retry takes it from there to PENDING. */
  lemma BuriedAndReopened() returns (steps: seq<Step>, sweep: Step, retry: Step)
    ensures Init(START) && IsRun(START, steps) && Enabled(After(START, steps), sweep)
    ensures Enabled(Apply(After(START, steps), sweep), retry)
    ensures var s := After(START, steps);
            && 0 in s.db.tasks && s.db.tasks[0].status == Running
            && 0 in Apply(s, sweep).db.tasks && Apply(s, sweep).db.tasks[0].status == DeadLetter
            && 0 in Apply(Apply(s, sweep), retry).db.tasks
            && Apply(Apply(s, sweep), retry).db.tasks[0].status == Pending
  {
    var x;
    steps, x := Acquired();
    steps, x := Passes(steps, x, 61 * SECOND);
    hide IsRun, After, Enqueue;
    sweep := SweepStep({}, 61 * SECOND);
    retry := RetryStep(0, "");
    assert OrphansOf(StateOf(x), {}, 61 * SECOND) == {0};
  }
}
