/** The task protocol as one transition system.

    One step is one commit to PostgreSQL, one `xadd`, one `xack`, one delivery, one tick of the
    clock, or the death of one participant.  Participants only interact through committed rows and
    the stream, so every interleaving of them, with crashes anywhere, is a sequence of steps.

    Participants are appended to `publishers` and `sessions` and never removed: a finished or
    crashed one stays in phase `Gone`.  Worker names are not assumed to be unique, because a
    restarted container can come back with the same host name and process id. */
module TaskProtocol {
  import opened TaskFsm
  import opened TaskRows

  /** An entry of the Redis stream.  `event` is its `outbox_event_id` field. */
  datatype Message = Message(event: EventKey, sentAt: Time)

  datatype PublisherPhase =
    | Claimed      // the event is PUBLISHING, `xadd` not yet called
    | Appended     // `xadd` returned
    | Raised       // `xadd` raised
    | Recording(read: Event, since: Time)   // the event row was read, the failure not yet written
    | PublisherGone

  datatype Publisher = Publisher(event: EventKey, phase: PublisherPhase)

  datatype SessionPhase =
    | Delivered(since: Time)                     // message in hand, lease not yet asked for
    | Owning(held: Holding)                      // lease acquired, document being processed
    | Raising(held: Holding)                     // an exception reached the outer handler
    | Acking                                     // decided to acknowledge
    | SessionGone

  /** What a worker remembers from the row it acquired. */
  datatype Holding = Holding(task: TaskId, tenant: string, doc: DocId, token: nat, target: nat)

  /** One pass of the worker's loop over one delivered message. */
  datatype Session = Session(worker: string, message: nat, event: EventKey, phase: SessionPhase)

  datatype State = State(
    clock: Time,
    maxAttempts: nat,
    db: Db,
    usedTasks: set<TaskId>,
    usedDocs: set<DocId>,
    stream: seq<Message>,
    acked: set<nat>,
    publishers: seq<Publisher>,
    sessions: seq<Session>)

  datatype XaddOutcome = Stored | StoredButRaised | Lost

  /** `now` arguments are readings of the clock that the step compares with or stores.  A reading is
      taken before the row lock is granted, so it may lie before the commit. */
  datatype Step =
    | Tick(elapsed: nat)
    | UploadStep(id: TaskId, doc: DocId, tenant: string)
    | ReingestStep(id: TaskId, doc: DocId)
    | DeleteStep(doc: DocId)
    | RetryStep(id: TaskId, tenant: string)
    | SweepStep(locked: set<TaskId>, now: Time)
    | ClaimStep(event: EventKey, now: Time)
    | XaddStep(p: nat, outcome: XaddOutcome)
    | ReadFailureStep(p: nat)
    | WriteFailureStep(p: nat, now: Time)
    | MarkStep(p: nat)
    | PublisherCrash(p: nat)
    | DeliverStep(worker: string, message: nat)
    | AcquireStep(i: nat, now: Time)
    | DocMissingStep(i: nat)
    | HeartbeatStep(i: nat, now: Time)
    | ProgressStep(i: nat, stage: Stage, percent: int)
    | CompleteStep(i: nat, partial: bool)
    | FailStep(i: nat, error: ErrorText)
    | AckStep(i: nat)
    | SessionCrash(i: nat)

  const ACQUIRE_LEASE: Time := 60 * SECOND
  const HEARTBEAT_LEASE: Time := 30 * SECOND

  predicate InPhase(s: State, p: nat, phase: PublisherPhase) {
    p < |s.publishers| && s.publishers[p].phase == phase
  }

  predicate IsRecording(s: State, p: nat) {
    p < |s.publishers| && s.publishers[p].phase.Recording?
  }

  predicate IsOwning(s: State, i: nat) {
    i < |s.sessions| && s.sessions[i].phase.Owning?
  }

  /** The canonical document lookup of the worker after it acquired the lease. */
  predicate DocPresent(db: Db, h: Holding) {
    h.doc in db.docs && db.docs[h.doc].tenant == h.tenant
  }

  function OrphansOf(s: State, locked: set<TaskId>, now: Time): set<TaskId> {
    set id | id in s.db.tasks && Expired(s.db.tasks[id], now) && id !in locked
  }

  predicate Enabled(s: State, step: Step) {
    match step
    case Tick(_) => true
    case UploadStep(id, doc, _) => id !in s.usedTasks && doc !in s.usedDocs
    case ReingestStep(id, doc) => id !in s.usedTasks && doc in s.db.docs
    case DeleteStep(doc) => doc in s.db.docs
    case RetryStep(id, tenant) => true
    case SweepStep(_, now) => now <= s.clock
    case ClaimStep(key, now) => key in s.db.outbox && now <= s.clock && Due(s.db.outbox[key], now)
    case XaddStep(p, _) => InPhase(s, p, Claimed)
    case ReadFailureStep(p) => InPhase(s, p, Raised)
    case WriteFailureStep(p, now) => IsRecording(s, p) && s.publishers[p].phase.since <= now <= s.clock
    case MarkStep(p) => InPhase(s, p, Appended)
    case PublisherCrash(p) => p < |s.publishers|
    case DeliverStep(_, m) => m < |s.stream| && m !in s.acked
    case AcquireStep(i, now) =>
      i < |s.sessions| && s.sessions[i].phase.Delivered? && s.sessions[i].phase.since <= now <= s.clock
    case DocMissingStep(i) => IsOwning(s, i) && !DocPresent(s.db, s.sessions[i].phase.held)
    case HeartbeatStep(i, now) => IsOwning(s, i) && now <= s.clock
    case ProgressStep(i, _, _) => IsOwning(s, i)
    case CompleteStep(i, _) => IsOwning(s, i)
    case FailStep(i, _) =>
      i < |s.sessions| && (s.sessions[i].phase.Owning? || s.sessions[i].phase.Raising?)
    case AckStep(i) => i < |s.sessions| && s.sessions[i].phase.Acking?
    case SessionCrash(i) => i < |s.sessions|
  }

  function SetPublisher(s: State, p: nat, phase: PublisherPhase): State
    requires p < |s.publishers|
  {
    s.(publishers := s.publishers[p := s.publishers[p].(phase := phase)])
  }

  function SetSession(s: State, i: nat, phase: SessionPhase): State
    requires i < |s.sessions|
  {
    s.(sessions := s.sessions[i := s.sessions[i].(phase := phase)])
  }

  function CompletionOf(s: State, i: nat, partial: bool): Completion
    requires IsOwning(s, i)
  {
    var h := s.sessions[i].phase.held;
    Completion(h.task, h.tenant, h.doc, h.token, s.sessions[i].worker, h.target,
               if partial then PartialSucceeded else Succeeded, !partial)
  }

  /** The committed rows after the step. */
  function DbAfter(s: State, step: Step): Db
    requires Enabled(s, step)
  {
    match step
    case UploadStep(id, doc, tenant) => Upload(s.db, id, doc, tenant, s.clock)
    case ReingestStep(id, doc) => Reingest(s.db, id, doc, s.clock)
    case DeleteStep(doc) => DeleteDocument(s.db, doc)
    case RetryStep(id, tenant) => RetryTask(s.db, id, tenant, s.clock)
    case SweepStep(locked, now) => Sweep(s.db, OrphansOf(s, locked, now), s.maxAttempts, now)
    case ClaimStep(key, now) => ClaimEvent(s.db, key, now)
    case WriteFailureStep(p, now) =>
      FailPublication(s.db, s.publishers[p].event, s.publishers[p].phase.read, now)
    case MarkStep(p) => MarkPublished(s.db, s.publishers[p].event)
    case AcquireStep(i, now) =>
      AcquireLease(s.db, s.sessions[i].event.task, s.sessions[i].worker, ACQUIRE_LEASE, now)
    case DocMissingStep(i) =>
      var h := s.sessions[i].phase.held;
      UpdateStatusCas(s.db, h.task, Running, Failed, h.token, Failure(s.sessions[i].worker, MissingDocument))
    case HeartbeatStep(i, now) =>
      var h := s.sessions[i].phase.held;
      Heartbeat(s.db, h.task, s.sessions[i].worker, h.token, now + HEARTBEAT_LEASE)
    case ProgressStep(i, stage, percent) =>
      var h := s.sessions[i].phase.held;
      Progress(s.db, h.task, s.sessions[i].worker, h.token, stage, percent)
    case CompleteStep(i, partial) => Complete(s.db, CompletionOf(s, i, partial))
    case FailStep(i, error) =>
      var h := s.sessions[i].phase.held;
      UpdateStatusCas(s.db, h.task, Running, Failed, h.token, Failure(s.sessions[i].worker, error))
    case _ => s.db
  }

  /** What the acting worker remembers from the row it has just acquired. */
  function HoldingOf(id: TaskId, t: Task): Holding {
    Holding(id, t.tenant, t.doc, t.token, t.target)
  }

  /** Everything but the rows after the step. */
  function ControlAfter(s: State, step: Step): State
    requires Enabled(s, step)
  {
    match step
    case Tick(elapsed) => s.(clock := s.clock + elapsed)
    case UploadStep(id, doc, _) => s.(usedTasks := s.usedTasks + {id}, usedDocs := s.usedDocs + {doc})
    case ReingestStep(id, _) => s.(usedTasks := s.usedTasks + {id})
    case ClaimStep(key, _) => s.(publishers := s.publishers + [Publisher(key, Claimed)])
    case XaddStep(p, outcome) =>
      var sent := SetPublisher(s, p, if outcome == Stored then Appended else Raised);
      if outcome == Lost then sent
      else sent.(stream := s.stream + [Message(s.publishers[p].event, s.clock)])
    case ReadFailureStep(p) =>
      var key := s.publishers[p].event;
      SetPublisher(s, p, if key in s.db.outbox then Recording(s.db.outbox[key], s.clock) else PublisherGone)
    case WriteFailureStep(p, _) => SetPublisher(s, p, PublisherGone)
    case MarkStep(p) => SetPublisher(s, p, PublisherGone)
    case PublisherCrash(p) => SetPublisher(s, p, PublisherGone)
    case DeliverStep(worker, m) =>
      s.(sessions := s.sessions + [Session(worker, m, s.stream[m].event, Delivered(s.clock))])
    case AcquireStep(i, now) =>
      var id := s.sessions[i].event.task;
      if CanAcquire(s.db, id, now)
      then SetSession(s, i, Owning(HoldingOf(id, DbAfter(s, step).tasks[id])))
      else SetSession(s, i, Acking)
    case DocMissingStep(i) => SetSession(s, i, Acking)
    case HeartbeatStep(_, _) => s
    case ProgressStep(i, _, _) =>
      var h := s.sessions[i].phase.held;
      if Owns(s.db, h.task, s.sessions[i].worker, h.token) then s else SetSession(s, i, Raising(h))
    case CompleteStep(i, partial) =>
      SetSession(s, i, if CanComplete(s.db, CompletionOf(s, i, partial)) then Acking
                       else Raising(s.sessions[i].phase.held))
    case FailStep(i, _) =>
      var h := s.sessions[i].phase.held;
      SetSession(s, i, if Owns(s.db, h.task, s.sessions[i].worker, h.token) then Acking
                       else SessionGone)
    case AckStep(i) =>
      SetSession(s, i, SessionGone).(acked := s.acked + {s.sessions[i].message})
    case SessionCrash(i) => SetSession(s, i, SessionGone)
    case _ => s
  }

  function Apply(s: State, step: Step): State
    requires Enabled(s, step)
  {
    ControlAfter(s, step).(db := DbAfter(s, step))
  }

  ghost predicate Init(s: State) {
    && s.maxAttempts >= 1
    && s.db == Db(map[], map[], map[])
    && s.usedTasks == {} && s.usedDocs == {}
    && s.stream == [] && s.acked == {}
    && s.publishers == [] && s.sessions == []
  }

  /** A run is a state followed by steps each of which is enabled where it is taken. */
  ghost predicate IsRun(s: State, steps: seq<Step>)
    decreases |steps|
  {
    steps == [] || (Enabled(s, steps[0]) && IsRun(Apply(s, steps[0]), steps[1..]))
  }

  ghost function After(s: State, steps: seq<Step>): State
    requires IsRun(s, steps)
    decreases |steps|
  {
    if steps == [] then s else After(Apply(s, steps[0]), steps[1..])
  }

  lemma {:induction false} RunsCompose(s: State, first: seq<Step>, second: seq<Step>)
    requires IsRun(s, first) && IsRun(After(s, first), second)
    ensures IsRun(s, first + second) && After(s, first + second) == After(After(s, first), second)
    decreases |first|
  {
    hide Enabled, Apply;
    if first == [] {
      assert first + second == second;
    } else {
      RunsCompose(Apply(s, first[0]), first[1..], second);
      assert (first + second)[1..] == first[1..] + second;
    }
  }

  lemma {:induction false} RunPrefix(s: State, first: seq<Step>, second: seq<Step>)
    requires IsRun(s, first + second)
    ensures IsRun(s, first) && IsRun(After(s, first), second)
    ensures After(s, first + second) == After(After(s, first), second)
    decreases |first|
  {
    hide Enabled, Apply;
    if first == [] {
      assert first + second == second;
    } else {
      assert (first + second)[1..] == first[1..] + second;
      RunPrefix(Apply(s, first[0]), first[1..], second);
    }
  }
}
