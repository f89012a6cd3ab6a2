/** The invariant behind the theorems about runs, and the proof that every step keeps it.

    The idea: the key of the event that can wake a queued task is a function of the task's row
    (`LiveKind`).  Every key ever issued for a task is either that one, or `Spent`, and a spent key
    stays spent.  A message is acknowledged only when the key of its event is spent. */
module TaskInvariant {
  import opened TaskFsm
  import opened TaskRows
  import opened TaskProtocol

  // ---------------------------------------------------------------- rows and event keys

  predicate Queued(t: Task) {
    t.status == Pending || t.status == RetryWaiting
  }

  /** The kind of the event that was enqueued in the commit that queued the task. */
  function LiveKind(t: Task): EventKind {
    if t.status == RetryWaiting then Recovery(t.attempt)
    else if t.retryCount == 0 then Initial
    else Retry(t.retryCount)
  }

  predicate IsLive(t: Task, kind: EventKind) {
    Queued(t) && kind == LiveKind(t)
  }

  /** The row has moved past the commit that enqueued this event. */
  predicate Spent(t: Task, kind: EventKind) {
    match kind
    case Initial => t.token > 1
    case Recovery(a) => t.attempt > a
    case Retry(n) => t.retryCount > n || (t.retryCount == n && t.status != Pending)
  }

  /** The keys a row can have been given so far. */
  predicate Issued(t: Task, kind: EventKind) {
    match kind
    case Initial => true
    case Recovery(a) => a <= t.attempt && (a == t.attempt ==> t.status == RetryWaiting)
    case Retry(n) => 1 <= n <= t.retryCount
  }

  predicate RowOk(t: Task) {
    && t.token == 1 + t.attempt + t.retryCount
    && (t.token == 1 ==> t.status == Pending)
    && (t.status == Pending && t.retryCount == 0 ==> t.attempt == 0)
    && (t.status == Running ==> t.lease.Some?)
    && (t.status == RetryWaiting ==> t.nextAttempt.Some?)
    && t.status != Cancelled
    && t.target >= 1
  }

  predicate RowFits(docs: map<DocId, Document>, t: Task) {
    && t.doc in docs
    && docs[t.doc].tenant == t.tenant
    && t.target <= docs[t.doc].active + 1
    && (t.status == Succeeded ==> t.target <= docs[t.doc].active)
  }

  /** An issued key is spent exactly when it is not the live one. */
  lemma SpentIsNotLive(t: Task, kind: EventKind)
    requires RowOk(t) && Issued(t, kind)
    ensures Spent(t, kind) <==> !IsLive(t, kind)
  {
  }

  /** What any commit may do to an existing row. */
  predicate Evolves(t: Task, t': Task) {
    && t'.tenant == t.tenant && t'.doc == t.doc && t'.target == t.target
    && t.token <= t'.token && t.attempt <= t'.attempt && t.retryCount <= t'.retryCount
    && (t'.status == t.status || UsedEdge(t.status, t'.status))
    && (t'.status == Running && t.status != Running ==> t'.token > t.token)
    && (t'.status == Pending && t.status != Pending ==> t'.retryCount > t.retryCount)
    && (t'.status == RetryWaiting ==>
          || t'.attempt > t.attempt
          || (t.status == RetryWaiting && t'.attempt == t.attempt && t'.nextAttempt == t.nextAttempt))
  }

  // ---------------------------------------------------------------- the invariant

  ghost predicate RowsOk(db: Db) {
    forall id :: id in db.tasks ==> RowOk(db.tasks[id]) && RowFits(db.docs, db.tasks[id])
  }

  ghost predicate EventsIssued(db: Db) {
    forall key :: key in db.outbox ==> key.task in db.tasks && Issued(db.tasks[key.task], key.kind)
  }

  /** The live event of a queued task is in the outbox and not due before the task is. */
  predicate HasLiveEvent(db: Db, id: TaskId)
    requires id in db.tasks
  {
    var t := db.tasks[id];
    var key := EventKey(id, LiveKind(t));
    && key in db.outbox
    && (t.status == RetryWaiting && t.nextAttempt.Some? ==> t.nextAttempt.value <= db.outbox[key].available)
  }

  ghost predicate LiveEventsKept(db: Db) {
    forall id :: id in db.tasks && Queued(db.tasks[id]) ==> HasLiveEvent(db, id)
  }

  predicate Known(s: State, key: EventKey) {
    key.task in s.usedTasks && (key.task in s.db.tasks ==> key in s.db.outbox)
  }

  /** If the key belongs to a task waiting for its retry, the task is due by `at`. */
  predicate NotEarly(db: Db, key: EventKey, at: Time) {
    key.task in db.tasks ==>
      var t := db.tasks[key.task];
      var waiting := t.status == RetryWaiting && key.kind == Recovery(t.attempt) && t.nextAttempt.Some?;
      waiting ==> t.nextAttempt.value <= at
  }

  predicate KeySpent(db: Db, key: EventKey) {
    key.task in db.tasks ==> Spent(db.tasks[key.task], key.kind)
  }

  ghost predicate Sent(stream: seq<Message>, key: EventKey) {
    exists m :: 0 <= m < |stream| && stream[m].event == key
  }

  predicate MessageOk(s: State, m: Message) {
    Known(s, m.event) && m.sentAt <= s.clock && NotEarly(s.db, m.event, m.sentAt)
  }

  ghost predicate MessagesOk(s: State) {
    forall m :: 0 <= m < |s.stream| ==> MessageOk(s, s.stream[m])
  }

  predicate PublisherOk(s: State, p: Publisher) {
    && (p.phase != PublisherGone ==> Known(s, p.event) && NotEarly(s.db, p.event, s.clock))
    && (p.phase.Recording? ==> p.phase.since <= s.clock && NotEarly(s.db, p.event, p.phase.since))
  }

  ghost predicate PublishersOk(s: State) {
    forall p :: 0 <= p < |s.publishers| ==> PublisherOk(s, s.publishers[p])
  }

  /** An event row that only a publication can have brought about: it is PUBLISHED, or late failure writes
      have mixed the columns of a published row with those of another publisher. */
  predicate Delivers(e: Event) {
    || e.status == EventPublished
    || (e.status == EventPending && e.lease.Some?)
    || (e.status == EventPublishing && e.lease.None?)
  }

  /** The publisher has appended the event, or has read a row that says so. */
  predicate KnowsSent(p: Publisher) {
    p.phase == Appended || (p.phase.Recording? && Delivers(p.phase.read))
  }

  /** At-least-once delivery. */
  ghost predicate PublishedWasSent(s: State) {
    && (forall key :: key in s.db.outbox && Delivers(s.db.outbox[key]) ==> Sent(s.stream, key))
    && (forall p :: 0 <= p < |s.publishers| && KnowsSent(s.publishers[p]) ==> Sent(s.stream, s.publishers[p].event))
  }

  predicate AckOk(s: State, m: nat) {
    m < |s.stream| && KeySpent(s.db, s.stream[m].event)
  }

  ghost predicate AcksOk(s: State) {
    forall m :: m in s.acked ==> AckOk(s, m)
  }

  predicate HoldingOk(s: State, h: Holding) {
    && h.task in s.usedTasks
    && (h.task in s.db.tasks ==>
          var t := s.db.tasks[h.task];
          t.tenant == h.tenant && t.doc == h.doc && t.target == h.target && h.token <= t.token)
  }

  predicate SessionOk(s: State, x: Session) {
    && x.message < |s.stream|
    && s.stream[x.message].event == x.event
    && Known(s, x.event)
    && match x.phase
       case Delivered(since) => since <= s.clock && NotEarly(s.db, x.event, since)
       case Owning(h) => KeySpent(s.db, x.event) && HoldingOk(s, h)
       case Raising(h) => KeySpent(s.db, x.event) && HoldingOk(s, h)
       case Acking => KeySpent(s.db, x.event)
       case SessionGone => true
  }

  ghost predicate SessionsOk(s: State) {
    forall i :: 0 <= i < |s.sessions| ==> SessionOk(s, s.sessions[i])
  }

  predicate BuiltBy(db: Db, doc: DocId, g: nat, id: TaskId) {
    id in db.tasks && db.tasks[id].doc == doc && db.tasks[id].target == g && db.tasks[id].status == Succeeded
  }

  ghost predicate Built(db: Db, doc: DocId, g: nat) {
    exists id :: BuiltBy(db, doc, g, id)
  }

  ghost predicate NoGaps(db: Db) {
    forall doc, g: nat :: doc in db.docs && 2 <= g <= db.docs[doc].active ==> Built(db, doc, g)
  }

  ghost predicate IdsUsed(s: State) {
    s.db.tasks.Keys <= s.usedTasks && s.db.docs.Keys <= s.usedDocs
  }

  /** The part about committed rows alone. */
  ghost predicate DbOk(db: Db) {
    RowsOk(db) && EventsIssued(db) && LiveEventsKept(db) && NoGaps(db)
  }

  /** The part about participants and the stream. */
  ghost predicate ControlOk(s: State) {
    MessagesOk(s) && PublishersOk(s) && AcksOk(s) && SessionsOk(s)
  }

  ghost predicate Inv(s: State) {
    && s.maxAttempts >= 1
    && IdsUsed(s)
    && DbOk(s.db)
    && PublishedWasSent(s)
    && ControlOk(s)
  }

  // ---------------------------------------------------------------- one commit, seen by the others

  ghost predicate RowsEvolve(db: Db, db': Db) {
    forall id :: id in db.tasks && id in db'.tasks ==> Evolves(db.tasks[id], db'.tasks[id])
  }

  /** What every commit promises to the participants that did not make it. */
  ghost predicate Commit(s: State, db': Db) {
    && RowsEvolve(s.db, db')
    && (forall id :: id in db'.tasks && id !in s.db.tasks ==> id !in s.usedTasks)
    && (forall key :: key in s.db.outbox && key.task in db'.tasks ==> key in db'.outbox)
  }

  lemma CommitKeepsKey(s: State, db': Db, key: EventKey, at: Time)
    requires DbOk(s.db) && Commit(s, db') && Known(s, key)
    ensures key.task in db'.tasks ==> key.task in s.db.tasks && key in db'.outbox
    ensures NotEarly(s.db, key, at) ==> NotEarly(db', key, at)
    ensures KeySpent(s.db, key) ==> KeySpent(db', key)
  {
    if key.task in db'.tasks && key.task in s.db.tasks {
      assert Evolves(s.db.tasks[key.task], db'.tasks[key.task]);
      assert Issued(s.db.tasks[key.task], key.kind);
    }
  }

  lemma NotEarlyLater(db: Db, key: EventKey, at: Time, later: Time)
    requires NotEarly(db, key, at) && at <= later
    ensures NotEarly(db, key, later)
  {
  }

  /** A commit, or the passing of time, leaves every bystander's part of the invariant in force. */
  lemma CommitKeepsControl(s: State, s': State)
    requires DbOk(s.db) && ControlOk(s) && Commit(s, s'.db)
    requires s.clock <= s'.clock && s.usedTasks <= s'.usedTasks
    requires s'.stream == s.stream && s'.acked == s.acked
    requires s'.publishers == s.publishers && s'.sessions == s.sessions
    ensures ControlOk(s')
  {
    forall m | 0 <= m < |s.stream|
      ensures MessageOk(s', s'.stream[m])
    {
      assert MessageOk(s, s.stream[m]);
      CommitKeepsKey(s, s'.db, s.stream[m].event, s.stream[m].sentAt);
    }
    forall p | 0 <= p < |s.publishers|
      ensures PublisherOk(s', s'.publishers[p])
    {
      assert PublisherOk(s, s.publishers[p]);
      CommitKeepsPublisher(s, s', s.publishers[p]);
    }
    forall m | m in s.acked
      ensures AckOk(s', m)
    {
      assert AckOk(s, m) && MessageOk(s, s.stream[m]);
      CommitKeepsKey(s, s'.db, s.stream[m].event, s.clock);
    }
    forall i | 0 <= i < |s.sessions|
      ensures SessionOk(s', s'.sessions[i])
    {
      CommitKeepsSession(s, s', s.sessions[i]);
    }
  }

  lemma CommitKeepsPublisher(s: State, s': State, p: Publisher)
    requires DbOk(s.db) && PublisherOk(s, p) && Commit(s, s'.db)
    requires s.clock <= s'.clock && s.usedTasks <= s'.usedTasks
    ensures PublisherOk(s', p)
  {
    if p.phase != PublisherGone {
      CommitKeepsKey(s, s'.db, p.event, s.clock);
      if p.phase.Recording? {
        CommitKeepsKey(s, s'.db, p.event, p.phase.since);
      }
    }
  }

  lemma CommitKeepsSession(s: State, s': State, x: Session)
    requires DbOk(s.db) && SessionOk(s, x) && Commit(s, s'.db)
    requires s.clock <= s'.clock && s.usedTasks <= s'.usedTasks && s'.stream == s.stream
    ensures SessionOk(s', x)
  {
    CommitKeepsKey(s, s'.db, x.event, if x.phase.Delivered? then x.phase.since else 0);
    if x.phase.Owning? || x.phase.Raising? {
      var id := x.phase.held.task;
      if id in s'.db.tasks {
        assert Evolves(s.db.tasks[id], s'.db.tasks[id]);
      }
    }
  }
}
