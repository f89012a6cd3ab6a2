/** Publication of tenant configurations (`publish_config_db` of src/core/tenant/config_manager.py) by
    any number of concurrent publishers of one tenant.  The advisory lock is held from the first
    statement to the end of the transaction. */
module ConfigVersions {
  import opened Options

  datatype Field = TenantId | VersionId | Named(name: string)

  datatype Value = Number(n: int) | Other(json: string)

  type Settings = map<Field, Value>

  datatype Row = Row(version: nat, data: Settings)

  /** What is fixed: the tenant, the default settings, and the validation of a candidate, which
      answers with the settings as the model dumps them, or rejects. */
  datatype Rules = Rules(tenant: Value, defaults: Settings, validate: Settings -> Option<Settings>)

  /** Validation keeps the version number. */
  ghost predicate Sound(rules: Rules) {
    forall d: Settings | VersionId in d && rules.validate(d).Some? ::
      var c := rules.validate(d).value; VersionId in c && c[VersionId] == d[VersionId]
  }

  datatype Phase = Waiting | Locked | Ready(config: Settings) | Published(version: nat) | Rejected | Dead

  datatype Publisher = Publisher(updates: Settings, phase: Phase)

  /** `accepted` is the updates of the committed publications, in commit order. */
  datatype State = State(rows: seq<Row>, accepted: seq<Settings>, lock: Option<nat>, publishers: seq<Publisher>)

  const EMPTY: State := State([], [], None, [])

  datatype Step = Begin(updates: Settings) | Lock(i: nat) | Read(i: nat) | Commit(i: nat) | Die(i: nat)

  // ---------------------------------------------------------------- one publication

  /** The row with the highest version. */
  function Latest(rows: seq<Row>): Option<Row> {
    if rows == [] then None
    else
      match Latest(rows[1..])
      case Some(row) => Some(if row.version >= rows[0].version then row else rows[0])
      case None => Some(rows[0])
  }

  /** The settings to validate. */
  function Candidate(rules: Rules, rows: seq<Row>, updates: Settings): Settings {
    var latest := Latest(rows);
    var (data, version) :=
      if latest.Some? && latest.value.data != map[] then (latest.value.data, latest.value.version)
      else (rules.defaults, 1);
    (data + updates)[TenantId := rules.tenant][VersionId := Number(if latest.Some? then version + 1 else version)]
  }

  function VersionOf(config: Settings): nat {
    if VersionId in config && config[VersionId].Number? && config[VersionId].n >= 0 then config[VersionId].n else 0
  }

  predicate Taken(rows: seq<Row>, version: nat) {
    exists k :: 0 <= k < |rows| && rows[k].version == version
  }

  // ---------------------------------------------------------------- steps

  predicate InPhase(s: State, i: nat, phase: Phase) {
    i < |s.publishers| && s.publishers[i].phase == phase
  }

  predicate IsReady(s: State, i: nat) {
    i < |s.publishers| && s.publishers[i].phase.Ready?
  }

  predicate Finished(p: Publisher) {
    p.phase.Published? || p.phase.Rejected? || p.phase.Dead?
  }

  predicate Enabled(s: State, step: Step) {
    match step
    case Begin(_) => true
    case Lock(i) => InPhase(s, i, Waiting) && s.lock == None
    case Read(i) => InPhase(s, i, Locked)
    case Commit(i) => IsReady(s, i)
    case Die(i) => i < |s.publishers| && !Finished(s.publishers[i])
  }

  function Goes(s: State, i: nat, phase: Phase): State
    requires i < |s.publishers|
  {
    s.(publishers := s.publishers[i := s.publishers[i].(phase := phase)])
  }

  function Ends(s: State, i: nat, phase: Phase): State
    requires i < |s.publishers|
  {
    Goes(s, i, phase).(lock := if s.lock == Some(i) then None else s.lock)
  }

  function AfterRead(s: State, i: nat, rules: Rules): State
    requires i < |s.publishers|
  {
    match rules.validate(Candidate(rules, s.rows, s.publishers[i].updates))
    case None => Ends(s, i, Rejected)
    case Some(config) => Goes(s, i, Ready(config))
  }

  /** The unique index on tenant and version rejects a version that exists. */
  function AfterCommit(s: State, i: nat): State
    requires IsReady(s, i)
  {
    var config := s.publishers[i].phase.config;
    var version := VersionOf(config);
    if Taken(s.rows, version) then Ends(s, i, Dead)
    else
      Ends(s, i, Published(version)).(
        rows := s.rows + [Row(version, config)],
        accepted := s.accepted + [s.publishers[i].updates])
  }

  function Apply(s: State, step: Step, rules: Rules): State
    requires Enabled(s, step)
  {
    match step
    case Begin(updates) => s.(publishers := s.publishers + [Publisher(updates, Waiting)])
    case Lock(i) => Goes(s, i, Locked).(lock := Some(i))
    case Read(i) => AfterRead(s, i, rules)
    case Commit(i) => AfterCommit(s, i)
    case Die(i) => Ends(s, i, Dead)
  }

  ghost predicate IsRun(s: State, run: seq<Step>, rules: Rules)
    decreases |run|
  {
    run == [] || (Enabled(s, run[0]) && IsRun(Apply(s, run[0], rules), run[1..], rules))
  }

  ghost function After(s: State, run: seq<Step>, rules: Rules): State
    requires IsRun(s, run, rules)
    decreases |run|
  {
    if run == [] then s else After(Apply(s, run[0], rules), run[1..], rules)
  }

  lemma {:induction false} ExtendRun(s: State, run: seq<Step>, step: Step, rules: Rules)
    requires IsRun(s, run, rules) && Enabled(After(s, run, rules), step)
    ensures IsRun(s, run + [step], rules)
    ensures After(s, run + [step], rules) == Apply(After(s, run, rules), step, rules)
    decreases |run|
  {
    if run == [] {
      assert [] + [step] == [step] && [step][1..] == [];
    } else {
      assert (run + [step])[1..] == run[1..] + [step];
      ExtendRun(Apply(s, run[0], rules), run[1..], step, rules);
    }
  }

  // ---------------------------------------------------------------- the promise

  /** The settings that a sequence of updates makes of the defaults, each laid over the ones before. */
  function Folded(rules: Rules, updates: seq<Settings>): Settings {
    if updates == [] then rules.defaults
    else
      var n := |updates|;
      var laid := (Folded(rules, updates[..n - 1]) + updates[n - 1])[TenantId := rules.tenant][VersionId := Number(n)];
      match rules.validate(laid)
      case Some(config) => config
      case None => laid
  }

  /** Row k holds version k + 1, which is the fold of the first k + 1 accepted updates. */
  ghost predicate RowsOk(rows: seq<Row>, accepted: seq<Settings>, rules: Rules) {
    && |rows| == |accepted|
    && forall k | 0 <= k < |rows| ::
         rows[k].version == k + 1 && rows[k].data == Folded(rules, accepted[..k + 1])
         && VersionId in rows[k].data
  }

  predicate HoldsLock(p: Publisher) {
    p.phase.Locked? || p.phase.Ready?
  }

  ghost predicate PublisherOk(s: State, i: nat, rules: Rules)
    requires i < |s.publishers|
  {
    var p := s.publishers[i];
    && (HoldsLock(p) ==> s.lock == Some(i))
    && (p.phase.Ready? ==> rules.validate(Candidate(rules, s.rows, p.updates)) == Some(p.phase.config))
    && (p.phase.Published? ==>
          1 <= p.phase.version <= |s.accepted| && s.accepted[p.phase.version - 1] == p.updates)
  }

  ghost predicate Inv(s: State, rules: Rules) {
    RowsOk(s.rows, s.accepted, rules) && forall i | 0 <= i < |s.publishers| :: PublisherOk(s, i, rules)
  }

  lemma {:induction false} LatestIsLast(rows: seq<Row>, first: nat)
    requires forall k | 0 <= k < |rows| :: rows[k].version == first + k
    ensures Latest(rows) == if rows == [] then None else Some(rows[|rows| - 1])
  {
    if rows != [] {
      LatestIsLast(rows[1..], first + 1);
    }
  }

  /** The candidate is the next fold, whatever branch computed it. */
  lemma CandidateIsNextFold(rules: Rules, rows: seq<Row>, accepted: seq<Settings>, updates: Settings)
    requires RowsOk(rows, accepted, rules)
    ensures Candidate(rules, rows, updates)
         == (Folded(rules, accepted) + updates)[TenantId := rules.tenant][VersionId := Number(|accepted| + 1)]
  {
    hide Folded;
    LatestIsLast(rows, 1);
    if rows != [] {
      assert accepted[..|rows|] == accepted;
    } else {
      FoldNone(rules);
      assert accepted == [];
    }
  }

  lemma FoldNone(rules: Rules)
    ensures Folded(rules, []) == rules.defaults
  {
  }

  lemma FoldOneMore(rules: Rules, accepted: seq<Settings>, updates: Settings, config: Settings)
    requires rules.validate((Folded(rules, accepted) + updates)[TenantId := rules.tenant][VersionId := Number(|accepted| + 1)])
          == Some(config)
    ensures Folded(rules, accepted + [updates]) == config
  {
    var all := accepted + [updates];
    assert all[..|all| - 1] == accepted && all[|all| - 1] == updates;
  }

  lemma CommitKeepsRows(s: State, i: nat, rules: Rules)
    requires Sound(rules) && Inv(s, rules) && Enabled(s, Commit(i))
    ensures !Taken(s.rows, VersionOf(s.publishers[i].phase.config))
    ensures VersionOf(s.publishers[i].phase.config) == |s.accepted| + 1
    ensures RowsOk(AfterCommit(s, i).rows, AfterCommit(s, i).accepted, rules)
  {
    hide Folded, Candidate;
    var Publisher(updates, Ready(config)) := s.publishers[i];
    assert PublisherOk(s, i, rules);
    CandidateIsNextFold(rules, s.rows, s.accepted, updates);
    FoldOneMore(rules, s.accepted, updates, config);
    var all := s.accepted + [updates];
    assert all[..|all|] == all;
    forall k | 0 <= k < |s.rows|
      ensures s.rows[k].data == Folded(rules, all[..k + 1])
    {
      assert all[..k + 1] == s.accepted[..k + 1];
    }
  }

  lemma StepKeepsInv(s: State, step: Step, rules: Rules)
    requires Sound(rules) && Inv(s, rules) && Enabled(s, step)
    ensures Inv(Apply(s, step, rules), rules)
  {
    hide RowsOk, Candidate, Sound;
    var s' := Apply(s, step, rules);
    if step.Commit? {
      CommitKeepsRows(s, step.i, rules);
    }
    forall j | 0 <= j < |s'.publishers|
      ensures PublisherOk(s', j, rules)
    {
      if j < |s.publishers| {
        assert PublisherOk(s, j, rules);
      }
      if step.Commit? {
        assert PublisherOk(s, step.i, rules);
        SameLength(s, rules);
      }
    }
  }

  lemma SameLength(s: State, rules: Rules)
    requires Inv(s, rules)
    ensures |s.rows| == |s.accepted|
  {
  }

  lemma {:induction false} RunKeepsInv(s: State, run: seq<Step>, rules: Rules)
    requires Sound(rules) && Inv(s, rules) && IsRun(s, run, rules)
    ensures Inv(After(s, run, rules), rules)
    decreases |run|
  {
    hide Inv, Enabled, Apply, Sound;
    if run != [] {
      StepKeepsInv(s, run[0], rules);
      RunKeepsInv(Apply(s, run[0], rules), run[1..], rules);
    }
  }

  /** No update is lost: after any interleaving the versions are exactly 1 to n, version k is the fold of
      the first k accepted updates over the defaults, and each publisher that succeeded finds its own
      updates in that order, at the version it was given. */
  lemma NoUpdateIsLost(run: seq<Step>, rules: Rules)
    requires Sound(rules) && IsRun(EMPTY, run, rules)
    ensures var s := After(EMPTY, run, rules);
            && |s.rows| == |s.accepted|
            && (forall k | 0 <= k < |s.rows| ::
                  s.rows[k] == Row(k + 1, Folded(rules, s.accepted[..k + 1])))
            && (forall i | 0 <= i < |s.publishers| && s.publishers[i].phase.Published? ::
                  var v := s.publishers[i].phase.version;
                  1 <= v <= |s.accepted| && s.accepted[v - 1] == s.publishers[i].updates)
  {
    hide Folded, Sound;
    RunKeepsInv(EMPTY, run, rules);
    var s := After(EMPTY, run, rules);
    forall i | 0 <= i < |s.publishers| && s.publishers[i].phase.Published?
      ensures var v := s.publishers[i].phase.version;
              1 <= v <= |s.accepted| && s.accepted[v - 1] == s.publishers[i].updates
    {
      assert PublisherOk(s, i, rules);
    }
  }

  /** Validation leaves the setting as it is. */
  ghost predicate Keeps(rules: Rules, field: Field) {
    forall d: Settings | field in d && rules.validate(d).Some? ::
      var c := rules.validate(d).value; field in c && c[field] == d[field]
  }

  /** The last writer wins, setting by setting: what a setting is after any number of accepted updates is what
      the last of them that has the setting says. */
  lemma {:induction false} LastWriterWins(rules: Rules, accepted: seq<Settings>, last: nat, field: Field)
    requires field.Named? && Keeps(rules, field)
    requires last < |accepted| && field in accepted[last]
    requires forall k | last < k < |accepted| :: field !in accepted[k]
    ensures field in Folded(rules, accepted) && Folded(rules, accepted)[field] == accepted[last][field]
    decreases |accepted|
  {
    var n := |accepted| - 1;
    if last < n {
      LastWriterWins(rules, accepted[..n], last, field);
    }
  }

  /** A setting that nobody has updated keeps its default. */
  lemma {:induction false} DefaultsStay(rules: Rules, accepted: seq<Settings>, field: Field)
    requires field.Named? && Keeps(rules, field) && field in rules.defaults
    requires forall k | 0 <= k < |accepted| :: field !in accepted[k]
    ensures field in Folded(rules, accepted) && Folded(rules, accepted)[field] == rules.defaults[field]
    decreases |accepted|
  {
    if accepted != [] {
      DefaultsStay(rules, accepted[..|accepted| - 1], field);
    }
  }

  /** Tenant and version are not for the caller to set. */
  lemma StampsAreOurs(rules: Rules, rows: seq<Row>, accepted: seq<Settings>, updates: Settings)
    requires RowsOk(rows, accepted, rules)
    ensures var c := Candidate(rules, rows, updates);
            && TenantId in c && c[TenantId] == rules.tenant
            && VersionId in c && c[VersionId] == Number(|rows| + 1)
  {
    CandidateIsNextFold(rules, rows, accepted, updates);
  }

  /** The unique index never gets to reject a publication. */
  lemma CommitSucceeds(run: seq<Step>, i: nat, rules: Rules)
    requires Sound(rules) && IsRun(EMPTY, run, rules) && IsReady(After(EMPTY, run, rules), i)
    ensures var s := After(EMPTY, run, rules);
            AfterCommit(s, i).publishers[i].phase == Published(|s.accepted| + 1)
  {
    RunKeepsInv(EMPTY, run, rules);
    CommitKeepsRows(After(EMPTY, run, rules), i, rules);
  }

  // ---------------------------------------------------------------- the lock

  /** The advisory lock is only held by a transaction that is not over. */
  ghost predicate LockIsLive(s: State) {
    s.lock.Some? ==> s.lock.value < |s.publishers| && HoldsLock(s.publishers[s.lock.value])
  }

  lemma {:induction false} RunKeepsLockLive(s: State, run: seq<Step>, rules: Rules)
    requires IsRun(s, run, rules) && LockIsLive(s)
    ensures LockIsLive(After(s, run, rules))
    decreases |run|
  {
    hide Candidate, Taken;
    if run != [] {
      RunKeepsLockLive(Apply(s, run[0], rules), run[1..], rules);
    }
  }

  /** Nobody waits for a dead transaction: the holder of the lock can read or commit. */
  lemma LockHolderCanGoOn(run: seq<Step>, rules: Rules)
    requires Sound(rules) && IsRun(EMPTY, run, rules) && After(EMPTY, run, rules).lock.Some?
    ensures var s := After(EMPTY, run, rules);
            var i := s.lock.value;
            Enabled(s, Read(i)) || Enabled(s, Commit(i))
  {
    RunKeepsLockLive(EMPTY, run, rules);
  }
}
