/** `publish_config_db` as sequential code, with other publishers' steps between its statements.
    `others` says which steps those are; it is arbitrary. */
module ConfigPublisher {
  import opened Options
  import opened ConfigVersions

  predicate IsOwnStep(step: Step, me: nat) {
    match step
    case Begin(_) => false
    case Lock(i) => i == me
    case Read(i) => i == me
    case Commit(i) => i == me
    case Die(i) => i == me
  }

  predicate Undisturbed(s: State, s': State, me: nat) {
    me < |s.publishers| ==> me < |s'.publishers| && s'.publishers[me] == s.publishers[me]
  }

  lemma ForeignStep(s: State, step: Step, me: nat, rules: Rules)
    requires Enabled(s, step) && !IsOwnStep(step, me)
    ensures Undisturbed(s, Apply(s, step, rules), me)
  {
    hide Candidate, Taken;
  }

  class ConfigTable {
    const rules: Rules
    var rows: seq<Row>
    var accepted: seq<Settings>
    var lock: Option<nat>
    var publishers: seq<Publisher>

    function Now(): State
      reads this
    {
      State(rows, accepted, lock, publishers)
    }

    constructor (rules: Rules)
      ensures this.rules == rules && Now() == EMPTY
    {
      this.rules := rules;
      rows, accepted, lock, publishers := [], [], None, [];
    }

    /** Another publisher takes a step. */
    method Take(s: State)
      modifies this
      ensures Now() == s
    {
      rows, accepted, lock, publishers := s.rows, s.accepted, s.lock, s.publishers;
    }

    /** The gap between two statements: the others take those of `steps` that they can. */
    method Others(steps: seq<Step>, me: nat, ghost start: State, ghost run: seq<Step>) returns (ghost run': seq<Step>)
      requires IsRun(start, run, rules) && Now() == After(start, run, rules)
      modifies this
      ensures IsRun(start, run', rules) && Now() == After(start, run', rules)
      ensures Undisturbed(old(Now()), Now(), me)
    {
      hide Enabled, Apply, IsOwnStep;
      run' := run;
      for k := 0 to |steps|
        invariant IsRun(start, run', rules) && Now() == After(start, run', rules)
        invariant Undisturbed(old(Now()), Now(), me)
      {
        var s := Now();
        if Enabled(s, steps[k]) && !IsOwnStep(steps[k], me) {
          ForeignStep(s, steps[k], me, rules);
          ExtendRun(start, run', steps[k], rules);
          Take(Apply(s, steps[k], rules));
          run' := run' + [steps[k]];
        }
      }
    }

    method Goes(me: nat, phase: Phase)
      requires me < |publishers|
      modifies this`publishers
      ensures Now() == ConfigVersions.Goes(old(Now()), me, phase)
    {
      publishers := publishers[me := publishers[me].(phase := phase)];
    }

    /** The end of the transaction releases its lock. */
    method Ends(me: nat, phase: Phase)
      requires me < |publishers|
      modifies this`publishers, this`lock
      ensures Now() == ConfigVersions.Ends(old(Now()), me, phase)
    {
      Goes(me, phase);
      if lock == Some(me) {
        lock := None;
      }
    }

    /** Reads the latest row, lays the updates over it and validates the result. */
    method ReadLatest(me: nat)
      requires InPhase(Now(), me, Locked)
      modifies this`publishers, this`lock
      ensures Now() == AfterRead(old(Now()), me, rules)
    {
      hide Latest;
      var latest := Latest(rows);
      var data, version := rules.defaults, 1;
      if latest.Some? && latest.value.data != map[] {
        data, version := latest.value.data, latest.value.version;
      }
      data := data + publishers[me].updates;
      data := data[TenantId := rules.tenant];
      data := data[VersionId := Number(if latest.Some? then version + 1 else version)];
      match rules.validate(data) {
        case None => Ends(me, Rejected);
        case Some(config) => Goes(me, Ready(config));
      }
    }

    method InsertRow(me: nat)
      requires IsReady(Now(), me)
      modifies this
      ensures Now() == AfterCommit(old(Now()), me)
    {
      hide Taken;
      var config := publishers[me].phase.config;
      var version := VersionOf(config);
      if Taken(rows, version) {
        Ends(me, Dead);
      } else {
        Ends(me, Published(version));
        rows := rows + [Row(version, config)];
        accepted := accepted + [publishers[me].updates];
      }
    }

    /** `publish_config_db`.  It returns nothing while it waits for the advisory lock; otherwise the
        version it published, whose row holds its updates laid over all earlier ones, or the rejection. */
    method PublishConfigDb(updates: Settings, others: nat -> seq<Step>)
      returns (result: Option<Phase>, me: nat, ghost run: seq<Step>)
      requires Sound(rules) && Inv(Now(), rules)
      modifies this
      ensures IsRun(old(Now()), run, rules) && Now() == After(old(Now()), run, rules) && Inv(Now(), rules)
      ensures me == |old(publishers)| && me < |publishers| && publishers[me].updates == updates
      ensures result.Some? ==> publishers[me].phase == result.value && (result.value.Published? || result.value.Rejected?)
      ensures result.None? ==> publishers[me].phase == Waiting && lock.Some?
      ensures result.Some? && result.value.Published? ==>
        var v := result.value.version;
        && 1 <= v <= |rows| && v <= |accepted| && rows[v - 1] == Row(v, Folded(rules, accepted[..v]))
        && accepted[v - 1] == updates
    {
      hide Sound, Inv, IsRun, After, Candidate, Taken;
      ghost var start := Now();
      me := |publishers|;
      StartRun(start, Begin(updates));
      publishers := publishers + [Publisher(updates, Waiting)];
      run := Others(others(0), me, start, [Begin(updates)]);
      if lock == None {
        ExtendRun(start, run, Lock(me), rules);
        Goes(me, Locked);
        lock := Some(me);
        run := Others(others(1), me, start, run + [Lock(me)]);
        ExtendRun(start, run, Read(me), rules);
        ReadLatest(me);
        run := run + [Read(me)];
        if publishers[me].phase.Ready? {
          run := Others(others(2), me, start, run);
          RunKeepsInv(start, run, rules);
          CommitKeepsRows(Now(), me, rules);
          ExtendRun(start, run, Commit(me), rules);
          InsertRow(me);
          run := run + [Commit(me)];
        }
      }
      RunKeepsInv(start, run, rules);
      InvSays(Now(), me);
      result := if publishers[me].phase == Waiting then None else Some(publishers[me].phase);
    }

    lemma StartRun(s: State, step: Step)
      requires Enabled(s, step)
      ensures IsRun(s, [step], rules) && After(s, [step], rules) == Apply(s, step, rules)
    {
      assert [step][1..] == [];
    }

    lemma InvSays(s: State, i: nat)
      requires Inv(s, rules) && i < |s.publishers|
      ensures s.publishers[i].phase.Published? ==>
        var v := s.publishers[i].phase.version;
        && 1 <= v <= |s.rows| && v <= |s.accepted| && s.rows[v - 1] == Row(v, Folded(rules, s.accepted[..v]))
        && s.accepted[v - 1] == s.publishers[i].updates
    {
      hide Folded;
      assert PublisherOk(s, i, rules);
    }
  }
}
