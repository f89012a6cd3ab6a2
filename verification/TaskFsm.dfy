/** Task states and the transition table of src/models/fsm.py. */
module TaskFsm {

  datatype TaskState =
    | Pending
    | Running
    | RetryWaiting
    | Succeeded
    | PartialSucceeded
    | Failed
    | DeadLetter
    | Cancelled

  const TERMINAL_STATES: set<TaskState> := {Succeeded, DeadLetter, Cancelled}

  /** Row `from` of the transition table. */
  function AllowedTransitions(from: TaskState): set<TaskState> {
    match from
    case Pending => {Running, Cancelled}
    case Running => {Succeeded, PartialSucceeded, Failed, RetryWaiting, Cancelled}
    case RetryWaiting => {Running, DeadLetter, Cancelled}
    case Failed => {RetryWaiting, DeadLetter, Pending, Cancelled}
    case PartialSucceeded => {Pending}
    case Succeeded => {}
    case DeadLetter => {}
    case Cancelled => {}
  }

  datatype Verdict = Legal | LeavesTerminal | NotInTable

  /** The two checks of `validate_transition`, in the order they are made. */
  function ValidateTransition(from: TaskState, to: TaskState): Verdict {
    if from in TERMINAL_STATES && from != to then LeavesTerminal
    else if to !in AllowedTransitions(from) then NotInTable
    else Legal
  }

  /** The table, edge by edge. */
  lemma LegalEdges(from: TaskState, to: TaskState)
    ensures ValidateTransition(from, to) == Legal <==>
      (from, to) in {
        (Pending, Running), (Pending, Cancelled),
        (Running, Succeeded), (Running, PartialSucceeded), (Running, Failed), (Running, RetryWaiting),
        (Running, Cancelled),
        (RetryWaiting, Running), (RetryWaiting, DeadLetter), (RetryWaiting, Cancelled),
        (Failed, RetryWaiting), (Failed, DeadLetter), (Failed, Pending), (Failed, Cancelled),
        (PartialSucceeded, Pending)}
    ensures ValidateTransition(from, to) == LeavesTerminal <==>
      from in {Succeeded, DeadLetter, Cancelled} && from != to
  {
  }

  predicate IsTerminal(state: TaskState) {
    state in TERMINAL_STATES
  }

  /** Edges a row really takes: the edges of the table that some caller uses, plus the two the
      table forbids.  Recovery buries a RUNNING task directly, and a manual retry reopens a
      dead letter although DEAD_LETTER is listed as terminal. */
  predicate UsedEdge(from: TaskState, to: TaskState) {
    match from
    case Pending => to == Running
    case RetryWaiting => to == Running
    case Running =>
      to == Succeeded || to == PartialSucceeded || to == Failed || to == RetryWaiting || to == DeadLetter
    case Failed => to == Pending
    case DeadLetter => to == Pending
    case _ => false
  }

  /** The used edges leave the table in exactly two places. */
  lemma UsedEdgesOutsideTable(from: TaskState, to: TaskState)
    requires UsedEdge(from, to)
    ensures ValidateTransition(from, to) != Legal
       <==> (from, to) in {(Running, DeadLetter), (DeadLetter, Pending)}
  {
    match from
    case Running => assert DeadLetter !in AllowedTransitions(Running);
    case _ =>
  }
}
