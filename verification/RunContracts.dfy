/** Declared states of a review run and the transitions between them. */
module RunContracts {
  datatype RunState =
    | Queued
    | SelectingContext
    | Analyzing
    | Verifying
    | AwaitingApproval
    | Published
    | Rejected
    | Failed
    | Cancelled

  const TERMINAL_RUN_STATES: set<RunState> := {Published, Rejected, Failed, Cancelled}

  /** The rows of the transition table. */
  function AllowedTargets(current: RunState): set<RunState> {
    match current
    case Queued => {SelectingContext, Failed, Cancelled}
    case SelectingContext => {Analyzing, Failed, Cancelled}
    case Analyzing => {Verifying, Failed, Cancelled}
    case Verifying => {AwaitingApproval, Failed, Cancelled}
    case AwaitingApproval => {Published, Rejected, Failed, Cancelled}
    case Published | Rejected | Failed | Cancelled => {}
  }

  predicate CanTransition(current: RunState, target: RunState) {
    target in AllowedTargets(current)
  }

  /** What `require_transition` lets through: an edge of the table or no change at all. */
  predicate EdgeOrStutter(current: RunState, target: RunState) {
    current == target || CanTransition(current, target)
  }

  /** The table in words: a run fails or is cancelled from any state that is not final, and else goes on one by one. */
  lemma TransitionsMean(current: RunState, target: RunState)
    ensures CanTransition(current, target) <==>
            && current !in {Published, Rejected, Failed, Cancelled}
            && (|| target == Failed || target == Cancelled
                || (current == Queued && target == SelectingContext)
                || (current == SelectingContext && target == Analyzing)
                || (current == Analyzing && target == Verifying)
                || (current == Verifying && target == AwaitingApproval)
                || (current == AwaitingApproval && (target == Published || target == Rejected)))
  {
  }
}
