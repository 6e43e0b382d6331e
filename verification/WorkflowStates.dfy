/** The workflow state machine: the eleven states and the table of legal moves. */
module WorkflowStates {
  datatype State =
    | Proposed
    | Validated
    | AwaitingApproval
    | Approved
    | Executing
    | Succeeded
    | Failed
    | Compensated
    | Cancelled
    | DeadLetter
    | Closed

  function ValidTransitions(s: State): set<State> {
    match s
    case Proposed => {Validated, Failed, Cancelled, DeadLetter}
    case Validated => {AwaitingApproval, Executing, Failed, Cancelled, DeadLetter}
    case AwaitingApproval => {Approved, Failed, Cancelled, DeadLetter}
    case Approved => {Executing, Failed, Cancelled, DeadLetter}
    case Executing => {Succeeded, Failed, Compensated, Cancelled, DeadLetter}
    case Succeeded => {Closed}
    case Failed => {Compensated, DeadLetter, Closed, Cancelled}
    case Compensated => {Closed, DeadLetter}
    case Cancelled => {Closed, DeadLetter}
    case DeadLetter => {Closed, Compensated}
    case Closed => {}
  }

  predicate IsValidTransition(from: State, to: State) {
    to in ValidTransitions(from)
  }

  /** A move the runtime may record: a legal one, or a forced jump to the dead-letter queue. */
  predicate Moves(from: State, to: State) {
    IsValidTransition(from, to) || to == DeadLetter
  }

  /** Every two neighbours of the path are joined by a move. */
  ghost predicate IsPath(path: seq<State>) {
    forall i, j :: 0 <= i < j < |path| && j == i + 1 ==> Moves(path[i], path[j])
  }

  /** How far a workflow has got; work starts at rank 4 and is over at rank 5. */
  function Rank(s: State): nat {
    match s
    case Proposed => 0
    case Validated => 1
    case AwaitingApproval => 2
    case Approved => 3
    case Executing => 4
    case _ => 5
  }

  lemma {:induction false} RankNeverFalls(path: seq<State>, i: nat, j: nat)
    requires IsPath(path)
    requires i <= j < |path|
    ensures Rank(path[i]) <= Rank(path[j])
    decreases j - i
  {
    if i < j {
      RankNeverFalls(path, i, j - 1);
      assert Moves(path[j - 1], path[j]);
    }
  }

  /** Even with forced jumps, work is started at most once along any path. */
  lemma ExecutingAtMostOnce(path: seq<State>, i: nat, j: nat)
    requires IsPath(path)
    requires i < |path| && j < |path|
    requires path[i] == Executing && path[j] == Executing
    ensures i == j
  {
    if i < j {
      assert Moves(path[j - 1], path[j]);
      RankNeverFalls(path, i, j - 1);
    } else if j < i {
      assert Moves(path[i - 1], path[i]);
      RankNeverFalls(path, j, i - 1);
    }
  }

  /** Success is only ever entered from Executing. */
  lemma SucceededOnlyThroughExecuting(path: seq<State>, i: nat)
    requires IsPath(path)
    requires 0 < i < |path| && path[i] == Succeeded
    ensures path[i - 1] == Executing
  {
    assert Moves(path[i - 1], path[i]);
  }
}
