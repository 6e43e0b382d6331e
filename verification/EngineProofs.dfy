/** What every run of the engine keeps, whatever audit writes are lost along the way. */
module EngineProofs {
  import opened Wrappers
  import opened WorkflowStates
  import opened Records
  import opened RoleCatalog
  import opened EngineSpec
  import KillSwitch
  import Strings

  // ---------------------------------------------------------------- the event log tells the state

  /** The state named by the last workflow_* event of a replay. */
  function LastState(log: seq<Event>): Option<State> {
    if log == [] then None
    else
      var last := log[|log| - 1];
      if last.kind.Entered? then Some(last.kind.state) else LastState(log[..|log| - 1])
  }

  /** A workflow starts proposed or isolated; after that only legal moves, or a jump when an audit write was lost. */
  predicate IsLegalStep(prev: Option<State>, e: Event)
    requires e.kind.Entered?
  {
    match prev
    case None => e.kind.state == Proposed || e.kind.state == DeadLetter
    case Some(s) => IsValidTransition(s, e.kind.state) || (e.kind.state == DeadLetter && e.auditLost)
  }

  /** Sequence numbers are the positions, and the workflow_* events spell a legal path. */
  predicate IsLegalLog(log: seq<Event>) {
    log == [] ||
    var n := |log| - 1;
    && IsLegalLog(log[..n])
    && log[n].sequence == n
    && (log[n].kind.Entered? ==> IsLegalStep(LastState(log[..n]), log[n]))
  }

  /** How often the log says work was started. */
  function Starts(log: seq<Event>): nat {
    if log == [] then 0
    else Starts(log[..|log| - 1]) + if log[|log| - 1].kind == Entered(Executing) then 1 else 0
  }

  lemma LogGrows(log: seq<Event>, e: Event)
    ensures LastState(log + [e]) == if e.kind.Entered? then Some(e.kind.state) else LastState(log)
    ensures IsLegalLog(log + [e]) <==>
            && IsLegalLog(log)
            && e.sequence == |log|
            && (e.kind.Entered? ==> IsLegalStep(LastState(log), e))
    ensures Starts(log + [e]) == Starts(log) + if e.kind == Entered(Executing) then 1 else 0
  {
    assert (log + [e])[..|log|] == log;
  }

  lemma {:induction false} LegalLogIsNumbered(log: seq<Event>, k: nat)
    requires IsLegalLog(log) && k < |log|
    ensures log[k].sequence == k
  {
    if k < |log| - 1 {
      LegalLogIsNumbered(log[..|log| - 1], k);
    }
  }

  /** A legal log starts work at most once, and says whether it has. */
  lemma {:induction false} LegalLogStartsOnce(log: seq<Event>)
    requires IsLegalLog(log)
    ensures LastState(log).None? ==> Starts(log) == 0
    ensures LastState(log).Some? ==>
              var r := Rank(LastState(log).value);
              && Starts(log) <= 1
              && (r < 4 ==> Starts(log) == 0)
              && (r == 4 ==> Starts(log) == 1)
  {
    if log != [] {
      LegalLogStartsOnce(log[..|log| - 1]);
    }
  }

  /** The replay agrees with the stored row. */
  predicate TellsState(c: Case) {
    IsLegalLog(c.log) && LastState(c.log) == Some(c.row.state)
  }

  lemma EnterTells(c: Case, to: State, actor: string, now: string)
    requires TellsState(c) && IsValidTransition(c.row.state, to)
    ensures TellsState(Enter(c, to, actor, now))
    ensures Starts(Enter(c, to, actor, now).log) == Starts(c.log) + if to == Executing then 1 else 0
  {
    LogGrows(c.log, Event(Entered(to), |c.log|, actor, false));
  }

  lemma EnterAfterTells(c: Case, to: State, why: EventType, actor: string, now: string)
    requires TellsState(c) && IsValidTransition(c.row.state, to) && !why.Entered?
    ensures TellsState(EnterAfter(c, to, why, actor, now))
    ensures Starts(EnterAfter(c, to, why, actor, now).log) == Starts(c.log) + if to == Executing then 1 else 0
  {
    var e := Event(why, |c.log|, actor, false);
    LogGrows(c.log, e);
    LogGrows(c.log + [e], Event(Entered(to), |c.log| + 1, actor, false));
  }

  lemma FailClosedTells(c: Case, now: string)
    requires TellsState(c)
    ensures TellsState(FailClosed(c, now)) && Starts(FailClosed(c, now).log) == Starts(c.log)
    ensures FailClosed(c, now).row.state == DeadLetter
  {
    LogGrows(c.log, Event(Entered(DeadLetter), |c.log|, SYSTEM, true));
  }

  lemma CountFailureTells(c: Case, attempt: nat)
    requires TellsState(c)
    ensures TellsState(CountFailure(c, attempt)) && Starts(CountFailure(c, attempt).log) == Starts(c.log)
  {
    var e := Event(HandlerFailed(Some(attempt)), |c.log|, c.row.owningRole, false);
    LogGrows(c.log, e);
    LogGrows(c.log + [e], Event(RetryScheduled(attempt), |c.log| + 1, c.row.owningRole, false));
  }

  // ---------------------------------------------------------------- approval is never bypassed

  /** An approved approval, for this very request, by somebody the rules let review it. */
  predicate IsProperlyApproved(g: Wiring, row: Row) {
    && row.approval.Some?
    && var a := row.approval.value;
    && a.decision == Granted
    && a.correlationId == row.correlation.correlationId
    && g.sod(row.requestingActor, a.approverActor, row.owningRole, a.approverRole).None?
  }

  predicate PassedGateAlone(g: Wiring, req: TaskRequest) {
    var v := g.gate(ProposalFor(g, req));
    v.Decided? && v.decision.allowed && !v.decision.requiresHumanApproval && !req.requiresApproval
  }

  /** The gate let the request in, if only to wait for a human. */
  predicate IsAdmitted(g: Wiring, req: TaskRequest) {
    var v := g.gate(ProposalFor(g, req));
    v.Decided? && v.decision.allowed
  }

  /** Work that was ever started was let in, approved if it had to be, and otherwise passed the gate unaided. */
  predicate IsAuthorised(g: Wiring, c: Case) {
    Starts(c.log) > 0 ==>
      && IsAdmitted(g, c.request)
      && if c.row.requiresApproval then IsProperlyApproved(g, c.row) else PassedGateAlone(g, c.request)
  }

  // ---------------------------------------------------------------- the handler is not called again

  /** No payload that could not be written. */
  predicate IsClean(calls: seq<HandlerOutcome>) {
    forall i :: 0 <= i < |calls| ==> calls[i] != Unserialisable
  }

  predicate IsDict(out: HandlerOutcome) {
    out.Output? || out.Unprintable?
  }

  /** No payload that could be written but not put into text. */
  predicate IsPrintable(calls: seq<HandlerOutcome>) {
    forall i :: 0 <= i < |calls| ==> !calls[i].Unprintable?
  }

  function FailedCalls(calls: seq<HandlerOutcome>): nat {
    if calls == [] then 0
    else FailedCalls(calls[..|calls| - 1]) + if calls[|calls| - 1].Output? then 0 else 1
  }

  lemma CallsGrow(calls: seq<HandlerOutcome>, out: HandlerOutcome)
    ensures FailedCalls(calls + [out]) == FailedCalls(calls) + if out.Output? then 0 else 1
    ensures IsClean(calls + [out]) <==> IsClean(calls) && out != Unserialisable
    ensures IsPrintable(calls + [out]) <==> IsPrintable(calls) && !out.Unprintable?
  {
    var more := calls + [out];
    assert more[..|calls|] == calls;
    assert more[|calls|] == out;
    assert forall i :: 0 <= i < |calls| ==> more[i] == calls[i];
  }

  /**
    * Calls are only made of work that is executing. A dict ends that; if it could be put into text, it ends the
    * calls too. Without an unwritable payload the calls are bounded and counted.
    */
  predicate CallsKept(c: Case) {
    && (Rank(c.row.state) < 4 ==> c.calls == [])
    && (forall i :: 0 <= i < |c.calls| && IsDict(c.calls[i]) ==> Rank(c.row.state) == 5)
    && (IsPrintable(c.calls) ==> forall i :: 0 <= i < |c.calls| && c.calls[i].Output? ==> i == |c.calls| - 1)
    && (IsClean(c.calls) ==>
          && (Rank(c.row.state) <= 4 ==> c.calls == [])
          && |c.calls| <= c.row.maxRetries + 1
          && c.row.retryCount == if IsPrintable(c.calls) then FailedCalls(c.calls) else |c.calls|)
  }

  /** Inside the retry loop, before the given attempt. */
  predicate IsRetrying(c: Case, attempt: nat) {
    && (forall i :: 0 <= i < |c.calls| ==> !IsDict(c.calls[i]))
    && FailedCalls(c.calls) == |c.calls|
    && (IsClean(c.calls) ==> |c.calls| == attempt && c.row.retryCount == attempt)
  }

  /** Inside what is left of the loop after a success that could not be reported. */
  predicate IsRedoing(c: Case, attempt: nat) {
    && !IsPrintable(c.calls)
    && (IsClean(c.calls) ==> |c.calls| == attempt && c.row.retryCount == attempt)
  }

  lemma {:induction false} AllFailed(calls: seq<HandlerOutcome>)
    requires forall i :: 0 <= i < |calls| ==> !IsDict(calls[i])
    ensures FailedCalls(calls) == |calls|
  {
    if calls != [] {
      AllFailed(calls[..|calls| - 1]);
    }
  }

  // ---------------------------------------------------------------- every call keeps all three

  predicate CaseKept(g: Wiring, c: Case) {
    && TellsState(c)
    && IsAuthorised(g, c)
    && CallsKept(c)
    && (c.row.state == AwaitingApproval || c.row.state == WorkflowStates.Approved ==>
          c.row.requiresApproval && IsAdmitted(g, c.request))
  }

  /**
    * Stored as cancelled by a call that named no actor: the row has moved on, its events have not, and nothing
    * will ever move it again.
    */
  predicate IsStranded(g: Wiring, c: Case) {
    && c.row.state == Cancelled
    && IsLegalLog(c.log)
    && LastState(c.log).Some? && IsValidTransition(LastState(c.log).value, Cancelled)
    && IsAuthorised(g, c)
    && CallsKept(c)
  }

  /** Told by its replay, and resting between calls in no state a finished cancellation passes through. */
  predicate IsTold(g: Wiring, c: Case) {
    CaseKept(g, c) && c.row.state != Cancelled
  }

  predicate CaseSound(g: Wiring, c: Case) {
    IsTold(g, c) || IsStranded(g, c)
  }

  /** From here on the approval and the request are settled, and so are the calls. */
  predicate SameStanding(a: Case, b: Case) {
    && a.row.requiresApproval == b.row.requiresApproval
    && a.row.approval == b.row.approval
    && a.row.correlation == b.row.correlation
    && a.row.requestingActor == b.row.requestingActor
    && a.row.owningRole == b.row.owningRole
    && a.request == b.request
  }

  lemma StandingCarries(g: Wiring, a: Case, b: Case)
    requires IsAuthorised(g, a) && SameStanding(a, b) && Starts(b.log) == Starts(a.log)
    ensures IsAuthorised(g, b)
  {
  }

  lemma FailClosedKeeps(g: Wiring, c: Case, now: string)
    requires CaseKept(g, c)
    ensures CaseKept(g, FailClosed(c, now))
  {
    FailClosedTells(c, now);
    StandingCarries(g, c, FailClosed(c, now));
  }

  lemma IsolateKeeps(g: Wiring, req: TaskRequest, row: Row, code: ErrorCode, message: string, now: string)
    requires row.retryCount == 0
    ensures CaseKept(g, Isolate(req, row, code, message, now))
  {
    LogGrows([], Event(Entered(DeadLetter), 0, req.requestingActor, false));
  }

  /** Moving on short of starting work. */
  lemma EnterKeeps(g: Wiring, c: Case, to: State, actor: string, now: string)
    requires CaseKept(g, c) && IsValidTransition(c.row.state, to) && to != Executing
    requires to == AwaitingApproval ==> c.row.requiresApproval && IsAdmitted(g, c.request)
    ensures CaseKept(g, Enter(c, to, actor, now))
  {
    EnterTells(c, to, actor, now);
    StandingCarries(g, c, Enter(c, to, actor, now));
  }

  lemma EnterAfterKeeps(g: Wiring, c: Case, to: State, why: EventType, actor: string, now: string)
    requires CaseKept(g, c) && IsValidTransition(c.row.state, to) && to != Executing && !why.Entered?
    requires to != AwaitingApproval
    ensures CaseKept(g, EnterAfter(c, to, why, actor, now))
  {
    EnterAfterTells(c, to, why, actor, now);
    StandingCarries(g, c, EnterAfter(c, to, why, actor, now));
  }

  /** An error on the record changes nothing that is kept. */
  lemma ErrorKeeps(g: Wiring, c: Case, code: ErrorCode, message: string, now: string)
    requires CaseKept(g, c)
    ensures CaseKept(g, WithError(c, code, message, now))
  {
    hide PassedGateAlone, IsAdmitted, Starts, LastState, IsLegalLog;
  }

  /** Starting work, with the authority for it at hand. */
  lemma StartKeeps(g: Wiring, c: Case, actor: string, now: string, landed: set<AuditPoint>)
    requires CaseKept(g, c) && IsValidTransition(c.row.state, Executing)
    requires IsAdmitted(g, c.request)
    requires if c.row.requiresApproval then IsProperlyApproved(g, c.row) else PassedGateAlone(g, c.request)
    ensures CaseKept(g, Audited(Enter(c, Executing, actor, now), OnExecuting, landed, now))
  {
    EnterTells(c, Executing, actor, now);
    LegalLogStartsOnce(c.log);
    FailClosedKeeps(g, Enter(c, Executing, actor, now), now);
  }

  lemma PassGateKeeps(g: Wiring, c: Case, now: string, late: bool, landed: set<AuditPoint>)
    requires CaseKept(g, c) && c.row.state == Validated
    requires c.row.requiresApproval == c.request.requiresApproval
    ensures CaseKept(g, PassGate(g, c, now, late, landed).after)
  {
    var actor := c.row.requestingActor;
    LegalLogStartsOnce(c.log);
    match g.gate(ProposalFor(g, c.request))
    case Raised =>
    case Decided(d) =>
      if !d.allowed {
        var e := WithError(c, PolicyDenied, GATE_REFUSED, now);
        EnterKeeps(g, e, Failed, actor, now);
        EnterKeeps(g, Enter(e, Failed, actor, now), DeadLetter, SYSTEM, now);
      } else if d.requiresHumanApproval {
        EnterKeeps(g, c.(row := c.row.(requiresApproval := true)), AwaitingApproval, actor, now);
      } else if IsPastDeadline(c.row, late) {
        EnterAfterKeeps(g, WithError(c, Timeout, LATE_BEFORE, now), DeadLetter, TimedOut, SYSTEM, now);
      } else if c.row.requiresApproval {
        EnterKeeps(g, c, AwaitingApproval, actor, now);
      } else {
        StartKeeps(g, c, actor, now, landed);
      }
  }

  lemma LaunchKeeps(g: Wiring, req: TaskRequest, row: Row, now: string, late: bool, landed: set<AuditPoint>)
    requires row.state == Proposed && row.retryCount == 0 && row.requiresApproval == req.requiresApproval
    ensures CaseKept(g, Launch(g, req, row, now, late, landed).after)
  {
    var created := Emit(Case(row, [], [], req), Entered(Proposed), req.requestingActor);
    LogGrows([], Event(Entered(Proposed), 0, req.requestingActor, false));
    assert CaseKept(g, created);
    if OnCreated !in landed {
      FailClosedKeeps(g, created, now);
    } else {
      var validated := Enter(created, Validated, req.requestingActor, now);
      EnterKeeps(g, created, Validated, req.requestingActor, now);
      if OnValidated !in landed {
        FailClosedKeeps(g, validated, now);
      } else {
        PassGateKeeps(g, validated, now, late, landed);
      }
    }
  }

  lemma GrantKeeps(g: Wiring, c: Case, approver: string, now: string, landed: set<AuditPoint>)
    requires CaseKept(g, c) && c.row.state == AwaitingApproval && IsProperlyApproved(g, c.row)
    ensures CaseKept(g, Grant(c, approver, now, landed))
  {
    var approved := EnterAfter(c, WorkflowStates.Approved, ApprovalGranted, approver, now);
    EnterAfterKeeps(g, c, WorkflowStates.Approved, ApprovalGranted, approver, now);
    FailClosedKeeps(g, approved, now);
    StartKeeps(g, approved, approver, now, landed);
  }

  lemma DeclineKeeps(g: Wiring, c: Case, a: Approval, now: string, landed: set<AuditPoint>)
    requires CaseKept(g, c) && c.row.state == AwaitingApproval
    ensures CaseKept(g, Decline(c, a, now, landed))
  {
    var e := WithError(c, ErrorCode.ApprovalDenied, DECLINED + a.reason, now);
    EnterAfterKeeps(g, e, DeadLetter, ApprovalRefused, a.approverActor, now);
    FailClosedKeeps(g, EnterAfter(e, DeadLetter, ApprovalRefused, a.approverActor, now), now);
  }

  lemma ApproveKeeps(g: Wiring, c: Case, a: Approval, now: string, landed: set<AuditPoint>)
    requires CaseKept(g, c)
    ensures CaseKept(g, Approve(g, c, a, now, landed).after)
  {
    hide Grant, Decline;
    if c.row.state == AwaitingApproval {
      LegalLogStartsOnce(c.log);
      var signed := c.(row := c.row.(approval := Some(a)));
      DeclineKeeps(g, signed, a, now, landed);
      if IsProperlyApproved(g, signed.row) {
        GrantKeeps(g, signed, a.approverActor, now, landed);
      }
    }
  }

  /** The accepted call as it stands right after the handler returned. */
  function Accepted(c: Case, payload: map<string, Json>): Case {
    Called(c, Output(payload)).(row := c.row.(output := Some(payload)))
  }

  lemma AcceptKeeps(g: Wiring, c: Case, payload: map<string, Json>, attempt: nat, now: string)
    requires TellsState(c) && IsAuthorised(g, c) && c.row.state == Executing
    requires IsRetrying(c, attempt) && attempt <= c.row.maxRetries
    ensures CaseKept(g, EnterAfter(Accepted(c, payload), Succeeded, HandlerSucceeded, c.row.owningRole, now))
  {
    CallsGrow(c.calls, Output(payload));
    EnterAfterTells(Accepted(c, payload), Succeeded, HandlerSucceeded, c.row.owningRole, now);
    StandingCarries(g, c, EnterAfter(Accepted(c, payload), Succeeded, HandlerSucceeded, c.row.owningRole, now));
  }

  lemma SucceedKeeps(g: Wiring, c: Case, payload: map<string, Json>, attempt: nat, now: string, landed: set<AuditPoint>)
    requires TellsState(c) && IsAuthorised(g, c) && c.row.state == Executing
    requires IsRetrying(c, attempt) && attempt <= c.row.maxRetries
    ensures CaseKept(g, Succeed(Called(c, Output(payload)), payload, now, landed))
    ensures Succeed(Called(c, Output(payload)), payload, now, landed).row.state in {Closed, DeadLetter}
  {
    hide CaseKept;
    var role := c.row.owningRole;
    var done := EnterAfter(Accepted(c, payload), Succeeded, HandlerSucceeded, role, now);
    AcceptKeeps(g, c, payload, attempt, now);
    FailClosedKeeps(g, done, now);
    EnterKeeps(g, done, Closed, role, now);
    FailClosedKeeps(g, Enter(done, Closed, role, now), now);
  }

  /** A failed attempt leaves the loop one attempt further on. */
  lemma CountKeeps(g: Wiring, c: Case, out: HandlerOutcome, attempt: nat)
    requires TellsState(c) && IsAuthorised(g, c) && c.row.state == Executing
    requires IsRetrying(c, attempt) && !IsDict(out) && out != Unserialisable
    ensures var counted := CountFailure(Called(c, out), attempt);
      && TellsState(counted) && IsAuthorised(g, counted)
      && counted.row.state == Executing && counted.row.maxRetries == c.row.maxRetries
      && IsRetrying(counted, attempt + 1)
  {
    var called := Called(c, out);
    var counted := CountFailure(called, attempt);
    CallsGrow(c.calls, out);
    CountFailureTells(called, attempt);
    StandingCarries(g, c, counted);
  }

  lemma ExhaustKeeps(g: Wiring, c: Case, text: string, now: string, landed: set<AuditPoint>)
    requires TellsState(c) && IsAuthorised(g, c) && c.row.state == Executing
    requires IsRetrying(c, c.row.maxRetries + 1)
    ensures CaseKept(g, Exhaust(c, text, now, landed).after)
    ensures Exhaust(c, text, now, landed).after.row.state in {Failed, DeadLetter}
  {
    hide IsAuthorised, TellsState, Strings.Strip;
    var role := c.row.owningRole;
    var failed := Enter(c, Failed, role, now);
    EnterTells(c, Failed, role, now);
    StandingCarries(g, c, failed);
    assert CaseKept(g, failed);
    hide CaseKept;
    FailClosedKeeps(g, failed, now);
    ErrorKeeps(g, failed, EngineError, Strings.Strip(text), now);
    EnterKeeps(g, WithError(failed, EngineError, Strings.Strip(text), now), DeadLetter, role, now);
  }

  /** The call whose payload cannot be written leaves the stored workflow executing, and unclean. */
  lemma UnwritableKeeps(g: Wiring, c: Case, attempt: nat)
    requires TellsState(c) && IsAuthorised(g, c) && c.row.state == Executing
    requires IsRetrying(c, attempt)
    ensures CaseKept(g, Called(c, Unserialisable))
  {
    CallsGrow(c.calls, Unserialisable);
    StandingCarries(g, c, Called(c, Unserialisable));
  }

  /** A stored success is a kept case, and the first step into the rest of the loop. */
  lemma SpoilKeeps(g: Wiring, c: Case, payload: map<string, Json>, attempt: nat, now: string)
    requires TellsState(c) && IsAuthorised(g, c) && c.row.state == Executing
    requires IsRetrying(c, attempt) && attempt <= c.row.maxRetries
    ensures var next := CountFailure(Accept(Called(c, Unprintable(payload)), payload, now), attempt);
      && TellsState(next) && IsAuthorised(g, next) && next.row.state == Succeeded
      && next.row.maxRetries == c.row.maxRetries && IsRedoing(next, attempt + 1)
  {
    hide IsAuthorised, TellsState;
    var called := Called(c, Unprintable(payload));
    var given := called.(row := called.row.(output := Some(payload)));
    assert TellsState(given) by {
      TellsOnlyState(c, given);
    }
    CallsGrow(c.calls, Unprintable(payload));
    EnterAfterTells(given, Succeeded, HandlerSucceeded, c.row.owningRole, now);
    var done := Accept(called, payload, now);
    CountFailureTells(done, attempt);
    StandingCarries(g, c, CountFailure(done, attempt));
  }

  lemma TellsOnlyState(a: Case, b: Case)
    requires TellsState(a) && a.log == b.log && a.row.state == b.row.state
    ensures TellsState(b)
  {
  }

  lemma RedoingIsTold(g: Wiring, c: Case, attempt: nat)
    requires TellsState(c) && IsAuthorised(g, c) && c.row.state == Succeeded
    requires attempt <= c.row.maxRetries + 1 && IsRedoing(c, attempt)
    ensures IsTold(g, c)
  {
    hide TellsState, IsAuthorised, FailedCalls;
  }

  lemma RedoneUnwritableIsTold(g: Wiring, c: Case, attempt: nat)
    requires TellsState(c) && IsAuthorised(g, c) && c.row.state == Succeeded && IsRedoing(c, attempt)
    ensures IsTold(g, Called(c, Unserialisable))
  {
    hide TellsState, IsAuthorised, FailedCalls;
    CallsGrow(c.calls, Unserialisable);
    TellsOnlyState(c, Called(c, Unserialisable));
    StandingCarries(g, c, Called(c, Unserialisable));
  }

  lemma RedoStep(g: Wiring, c: Case, out: HandlerOutcome, attempt: nat)
    requires TellsState(c) && IsAuthorised(g, c) && c.row.state == Succeeded && IsRedoing(c, attempt)
    requires out != Unserialisable
    ensures var next := CountFailure(WithOutput(Called(c, out), out), attempt);
      && TellsState(next) && IsAuthorised(g, next) && next.row.state == Succeeded
      && next.row.maxRetries == c.row.maxRetries && IsRedoing(next, attempt + 1)
  {
    hide TellsState, IsAuthorised, FailedCalls;
    CallsGrow(c.calls, out);
    var given := WithOutput(Called(c, out), out);
    TellsOnlyState(c, given);
    CountFailureTells(given, attempt);
    StandingCarries(g, c, CountFailure(given, attempt));
  }

  lemma {:induction false} RedoKeeps(g: Wiring, c: Case, attempt: nat, h: Handler)
    requires TellsState(c) && IsAuthorised(g, c) && c.row.state == Succeeded
    requires attempt <= c.row.maxRetries + 1 && IsRedoing(c, attempt)
    ensures IsTold(g, Redo(c, attempt, h).after)
    decreases c.row.maxRetries + 1 - attempt
  {
    hide TellsState, IsAuthorised, IsRedoing, IsTold, CountFailure, WithOutput;
    if attempt > c.row.maxRetries {
      RedoingIsTold(g, c, attempt);
    } else if h(attempt) == Unserialisable {
      RedoneUnwritableIsTold(g, c, attempt);
    } else {
      var out := h(attempt);
      RedoStep(g, c, out, attempt);
      RedoKeeps(g, CountFailure(WithOutput(Called(c, out), out), attempt), attempt + 1, h);
    }
  }

  lemma {:induction false} AttemptsKeep(g: Wiring, c: Case, attempt: nat, h: Handler, now: string, landed: set<AuditPoint>)
    requires TellsState(c) && IsAuthorised(g, c) && c.row.state == Executing
    requires attempt <= c.row.maxRetries && IsRetrying(c, attempt)
    ensures IsTold(g, Attempts(c, attempt, h, now, landed).after)
    decreases c.row.maxRetries - attempt
  {
    hide CaseKept, TellsState, IsAuthorised, Succeed, Exhaust, CountFailure, Accept, Redo;
    var out := h(attempt);
    match out
    case Unprintable(payload) =>
      SpoilKeeps(g, c, payload, attempt, now);
      RedoKeeps(g, CountFailure(Accept(Called(c, out), payload, now), attempt), attempt + 1, h);
    case Output(payload) => SucceedKeeps(g, c, payload, attempt, now, landed);
    case Unserialisable => UnwritableKeeps(g, c, attempt);
    case _ =>
      var counted := CountFailure(Called(c, out), attempt);
      CountKeeps(g, c, out, attempt);
      if attempt == c.row.maxRetries {
        ExhaustKeeps(g, counted, ErrorText(out), now, landed);
      } else {
        AttemptsKeep(g, counted, attempt + 1, h, now, landed);
      }
  }

  lemma ExecuteKeeps(g: Wiring, c: Case, registered: bool, h: Handler, now: string, late: bool, landed: set<AuditPoint>)
    requires IsTold(g, c)
    ensures IsTold(g, Execute(c, registered, h, now, late, landed).after)
  {
    hide IsAuthorised, TellsState;
    if c.row.state == Executing {
      ErrorKeeps(g, c, Timeout, LATE_DURING, now);
      ErrorKeeps(g, c, ErrorCode.NotFound, NO_HANDLER + c.row.capability, now);
      EnterAfterKeeps(g, WithError(c, Timeout, LATE_DURING, now), DeadLetter, TimedOut, SYSTEM, now);
      EnterAfterKeeps(g, WithError(c, ErrorCode.NotFound, NO_HANDLER + c.row.capability, now), DeadLetter,
                      HandlerFailed(None), SYSTEM, now);
      AllFailed(c.calls);
      AttemptsKeep(g, c, 0, h, now, landed);
    }
  }

  /** A cancellation that names its actor is told; one that does not strands the workflow. */
  lemma CancelKeeps(g: Wiring, c: Case, actor: string, now: string)
    requires IsTold(g, c)
    ensures if IsCancellable(c) && Strings.Strip(actor) == "" then IsStranded(g, Cancel(c, actor, now).after)
            else IsTold(g, Cancel(c, actor, now).after)
  {
    hide Strings.Strip;
    if IsCancellable(c) {
      EnterKeeps(g, c, Cancelled, Strings.Strip(actor), now);
      EnterKeeps(g, Enter(c, Cancelled, Strings.Strip(actor), now), Closed, Strings.Strip(actor), now);
    }
  }

  // ---------------------------------------------------------------- every run

  /** No approval moves a cancelled row. */
  lemma CancelledStays(g: Wiring, c: Case, a: Approval, now: string, landed: set<AuditPoint>)
    requires c.row.state == Cancelled
    ensures Approve(g, c, a, now, landed).after == c
  {
    hide Grant, Decline, SameIdentity;
  }

  /** One workflow per idempotency key, found under that key, each kept as above. */
  ghost predicate WorldKept(g: Wiring, w: World) {
    && (forall key :: key in w.byKey ==> w.byKey[key] in w.cases)
    && (forall id :: id in w.cases ==> IdKept(g, w, id))
    && KillSwitch.EveryHaltRecorded(w.switch)
  }

  predicate IdKept(g: Wiring, w: World, id: string)
    requires id in w.cases
  {
    var row := w.cases[id].row;
    && row.workflowId == id
    && row.idempotencyKey in w.byKey && w.byKey[row.idempotencyKey] == id
    && CaseSound(g, w.cases[id])
  }

  /** A call changes one case, which stays kept and keeps its identity. */
  lemma KeepKeepsWorld(g: Wiring, w: World, id: string, t: Turn)
    requires WorldKept(g, w) && id in w.cases
    requires CaseSound(g, t.after) && SameIdentity(w.cases[id], t.after)
    ensures WorldKept(g, Keep(w, id, t).after)
  {
    var after := Keep(w, id, t).after;
    assert IdKept(g, w, id);
    forall i | i in after.cases
      ensures IdKept(g, after, i)
    {
      if i != id {
        assert IdKept(g, w, i);
      }
    }
  }

  lemma SubmitKeepsWorld(g: Wiring, w: World, op: Op)
    requires WorldKept(g, w) && op.SubmitOp?
    ensures WorldKept(g, Submit(g, w, op).after)
  {
    hide CaseKept, Launch, Isolate, IsStranded, Strings.Strip;
    var key := op.req.correlation.idempotencyKey;
    var after := Submit(g, w, op).after;
    if after != w {
      var row := Fresh(op);
      if op.screening.Refused? || op.screening.Denied? {
        IsolateRests(g, op.req, NewRow(op.req, op.id, op.taskId, op.now), RefusalCode(op.screening),
                     RefusalText(op.screening), op.now);
      }
      LaunchKeeps(g, op.req, row, op.now, op.late, op.landed);
      LaunchRests(g, op.req, row, op.now, op.late, op.landed);
      forall i | i in after.cases
        ensures IdKept(g, after, i)
      {
        if i != op.id {
          assert IdKept(g, w, i);
        }
      }
    }
  }

  lemma IsolateRests(g: Wiring, req: TaskRequest, row: Row, code: ErrorCode, message: string, now: string)
    requires row.retryCount == 0
    ensures IsTold(g, Isolate(req, row, code, message, now))
  {
    IsolateKeeps(g, req, row, code, message, now);
    hide CaseKept;
  }

  lemma LaunchRests(g: Wiring, req: TaskRequest, row: Row, now: string, late: bool, landed: set<AuditPoint>)
    requires row.state == Proposed
    ensures Launch(g, req, row, now, late, landed).after.row.state != Cancelled
  {
    hide ErrorFor, ProposalFor, SameIdentity;
  }

  lemma ApproveRests(g: Wiring, c: Case, a: Approval, now: string, landed: set<AuditPoint>)
    requires c.row.state != Cancelled
    ensures Approve(g, c, a, now, landed).after.row.state != Cancelled
  {
    hide ErrorFor, SameIdentity;
  }

  lemma ApproveStaysSound(g: Wiring, c: Case, a: Approval, now: string, landed: set<AuditPoint>)
    requires CaseSound(g, c)
    ensures CaseSound(g, Approve(g, c, a, now, landed).after)
  {
    hide CaseKept, Approve;
    if c.row.state == Cancelled {
      CancelledStays(g, c, a, now, landed);
    } else {
      ApproveKeeps(g, c, a, now, landed);
      ApproveRests(g, c, a, now, landed);
    }
  }

  lemma ExecuteStaysSound(g: Wiring, c: Case, registered: bool, h: Handler, now: string, late: bool,
                          landed: set<AuditPoint>)
    requires CaseSound(g, c)
    ensures CaseSound(g, Execute(c, registered, h, now, late, landed).after)
  {
    hide CaseKept, Execute, Attempts, Expire, Unhandled;
    if c.row.state != Executing {
      NotExecutingStays(c, registered, h, now, late, landed);
    } else {
      ExecuteKeeps(g, c, registered, h, now, late, landed);
    }
  }

  lemma NotExecutingStays(c: Case, registered: bool, h: Handler, now: string, late: bool, landed: set<AuditPoint>)
    requires c.row.state != Executing
    ensures Execute(c, registered, h, now, late, landed) == Turn(c, Answer.Raised(WrongState))
  {
    hide Attempts, Expire, Unhandled, SameIdentity;
  }

  lemma CancelStaysSound(g: Wiring, c: Case, actor: string, now: string)
    requires CaseSound(g, c)
    ensures CaseSound(g, Cancel(c, actor, now).after)
  {
    hide CaseKept, Enter;
    if c.row.state != Cancelled {
      CancelKeeps(g, c, actor, now);
    }
  }

  lemma StepKeepsWorld(g: Wiring, w: World, op: Op)
    requires WorldKept(g, w)
    ensures WorldKept(g, Step(g, w, op).after)
  {
    hide CaseKept, CaseSound, Submit, Approve, Execute, Cancel, KillSwitch.EveryHaltRecorded;
    match op
    case SubmitOp(_, _, _, _, _, _, _, _) => SubmitKeepsWorld(g, w, op);
    case ApproveOp(id, a, now, landed) =>
      if id in w.cases {
        assert IdKept(g, w, id);
        ApproveStaysSound(g, w.cases[id], a, now, landed);
        KeepKeepsWorld(g, w, id, Approve(g, w.cases[id], a, now, landed));
      }
    case ExecuteOp(id, h, now, late, landed) =>
      if id in w.cases {
        var c := w.cases[id];
        assert IdKept(g, w, id);
        ExecuteStaysSound(g, c, c.row.capability in w.handlers, h, now, late, landed);
        KeepKeepsWorld(g, w, id, Execute(c, c.row.capability in w.handlers, h, now, late, landed));
      }
    case CancelOp(id, actor, now) =>
      if id in w.cases {
        assert IdKept(g, w, id);
        CancelStaysSound(g, w.cases[id], actor, now);
        KeepKeepsWorld(g, w, id, Cancel(w.cases[id], actor, now));
      }
    case RegisterOp(capability) => OutsideCasesKeeps(g, w, Step(g, w, op).after);
    case EngageOp(reason, actor, tenant, now, auditLands) =>
      KillSwitch.EngageKeepsRecords(w.switch, reason, actor, tenant, now, auditLands);
      OutsideCasesKeeps(g, w, Step(g, w, op).after);
    case ReleaseOp(actor, tenant, auditLands) =>
      KillSwitch.ReleaseKeepsRecords(w.switch, actor, tenant, auditLands);
      OutsideCasesKeeps(g, w, Step(g, w, op).after);
    case TrailOp(entry) =>
      KillSwitch.TrailGrowthKeepsRecords(w.switch, w.switch.trail + [entry]);
      OutsideCasesKeeps(g, w, Step(g, w, op).after);
  }

  lemma OutsideCasesKeeps(g: Wiring, w: World, after: World)
    requires WorldKept(g, w)
    requires after.cases == w.cases && after.byKey == w.byKey && KillSwitch.EveryHaltRecorded(after.switch)
    ensures WorldKept(g, after)
  {
    forall id | id in after.cases
      ensures IdKept(g, after, id)
    {
      assert IdKept(g, w, id);
    }
  }

  lemma {:induction false} RunKeepsWorld(g: Wiring, w: World, ops: seq<Op>)
    requires WorldKept(g, w)
    ensures WorldKept(g, Run(g, w, ops))
    decreases |ops|
  {
    if ops != [] {
      StepKeepsWorld(g, w, ops[0]);
      RunKeepsWorld(g, Step(g, w, ops[0]).after, ops[1..]);
    }
  }
}
