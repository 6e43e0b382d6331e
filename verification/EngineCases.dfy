/** What each call of the engine comes to, case by case. */
module EngineCases {
  import opened Wrappers
  import opened WorkflowStates
  import opened Records
  import opened RoleCatalog
  import opened EngineSpec
  import opened EngineProofs
  import opened EngineTheorems
  import KillSwitch
  import Strings

  predicate HasError(c: Case, code: ErrorCode) {
    c.row.error.Some? && c.row.error.value.code == code
  }

  // ---------------------------------------------------------------- submit

  /** A submission that comes as far as being created. */
  predicate IsNew(w: World, op: Op) {
    && op.SubmitOp? && op.screening.Clear?
    && !KillSwitch.IsHalted(w.switch.halts, TenantOfRequest(op.req))
    && op.req.correlation.idempotencyKey !in w.byKey && op.id !in w.cases
  }

  /** Both audit writes on the way to the gate landed. */
  predicate IsAudited(op: Op)
    requires op.SubmitOp?
  {
    OnCreated in op.landed && OnValidated in op.landed
  }

  predicate IsLate(op: Op)
    requires op.SubmitOp?
  {
    op.req.hasTimeout && op.late
  }

  /** A new workflow is stored under its key and id with what was asked for; no other workflow is touched. */
  lemma SubmissionIsStored(g: Wiring, w: World, op: Op)
    requires IsNew(w, op)
    ensures var after := Step(g, w, op).after;
      && op.id in after.cases
      && after == w.(cases := w.cases[op.id := after.cases[op.id]],
                     byKey := w.byKey[op.req.correlation.idempotencyKey := op.id])
      && var c := after.cases[op.id];
      && c.request == op.req && c.calls == []
      && c.row.workflowId == op.id && c.row.correlation == op.req.correlation
      && c.row.idempotencyKey == op.req.correlation.idempotencyKey && c.row.tenantId == op.req.correlation.tenantId
      && c.row.requestingActor == op.req.requestingActor && c.row.owningRole == op.req.owningRole
      && c.row.capability == op.req.capability && c.row.input == op.req.input
      && c.row.maxRetries == 3 && c.row.retryCount == 0 && c.row.output.None? && c.row.approval.None?
      && c.row.deadline == (if op.req.hasTimeout then Some(op.deadline) else None)
  {
    hide ProposalFor, SameIdentity, KillSwitch.IsHalted, TenantOfRequest, Launch;
    LaunchKeepsRequest(g, op.req, Fresh(op), op.now, op.late, op.landed);
  }

  /** The columns no part of a submission rewrites. */
  predicate SameSubmission(a: Row, b: Row) {
    && a.workflowId == b.workflowId && a.correlation == b.correlation && a.idempotencyKey == b.idempotencyKey
    && a.tenantId == b.tenantId && a.requestingActor == b.requestingActor && a.owningRole == b.owningRole
    && a.capability == b.capability && a.input == b.input && a.maxRetries == b.maxRetries
    && a.retryCount == b.retryCount && a.output == b.output && a.approval == b.approval && a.deadline == b.deadline
  }

  lemma PassGateKeepsRequest(g: Wiring, c: Case, now: string, late: bool, landed: set<AuditPoint>)
    requires c.row.state == Validated
    ensures var after := PassGate(g, c, now, late, landed).after;
      SameSubmission(c.row, after.row) && after.calls == c.calls && after.request == c.request
  {
    hide ProposalFor, ErrorFor, SameIdentity;
  }

  lemma LaunchKeepsRequest(g: Wiring, req: TaskRequest, row: Row, now: string, late: bool, landed: set<AuditPoint>)
    requires row.state == Proposed
    ensures var after := Launch(g, req, row, now, late, landed).after;
      SameSubmission(row, after.row) && after.calls == [] && after.request == req
  {
    hide PassGate, ErrorFor, SameIdentity;
    var created := Emit(Case(row, [], [], req), Entered(Proposed), req.requestingActor);
    PassGateKeepsRequest(g, Enter(created, Validated, req.requestingActor, now), now, late, landed);
  }

  /**
    * A submission is refused by the kill switch for a halt on everything, for one on the tenant of its correlation,
    * or else of the request, and for a tenant that is blank.
    */
  lemma SubmissionIsHaltedExactly(g: Wiring, w: World, op: Op)
    requires op.SubmitOp?
    ensures var of := if op.req.correlation.tenantId.Some? then op.req.correlation.tenantId else op.req.tenantId;
      Step(g, w, op) == Reply(w, Answer.Raised(SwitchEngaged)) <==>
        || "*" in w.switch.halts
        || (of.Some? && (Strings.Strip(of.value) == "" || Strings.Strip(of.value) in w.switch.halts))
  {
    hide Launch, Isolate, SameIdentity, Strings.Strip;
    if !KillSwitch.IsHalted(w.switch.halts, TenantOfRequest(op.req)) {
      assert Step(g, w, op).answer != Answer.Raised(SwitchEngaged) by {
        LaunchAnswers(g, op.req, Fresh(op), op.now, op.late, op.landed);
      }
    }
  }

  lemma LaunchAnswers(g: Wiring, req: TaskRequest, row: Row, now: string, late: bool, landed: set<AuditPoint>)
    requires row.state == Proposed
    ensures Launch(g, req, row, now, late, landed).answer != Answer.Raised(SwitchEngaged)
  {
    hide SameIdentity, ProposalFor, ErrorFor, Emit;
  }

  /** A lost audit write on the way to the gate fails the workflow closed. */
  lemma UnauditedSubmissionFailsClosed(g: Wiring, w: World, op: Op)
    requires IsNew(w, op) && !IsAudited(op)
    ensures var r := Step(g, w, op);
      && r.answer == Returned && op.id in r.after.cases
      && var c := r.after.cases[op.id];
      && c.row.state == DeadLetter && HasError(c, DependencyUnavailable) && Starts(c.log) == 0
  {
    hide SameIdentity, KillSwitch.IsHalted, TenantOfRequest, Launch;
    UnauditedLaunchFailsClosed(g, op.req, Fresh(op), op.now, op.late, op.landed);
  }

  lemma UnauditedLaunchFailsClosed(g: Wiring, req: TaskRequest, row: Row, now: string, late: bool,
                                   landed: set<AuditPoint>)
    requires row.state == Proposed && !(OnCreated in landed && OnValidated in landed)
    ensures var t := Launch(g, req, row, now, late, landed);
      t.answer == Returned && t.after.row.state == DeadLetter && HasError(t.after, DependencyUnavailable)
      && Starts(t.after.log) == 0
  {
    hide SameIdentity, PassGate, Starts;
    NotStarted(Launch(g, req, row, now, late, landed).after.log);
  }

  lemma {:induction false} NotStarted(log: seq<Event>)
    requires forall i :: 0 <= i < |log| ==> log[i].kind != Entered(Executing)
    ensures Starts(log) == 0
  {
    if log != [] {
      NotStarted(log[..|log| - 1]);
    }
  }

  /**
    * Past the gate, by its verdict: it raised, denied, held, or let run what is late, what was submitted for
    * approval, and what starts, if the last audit write lands.
    */
  lemma SubmissionEndsExactly(g: Wiring, w: World, op: Op)
    requires IsNew(w, op) && IsAudited(op)
    ensures var r := Step(g, w, op);
      && op.id in r.after.cases
      && var c, v := r.after.cases[op.id], g.gate(ProposalFor(g, op.req));
      && (r.answer == if v.Raised? then Answer.Raised(GateRaised) else Returned)
      && (if v.Raised? then c.row.state == Validated && c.row.error.None?
          else if !v.decision.allowed then c.row.state == DeadLetter && HasError(c, PolicyDenied)
          else if v.decision.requiresHumanApproval then c.row.state == AwaitingApproval && c.row.error.None?
          else if IsLate(op) then c.row.state == DeadLetter && HasError(c, ErrorCode.Timeout)
          else if op.req.requiresApproval then c.row.state == AwaitingApproval && c.row.error.None?
          else if OnExecuting in op.landed then c.row.state == Executing && c.row.error.None?
          else c.row.state == DeadLetter && HasError(c, DependencyUnavailable))
      && (c.row.requiresApproval <==>
            op.req.requiresApproval || (v.Decided? && v.decision.allowed && v.decision.requiresHumanApproval))
  {
    hide ProposalFor, SameIdentity, KillSwitch.IsHalted, TenantOfRequest, PassGate, ErrorFor, HasError;
    var created := Emit(Case(Fresh(op), [], [], op.req), Entered(Proposed), op.req.requestingActor);
    PassGateEndsExactly(g, Enter(created, Validated, op.req.requestingActor, op.now), op.now, op.late, op.landed);
  }

  lemma PassGateEndsExactly(g: Wiring, was: Case, now: string, late: bool, landed: set<AuditPoint>)
    requires was.row.state == Validated && was.row.error.None?
    ensures var t, v := PassGate(g, was, now, late, landed), g.gate(ProposalFor(g, was.request));
      var c := t.after;
      && (t.answer == if v.Raised? then Answer.Raised(GateRaised) else Returned)
      && (if v.Raised? then c.row.state == Validated && c.row.error.None?
          else if !v.decision.allowed then c.row.state == DeadLetter && HasError(c, PolicyDenied)
          else if v.decision.requiresHumanApproval then c.row.state == AwaitingApproval && c.row.error.None?
          else if was.row.deadline.Some? && late then c.row.state == DeadLetter && HasError(c, ErrorCode.Timeout)
          else if was.row.requiresApproval then c.row.state == AwaitingApproval && c.row.error.None?
          else if OnExecuting in landed then c.row.state == Executing && c.row.error.None?
          else c.row.state == DeadLetter && HasError(c, DependencyUnavailable))
      && (c.row.requiresApproval <==>
            was.row.requiresApproval || (v.Decided? && v.decision.allowed && v.decision.requiresHumanApproval))
  {
    hide ProposalFor, SameIdentity;
  }

  // ---------------------------------------------------------------- approve

  /** Why an approval is turned away, if it is. */
  function ObjectionTo(g: Wiring, w: World, id: string, a: Approval): Option<Fault> {
    if id !in w.cases then Some(UnknownWorkflow)
    else
      var row := w.cases[id].row;
      if KillSwitch.IsHalted(w.switch.halts, row.tenantId) then Some(SwitchEngaged)
      else if row.state != AwaitingApproval then Some(WrongState)
      else if row.correlation.correlationId != a.correlationId then Some(WrongCorrelation)
      else if g.sod(row.requestingActor, a.approverActor, row.owningRole, a.approverRole).Some? then Some(NotEntitled)
      else None
  }

  /** An approval that meets an objection raises it and changes nothing; any other is acted on. */
  lemma ApprovalIsRefusedExactly(g: Wiring, w: World, id: string, a: Approval, now: string, landed: set<AuditPoint>)
    ensures var r, why := Step(g, w, ApproveOp(id, a, now, landed)), ObjectionTo(g, w, id, a);
      && (r.answer == Returned <==> why.None?)
      && (why.Some? ==> r == Reply(w, Answer.Raised(why.value)))
  {
    hide Grant, Decline, KillSwitch.IsHalted, SameIdentity;
    if id in w.cases {
      assert w.cases[id := w.cases[id]] == w.cases;
    }
  }

  /**
    * A proper approval starts the work if it grants it and both audit writes land; everything else ends in the
    * dead-letter queue, saying whether it was denied or the trail was lost. Either way it is stored.
    */
  lemma ApprovalActsExactly(g: Wiring, w: World, id: string, a: Approval, now: string, landed: set<AuditPoint>)
    requires ObjectionTo(g, w, id, a).None?
    ensures var after := Step(g, w, ApproveOp(id, a, now, landed)).after;
      && id in after.cases && after == w.(cases := w.cases[id := after.cases[id]])
      && var c, was := after.cases[id], w.cases[id];
      && c.row.approval == Some(a)
      && (c.row.state == Executing <==> a.decision == Granted && OnGranted in landed && OnExecuting in landed)
      && (c.row.state == Executing || c.row.state == DeadLetter)
      && (c.row.state == Executing ==> c.row.error == was.row.error)
      && (c.row.state == DeadLetter ==>
            HasError(c, if a.decision == Declined && OnDeclined in landed then ErrorCode.ApprovalDenied
                        else DependencyUnavailable))
      && (a.decision == Declined && OnDeclined in landed ==>
            c.row.error.Some? && c.row.error.value.message == "approval denied: " + a.reason)
      && c.calls == was.calls && c.row.requiresApproval == was.row.requiresApproval
      && was.log < c.log
      && c.log[|was.log|] == Event(if a.decision == Granted then ApprovalGranted else ApprovalRefused, |was.log|,
                                   a.approverActor, false)
  {
    hide KillSwitch.IsHalted, Grant, Decline, HasError;
    var signed := w.cases[id].(row := w.cases[id].row.(approval := Some(a)));
    GrantEndsExactly(signed, a.approverActor, now, landed);
    DeclineEndsExactly(signed, a, now, landed);
  }

  lemma GrantEndsExactly(was: Case, approver: string, now: string, landed: set<AuditPoint>)
    requires was.row.state == AwaitingApproval
    ensures var c := Grant(was, approver, now, landed);
      && (if OnGranted in landed && OnExecuting in landed then c.row.state == Executing && c.row.error == was.row.error
          else c.row.state == DeadLetter && HasError(c, DependencyUnavailable))
      && c.row.approval == was.row.approval && c.calls == was.calls
      && c.row.requiresApproval == was.row.requiresApproval
      && was.log < c.log && c.log[|was.log|] == Event(ApprovalGranted, |was.log|, approver, false)
  {
  }

  lemma DeclineEndsExactly(was: Case, a: Approval, now: string, landed: set<AuditPoint>)
    requires was.row.state == AwaitingApproval
    ensures var c := Decline(was, a, now, landed);
      && c.row.state == DeadLetter
      && (if OnDeclined in landed
          then HasError(c, ErrorCode.ApprovalDenied) && c.row.error.value.message == "approval denied: " + a.reason
          else HasError(c, DependencyUnavailable))
      && c.row.approval == was.row.approval && c.calls == was.calls
      && c.row.requiresApproval == was.row.requiresApproval
      && was.log < c.log && c.log[|was.log|] == Event(ApprovalRefused, |was.log|, a.approverActor, false)
  {
  }

  /** Over all approvals of a known, unhalted workflow: which leave it executing. */
  lemma ApprovalStartsExactly(g: Wiring, w: World, id: string, a: Approval, now: string, landed: set<AuditPoint>)
    requires id in w.cases && !KillSwitch.IsHalted(w.switch.halts, w.cases[id].row.tenantId)
    ensures var row := w.cases[id].row;
      var after := Step(g, w, ApproveOp(id, a, now, landed)).after;
      && id in after.cases
      && (after.cases[id].row.state == Executing <==>
            || row.state == Executing
            || (&& row.state == AwaitingApproval && row.correlation.correlationId == a.correlationId
                && g.sod(row.requestingActor, a.approverActor, row.owningRole, a.approverRole).None?
                && a.decision == Granted && OnGranted in landed && OnExecuting in landed))
  {
    hide Step, KillSwitch.IsHalted;
    ApprovalIsRefusedExactly(g, w, id, a, now, landed);
    if ObjectionTo(g, w, id, a).None? {
      ApprovalActsExactly(g, w, id, a, now, landed);
    }
  }

  // ---------------------------------------------------------------- cancel

  /** Work can be cancelled until it has succeeded, been compensated, or come to an end. */
  lemma CancelIsRefusedExactly(g: Wiring, w: World, id: string, actor: string, now: string)
    requires id in w.cases
    ensures var r, state := Step(g, w, CancelOp(id, actor, now)), w.cases[id].row.state;
      && (r == Reply(w, Answer.Raised(WrongState)) <==>
            state in {Succeeded, Compensated, Cancelled, DeadLetter, Closed})
      && (r.answer == Answer.Raised(WrongState) <==> r == Reply(w, Answer.Raised(WrongState)))
  {
    hide Strings.Strip, SameIdentity;
    assert w.cases[id := w.cases[id]] == w.cases;
  }

  // ---------------------------------------------------------------- handlers and halts

  /** A capability, once registered, stays so; a blank one is refused. */
  lemma RegistrationAddsExactly(g: Wiring, w: World, capability: string, other: string)
    ensures var r, name := Step(g, w, RegisterOp(capability)), Strings.Strip(capability);
      && (r.answer == Returned <==> name != "")
      && (other in r.after.handlers <==> other in w.handlers || (other == name && name != ""))
      && r.after == w.(handlers := r.after.handlers)
  {
    hide Strings.Strip;
  }

  /** A halt needs a reason, a name and a tenant that can be one; without its record it raises and is not in force. */
  lemma EngagementAnswersExactly(g: Wiring, w: World, reason: string, actor: string, tenant: Option<string>, now: string,
                                 lands: bool)
    ensures var r := Step(g, w, EngageOp(reason, actor, tenant, now, lands));
      var proper := Strings.Strip(reason) != "" && Strings.Strip(actor) != "" &&
                    (tenant.Some? ==> Strings.Strip(tenant.value) != "" && Strings.Strip(tenant.value) != "*");
      && r.answer == (if !proper then Answer.Raised(BadHalt) else if lands then Returned else Answer.Raised(AuditLost))
      && (r.answer != Returned ==> r.after == w)
      && (r.answer == Returned ==>
            r.after.switch.halts == w.switch.halts[if tenant.None? then "*" else Strings.Strip(tenant.value) :=
              KillSwitch.Halt(Strings.Strip(reason), Strings.Strip(actor), now)])
  {
    hide Strings.Strip;
  }

  /** A release needs a name and such a tenant; it lifts the one halt even when its own record is lost. */
  lemma ReleaseAnswersExactly(g: Wiring, w: World, actor: string, tenant: Option<string>, lands: bool)
    ensures var r := Step(g, w, ReleaseOp(actor, tenant, lands));
      var proper := Strings.Strip(actor) != "" &&
                    (tenant.Some? ==> Strings.Strip(tenant.value) != "" && Strings.Strip(tenant.value) != "*");
      && r.answer == (if !proper then Answer.Raised(BadHalt) else if lands then Returned else Answer.Raised(AuditLost))
      && (if proper then r.after.switch.halts == w.switch.halts - {if tenant.None? then "*" else Strings.Strip(tenant.value)}
          else r.after == w)
      && r.after.cases == w.cases
  {
    hide Strings.Strip;
  }

  // ---------------------------------------------------------------- execute

  /** Late work times out, work without a handler is not found, and neither calls anything. */
  lemma LateOrUnhandledEndsExactly(g: Wiring, w: World, op: Op)
    requires op.ExecuteOp? && op.id in w.cases
    requires !KillSwitch.IsHalted(w.switch.halts, w.cases[op.id].row.tenantId)
    requires w.cases[op.id].row.state == Executing
    requires (w.cases[op.id].row.deadline.Some? && op.late) || w.cases[op.id].row.capability !in w.handlers
    ensures var r := Step(g, w, op);
      && r.answer == Returned && op.id in r.after.cases
      && var c := r.after.cases[op.id];
      && c.row.state == DeadLetter && c.calls == w.cases[op.id].calls
      && HasError(c, if w.cases[op.id].row.deadline.Some? && op.late then ErrorCode.Timeout else ErrorCode.NotFound)
  {
    hide KillSwitch.IsHalted, Attempts, SameIdentity;
  }

  /** Work that is not executing is not executed. */
  lemma RestingIsNotExecuted(g: Wiring, w: World, op: Op)
    requires op.ExecuteOp? && op.id in w.cases && w.cases[op.id].row.state != Executing
    ensures var halted := KillSwitch.IsHalted(w.switch.halts, w.cases[op.id].row.tenantId);
      Step(g, w, op) == Reply(w, Answer.Raised(if halted then SwitchEngaged else WrongState))
  {
    hide KillSwitch.IsHalted, Attempts, Expire, Unhandled, SameIdentity;
    assert w.cases[op.id := w.cases[op.id]] == w.cases;
  }

  /** What the loop leaves as the error: a lost trail, or the text of the last failure. */
  lemma {:induction false} LoopErrsExactly(c: Case, attempt: nat, h: Handler, now: string, landed: set<AuditPoint>)
    requires c.row.state == Executing && attempt <= c.row.maxRetries
    ensures var out := h(StopsAt(h, attempt, c.row.maxRetries));
      var after := Attempts(c, attempt, h, now, landed).after;
      && (after.row.state == DeadLetter ==>
            if out.Output? || OnFailed !in landed then HasError(after, DependencyUnavailable)
            else HasError(after, EngineError) && after.row.error.value.message == Strings.Strip(ErrorText(out)))
      && (after.row.state == Closed ==> after.row.error == c.row.error)
    decreases c.row.maxRetries - attempt
  {
    hide SameIdentity, CountFailure, Accept, Succeed, Exhaust, Redo, RedoStopsAt, WithOutput, ErrorText, Emit,
         Strings.Strip;
    var out := h(attempt);
    CountedRow(Called(c, out), attempt);
    if out.Unprintable? {
      SpoiledLoop(c, attempt, h, now, landed);
    } else if out.Output? {
      SucceededError(Called(c, out), out, now, landed);
    } else if out != Unserialisable {
      if attempt < c.row.maxRetries {
        LoopErrsExactly(CountFailure(Called(c, out), attempt), attempt + 1, h, now, landed);
      } else {
        ExhaustedError(CountFailure(Called(c, out), attempt), ErrorText(out), now, landed);
      }
    }
  }

  lemma SucceededError(c: Case, out: HandlerOutcome, now: string, landed: set<AuditPoint>)
    requires c.row.state == Executing && out.Output?
    ensures var after := Succeed(c, out.payload, now, landed);
      && (after.row.state == Closed ==> after.row.error == c.row.error)
      && (after.row.state == DeadLetter ==> HasError(after, DependencyUnavailable))
  {
    hide SameIdentity;
  }

  lemma ExhaustedError(c: Case, text: string, now: string, landed: set<AuditPoint>)
    requires c.row.state == Executing
    ensures var after := Exhaust(c, text, now, landed).after;
      && after.row.state != Closed
      && (after.row.state == DeadLetter ==>
            if OnFailed !in landed then HasError(after, DependencyUnavailable)
            else HasError(after, EngineError) && after.row.error.value.message == Strings.Strip(text))
  {
    hide Strings.Strip, SameIdentity;
  }

  /** Any other executing work goes through the loop, from its first attempt. */
  lemma ExecutionIsTheLoop(g: Wiring, w: World, op: Op)
    requires op.ExecuteOp? && op.id in w.cases && w.cases[op.id].row.state == Executing
    requires !KillSwitch.IsHalted(w.switch.halts, w.cases[op.id].row.tenantId)
    requires (w.cases[op.id].row.deadline.None? || !op.late) && w.cases[op.id].row.capability in w.handlers
    ensures var t := Attempts(w.cases[op.id], 0, op.h, op.now, op.landed);
      Step(g, w, op) == Reply(w.(cases := w.cases[op.id := t.after]), t.answer)
  {
    hide KillSwitch.IsHalted, Attempts, Expire, Unhandled, SameIdentity;
  }

  // ---------------------------------------------------------------- what the log says of the attempts

  /** How many events tell of a failed attempt, or of the retry after it. */
  function Notes(log: seq<Event>, ofFailure: bool): nat {
    if log == [] then 0
    else
      var kind := log[|log| - 1].kind;
      Notes(log[..|log| - 1], ofFailure) +
      if (if ofFailure then kind.HandlerFailed? && kind.attempt.Some? else kind.RetryScheduled?) then 1 else 0
  }

  lemma NotesGrow(log: seq<Event>, e: Event, ofFailure: bool)
    ensures Notes(log + [e], ofFailure) ==
            Notes(log, ofFailure) +
            if (if ofFailure then e.kind.HandlerFailed? && e.kind.attempt.Some? else e.kind.RetryScheduled?) then 1 else 0
  {
    assert (log + [e])[..|log|] == log;
  }

  lemma EnterNotesNothing(c: Case, to: State, actor: string, now: string, ofFailure: bool)
    requires IsValidTransition(c.row.state, to)
    ensures Notes(Enter(c, to, actor, now).log, ofFailure) == Notes(c.log, ofFailure)
  {
    hide Notes;
    NotesGrow(c.log, Event(Entered(to), |c.log|, actor, false), ofFailure);
  }

  lemma FailClosedNotesNothing(c: Case, now: string, ofFailure: bool)
    ensures Notes(FailClosed(c, now).log, ofFailure) == Notes(c.log, ofFailure)
  {
    hide Notes;
    NotesGrow(c.log, Event(Entered(DeadLetter), |c.log|, SYSTEM, true), ofFailure);
  }

  lemma CountIsNoted(c: Case, attempt: nat, ofFailure: bool)
    ensures Notes(CountFailure(c, attempt).log, ofFailure) == Notes(c.log, ofFailure) + 1
  {
    hide Notes;
    var role := c.row.owningRole;
    var e := Event(HandlerFailed(Some(attempt)), |c.log|, role, false);
    NotesGrow(c.log, e, ofFailure);
    NotesGrow(c.log + [e], Event(RetryScheduled(attempt), |c.log| + 1, role, false), ofFailure);
  }

  lemma AcceptNotesNothing(c: Case, payload: map<string, Json>, now: string, ofFailure: bool)
    requires c.row.state == Executing
    ensures Notes(Accept(c, payload, now).log, ofFailure) == Notes(c.log, ofFailure)
  {
    hide Notes;
    var role := c.row.owningRole;
    var e := Event(HandlerSucceeded, |c.log|, role, false);
    NotesGrow(c.log, e, ofFailure);
    NotesGrow(c.log + [e], Event(Entered(Succeeded), |c.log| + 1, role, false), ofFailure);
  }

  lemma SucceedNotesNothing(c: Case, payload: map<string, Json>, now: string, landed: set<AuditPoint>, ofFailure: bool)
    requires c.row.state == Executing
    ensures Notes(Succeed(c, payload, now, landed).log, ofFailure) == Notes(c.log, ofFailure)
  {
    hide Notes, Accept, Enter, FailClosed;
    var done := Accept(c, payload, now);
    AcceptNotesNothing(c, payload, now, ofFailure);
    FailClosedNotesNothing(done, now, ofFailure);
    EnterNotesNothing(done, Closed, c.row.owningRole, now, ofFailure);
    FailClosedNotesNothing(Enter(done, Closed, c.row.owningRole, now), now, ofFailure);
  }

  lemma ExhaustNotesNothing(c: Case, text: string, now: string, landed: set<AuditPoint>, ofFailure: bool)
    requires c.row.state == Executing
    ensures Notes(Exhaust(c, text, now, landed).after.log, ofFailure) == Notes(c.log, ofFailure)
  {
    hide Notes, FailClosed, Strings.Strip;
    var role := c.row.owningRole;
    var failed := Enter(c, Failed, role, now);
    EnterNotesNothing(c, Failed, role, now, ofFailure);
    FailClosedNotesNothing(failed, now, ofFailure);
    EnterNotesNothing(WithError(failed, EngineError, Strings.Strip(text), now), DeadLetter, role, now, ofFailure);
  }

  lemma {:induction false} RedoIsNoted(c: Case, attempt: nat, h: Handler, ofFailure: bool)
    requires c.row.state == Succeeded && attempt <= c.row.maxRetries
    ensures var k := RedoStopsAt(h, attempt, c.row.maxRetries);
      Notes(Redo(c, attempt, h).after.log, ofFailure) ==
      Notes(c.log, ofFailure) + k + 1 - attempt - if h(k) == Unserialisable then 1 else 0
    decreases c.row.maxRetries - attempt
  {
    hide SameIdentity, CountFailure, Notes;
    var out := h(attempt);
    if out != Unserialisable {
      var given := WithOutput(Called(c, out), out);
      CountedRow(given, attempt);
      CountIsNoted(given, attempt, ofFailure);
      if attempt < c.row.maxRetries {
        RedoIsNoted(CountFailure(given, attempt), attempt + 1, h, ofFailure);
      } else {
        assert Redo(CountFailure(given, attempt), attempt + 1, h) ==
               Turn(CountFailure(given, attempt), Answer.Raised(WrongState));
      }
    }
  }

  /**
    * The log tells of every attempt the loop made that neither was accepted nor could not be written: one event for
    * the failure and one for the retry.
    */
  lemma {:induction false} LoopIsNotedExactly(c: Case, attempt: nat, h: Handler, now: string, landed: set<AuditPoint>,
                                              ofFailure: bool)
    requires c.row.state == Executing && attempt <= c.row.maxRetries
    ensures var k, end := StopsAt(h, attempt, c.row.maxRetries), EndsAt(h, attempt, c.row.maxRetries);
      Notes(Attempts(c, attempt, h, now, landed).after.log, ofFailure) ==
      Notes(c.log, ofFailure) + end + 1 - attempt - if h(k).Output? || h(end) == Unserialisable then 1 else 0
    decreases c.row.maxRetries - attempt
  {
    hide SameIdentity, CountFailure, Accept, Succeed, Exhaust, Redo, RedoStopsAt, ErrorText, Notes, Strings.Strip;
    var out := h(attempt);
    var called := Called(c, out);
    CountedRow(called, attempt);
    CountIsNoted(called, attempt, ofFailure);
    if out.Unprintable? {
      SpoiledLoopIsNoted(c, attempt, h, now, landed, ofFailure);
    } else if out.Output? {
      SucceedNotesNothing(called, out.payload, now, landed, ofFailure);
    } else if out != Unserialisable {
      if attempt < c.row.maxRetries {
        LoopIsNotedExactly(CountFailure(called, attempt), attempt + 1, h, now, landed, ofFailure);
      } else {
        ExhaustNotesNothing(CountFailure(called, attempt), ErrorText(out), now, landed, ofFailure);
      }
    }
  }

  lemma SpoiledLoopIsNoted(c: Case, attempt: nat, h: Handler, now: string, landed: set<AuditPoint>, ofFailure: bool)
    requires c.row.state == Executing && attempt <= c.row.maxRetries && h(attempt).Unprintable?
    ensures var end := EndsAt(h, attempt, c.row.maxRetries);
      Notes(Attempts(c, attempt, h, now, landed).after.log, ofFailure) ==
      Notes(c.log, ofFailure) + end + 1 - attempt - if h(end) == Unserialisable then 1 else 0
  {
    hide SameIdentity, CountFailure, Accept, Notes;
    var out := h(attempt);
    var done := Accept(Called(c, out), out.payload, now);
    var next := CountFailure(done, attempt);
    SpoiledRow(c, out, attempt, now);
    AcceptNotesNothing(Called(c, out), out.payload, now, ofFailure);
    CountIsNoted(done, attempt, ofFailure);
    if attempt < c.row.maxRetries {
      RedoIsNoted(next, attempt + 1, h, ofFailure);
    } else {
      assert Redo(next, attempt + 1, h) == Turn(next, Answer.Raised(WrongState));
    }
  }
}
