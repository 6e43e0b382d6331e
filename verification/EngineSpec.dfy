/** What the engine's calls do to the workflows and their events, as functions on values that the proofs build on. */
module EngineSpec {
  import opened Wrappers
  import opened WorkflowStates
  import opened Records
  import opened RoleCatalog
  import opened SegregationOfDuties
  import KillSwitch
  import Strings

  /** A workflow_* event names the state entered; workflow_created names proposed. */
  datatype EventType =
    | Entered(state: State)
    | ApprovalGranted
    | ApprovalRefused
    | HandlerSucceeded
    | HandlerFailed(attempt: Option<nat>)
    | RetryScheduled(after: nat)
    | TimedOut

  /** auditLost marks the payload reason audit_unavailable. */
  datatype Event = Event(kind: EventType, sequence: nat, actor: string, auditLost: bool)

  datatype HandlerOutcome =
    | Output(payload: map<string, Json>)
    | NotADict
    | Threw(text: string)
    // A dict that is stored, but raises when it is put into text for the audit record.
    | Unprintable(payload: map<string, Json>)
    // A dict the store cannot write as JSON.
    | Unserialisable

  datatype TaskRequest = TaskRequest(
    correlation: CorrelationContext,
    requestingActor: string,
    owningRole: string,
    capability: string,
    input: map<string, Json>,
    requiresApproval: bool,
    tenantId: Option<string>,
    hasTimeout: bool,
    cost: Option<int>,
    confidence: Option<real>,
    classification: string,
    engine: Option<string>)

  /**
    * The answers of the secret, classification, injection, authorisation, registry and tool checks. An
    * authorisation denial is recorded inside the guard of the authorisation itself.
    */
  datatype Screening =
    | Clear
    | Refused(code: ErrorCode, message: string)
    | Denied(unauthorized: bool, why: string)
    | Broke

  /** The audit writes whose loss fails the workflow closed. */
  datatype AuditPoint =
    | OnCreated
    | OnValidated
    | OnExecuting
    | OnGranted
    | OnDeclined
    | OnSucceeded
    | OnClosed
    | OnFailed

  /** A stored workflow with its replay, the handler calls made for it and the request it came from. */
  datatype Case = Case(row: Row, log: seq<Event>, calls: seq<HandlerOutcome>, request: TaskRequest)

  datatype Fault =
    | SwitchEngaged
    | UnknownWorkflow
    | WrongState
    | WrongCorrelation
    | NotEntitled
    | ChecksBroke
    | IdTaken
    | GateRaised
    | PayloadUnwritable
    | BlankError
    | BlankActor
    | BadCapability
    | BadHalt
    | AuditLost

  datatype Answer = Returned | Raised(why: Fault)

  datatype Turn = Turn(after: Case, answer: Answer)

  /** What the engine consults but does not change. */
  datatype Wiring = Wiring(
    gate: Proposal -> Verdict,
    resolve: (string, Option<string>) -> Resolution,
    sod: (string, string, string, string) -> Option<Violation>)

  function WiringOf(org: Organization, catalog: Catalog): Wiring {
    Wiring(p => EvaluateGate(org, p), (actor, fallback) => ResolveActorRole(org, actor, fallback),
           (actor, approver, owning, role) => ApprovalSodVerdict(catalog, actor, approver, owning, role, true))
  }

  /** The columns no call ever rewrites. */
  predicate SameIdentity(a: Case, b: Case) {
    && a.row.workflowId == b.row.workflowId
    && a.row.idempotencyKey == b.row.idempotencyKey
    && a.row.correlation == b.row.correlation
    && a.row.tenantId == b.row.tenantId
    && a.row.requestingActor == b.row.requestingActor
    && a.row.owningRole == b.row.owningRole
    && a.row.maxRetries == b.row.maxRetries
    && a.request == b.request
  }

  // ---------------------------------------------------------------- building blocks

  function Emit(c: Case, kind: EventType, actor: string): Case {
    c.(log := c.log + [Event(kind, |c.log|, actor, false)])
  }

  /** A checked transition, stored and announced. */
  function Enter(c: Case, to: State, actor: string, now: string): Case
    requires IsValidTransition(c.row.state, to)
  {
    Emit(c.(row := c.row.(state := to, updatedAt := now)), Entered(to), actor)
  }

  /** A checked transition, stored, whose own event follows one telling why. */
  function EnterAfter(c: Case, to: State, why: EventType, actor: string, now: string): Case
    requires IsValidTransition(c.row.state, to)
  {
    Emit(Emit(c.(row := c.row.(state := to, updatedAt := now)), why, actor), Entered(to), actor)
  }

  function ErrorFor(row: Row, code: ErrorCode, message: string, now: string): AgentError {
    AgentError("err_" + row.workflowId, row.correlation.correlationId, code, message, now, SCHEMA_VERSION, false, None)
  }

  function WithError(c: Case, code: ErrorCode, message: string, now: string): Case {
    c.(row := c.row.(error := Some(ErrorFor(c.row, code, message, now))))
  }

  /** A lost consequential audit write sends the workflow to the dead-letter queue from wherever it is. */
  function FailClosed(c: Case, now: string): Case {
    var d := WithError(c, DependencyUnavailable, AUDIT_LOST, now);
    d.(row := d.row.(state := DeadLetter),
       log := d.log + [Event(Entered(DeadLetter), |d.log|, SYSTEM, true)])
  }

  /** Go on if the audit write at p landed, fail closed otherwise. */
  function Audited(c: Case, p: AuditPoint, landed: set<AuditPoint>, now: string): Case {
    if p in landed then c else FailClosed(c, now)
  }

  const SYSTEM := "system"
  const AUDIT_LOST := "audit write failed; workflow failed closed"
  const LATE_BEFORE := "deadline exceeded before execution"
  const LATE_DURING := "deadline exceeded during execution"
  const GATE_REFUSED := "refused by the governance gate"
  const DECLINED := "approval denied: "
  const NO_HANDLER := "no handler for capability "

  /** now > deadline, asked only of a workflow that has one. */
  predicate IsPastDeadline(row: Row, late: bool) {
    row.deadline.Some? && late
  }

  // ---------------------------------------------------------------- submit

  function NewRow(req: TaskRequest, id: string, taskId: string, now: string): Row {
    Row(id, req.correlation, req.correlation.tenantId, req.correlation.clientId, req.requestingActor, req.owningRole,
        req.capability, Proposed, req.input, now, now, SCHEMA_VERSION, None, 0, DEFAULT_MAX_RETRIES, None,
        req.correlation.idempotencyKey, [], None, None, req.requiresApproval, Some(taskId))
  }

  function ProposalFor(w: Wiring, req: TaskRequest): Proposal {
    var resolved := w.resolve(req.requestingActor, Some(req.owningRole));
    Proposal(if resolved.Role? && resolved.id != "" then resolved.id else req.owningRole,
             req.cost, req.confidence, req.classification, req.engine, req.requiresApproval)
  }

  /** A refused request is stored, dead on arrival. */
  function Isolate(req: TaskRequest, row: Row, code: ErrorCode, message: string, now: string): (c: Case)
    ensures SameIdentity(Case(row, [], [], req), c)
  {
    var c := WithError(Case(row, [], [], req), code, message, now);
    Emit(c.(row := c.row.(state := DeadLetter)), Entered(DeadLetter), req.requestingActor)
  }

  /** What becomes of a validated workflow. */
  function PassGate(w: Wiring, c: Case, now: string, late: bool, landed: set<AuditPoint>): (t: Turn)
    requires c.row.state == Validated
    ensures SameIdentity(c, t.after)
  {
    var actor := c.row.requestingActor;
    match w.gate(ProposalFor(w, c.request))
    case Raised => Turn(c, Answer.Raised(GateRaised))
    case Decided(d) =>
      if !d.allowed then
        Turn(Enter(Enter(WithError(c, PolicyDenied, GATE_REFUSED, now), Failed, actor, now), DeadLetter, SYSTEM, now),
             Returned)
      else if d.requiresHumanApproval then
        Turn(Enter(c.(row := c.row.(requiresApproval := true)), AwaitingApproval, actor, now), Returned)
      else if IsPastDeadline(c.row, late) then
        Turn(EnterAfter(WithError(c, Timeout, LATE_BEFORE, now), DeadLetter, TimedOut, SYSTEM, now), Returned)
      else if c.row.requiresApproval then
        Turn(Enter(c, AwaitingApproval, actor, now), Returned)
      else
        Turn(Audited(Enter(c, Executing, actor, now), OnExecuting, landed, now), Returned)
  }

  /** The life of a new workflow up to the end of the submitting call. */
  function Launch(w: Wiring, req: TaskRequest, row: Row, now: string, late: bool, landed: set<AuditPoint>): (t: Turn)
    requires row.state == Proposed
    ensures SameIdentity(Case(row, [], [], req), t.after)
  {
    var created := Emit(Case(row, [], [], req), Entered(Proposed), req.requestingActor);
    if OnCreated !in landed then Turn(FailClosed(created, now), Returned)
    else
      var validated := Enter(created, Validated, req.requestingActor, now);
      if OnValidated !in landed then Turn(FailClosed(validated, now), Returned)
      else PassGate(w, validated, now, late, landed)
  }

  // ---------------------------------------------------------------- approve

  function Approve(w: Wiring, c: Case, a: Approval, now: string, landed: set<AuditPoint>): (t: Turn)
    ensures SameIdentity(c, t.after)
  {
    if c.row.state != AwaitingApproval then Turn(c, Answer.Raised(WrongState))
    else if a.correlationId != c.row.correlation.correlationId then Turn(c, Answer.Raised(WrongCorrelation))
    else if w.sod(c.row.requestingActor, a.approverActor, c.row.owningRole, a.approverRole).Some? then
      Turn(c, Answer.Raised(NotEntitled))
    else
      var signed := c.(row := c.row.(approval := Some(a)));
      match a.decision
      case Granted => Turn(Grant(signed, a.approverActor, now, landed), Returned)
      case Declined => Turn(Decline(signed, a, now, landed), Returned)
  }

  function Grant(c: Case, approver: string, now: string, landed: set<AuditPoint>): Case
    requires c.row.state == AwaitingApproval
  {
    var approved := EnterAfter(c, Approved, ApprovalGranted, approver, now);
    if OnGranted !in landed then FailClosed(approved, now)
    else Audited(Enter(approved, Executing, approver, now), OnExecuting, landed, now)
  }

  function Decline(c: Case, a: Approval, now: string, landed: set<AuditPoint>): Case
    requires c.row.state == AwaitingApproval
  {
    var refused := EnterAfter(WithError(c, ApprovalDenied, DECLINED + a.reason, now), DeadLetter, ApprovalRefused,
                              a.approverActor, now);
    Audited(refused, OnDeclined, landed, now)
  }

  // ---------------------------------------------------------------- execute

  /** The answer of the handler to each attempt of one call. */
  type Handler = nat -> HandlerOutcome

  function Expire(c: Case, now: string): Case
    requires c.row.state == Executing
  {
    EnterAfter(WithError(c, Timeout, LATE_DURING, now), DeadLetter, TimedOut, SYSTEM, now)
  }

  function Unhandled(c: Case, now: string): Case
    requires c.row.state == Executing
  {
    EnterAfter(WithError(c, NotFound, NO_HANDLER + c.row.capability, now), DeadLetter, HandlerFailed(None), SYSTEM, now)
  }

  /** The handler's dict is stored and announced. */
  function Accept(c: Case, payload: map<string, Json>, now: string): (after: Case)
    requires c.row.state == Executing
    ensures SameIdentity(c, after) && after.row.state == Succeeded
  {
    EnterAfter(c.(row := c.row.(output := Some(payload))), Succeeded, HandlerSucceeded, c.row.owningRole, now)
  }

  /** The handler's dict is stored, announced and closed. */
  function Succeed(c: Case, payload: map<string, Json>, now: string, landed: set<AuditPoint>): (after: Case)
    requires c.row.state == Executing
    ensures SameIdentity(c, after)
  {
    var done := Accept(c, payload, now);
    if OnSucceeded !in landed then FailClosed(done, now)
    else Audited(Enter(done, Closed, c.row.owningRole, now), OnClosed, landed, now)
  }

  /** A failed attempt is counted and announced; the workflow stays where it is. */
  function CountFailure(c: Case, attempt: nat): (after: Case)
    ensures SameIdentity(c, after) && after.row.state == c.row.state
  {
    var role := c.row.owningRole;
    var counted := c.(row := c.row.(retryCount := attempt + 1));
    Emit(Emit(counted, HandlerFailed(Some(attempt)), role), RetryScheduled(attempt), role)
  }

  /** Out of retries. A blank error text makes the error record itself raise, after failed was stored. */
  function Exhaust(c: Case, text: string, now: string, landed: set<AuditPoint>): (t: Turn)
    requires c.row.state == Executing
    ensures SameIdentity(c, t.after)
  {
    var role := c.row.owningRole;
    var failed := Enter(c, Failed, role, now);
    if OnFailed !in landed then Turn(FailClosed(failed, now), Returned)
    else if Strings.Strip(text) == "" then Turn(failed, Answer.Raised(BlankError))
    else Turn(Enter(WithError(failed, EngineError, Strings.Strip(text), now), DeadLetter, role, now), Returned)
  }

  const NOT_A_DICT := "handler must return dict"

  function ErrorText(out: HandlerOutcome): string {
    if out.Threw? then out.text else NOT_A_DICT
  }

  function Called(c: Case, out: HandlerOutcome): Case {
    c.(calls := c.calls + [out])
  }

  /** The output a handler's answer leaves on the record before anything can go wrong with it. */
  function WithOutput(c: Case, out: HandlerOutcome): Case {
    if out.Output? || out.Unprintable? then c.(row := c.row.(output := Some(out.payload))) else c
  }

  /** The rest of the loop after a stored success whose audit record could not be put together. */
  function Redo(c: Case, attempt: nat, h: Handler): (t: Turn)
    requires c.row.state == Succeeded && attempt <= c.row.maxRetries + 1
    ensures SameIdentity(c, t.after)
    decreases c.row.maxRetries + 1 - attempt
  {
    // There is no way from succeeded to failed.
    if attempt > c.row.maxRetries then Turn(c, Answer.Raised(WrongState))
    else
      var out := h(attempt);
      if out == Unserialisable then Turn(Called(c, out), Answer.Raised(PayloadUnwritable))
      else Redo(CountFailure(WithOutput(Called(c, out), out), attempt), attempt + 1, h)
  }

  /** The bounded retry loop, from the given attempt on. */
  function Attempts(c: Case, attempt: nat, h: Handler, now: string, landed: set<AuditPoint>): (t: Turn)
    requires c.row.state == Executing && attempt <= c.row.maxRetries
    ensures SameIdentity(c, t.after)
    decreases c.row.maxRetries - attempt
  {
    hide Accept, Succeed, CountFailure, Exhaust;
    var out := h(attempt);
    var called := Called(c, out);
    match out
    case Output(payload) => Turn(Succeed(called, payload, now, landed), Returned)
    case Unprintable(payload) => Redo(CountFailure(Accept(called, payload, now), attempt), attempt + 1, h)
    // Writing the row raises, and so does the handler of that error; nothing is stored.
    case Unserialisable => Turn(called, Answer.Raised(PayloadUnwritable))
    case _ =>
      var counted := CountFailure(called, attempt);
      if attempt == c.row.maxRetries then Exhaust(counted, ErrorText(out), now, landed)
      else Attempts(counted, attempt + 1, h, now, landed)
  }

  function Execute(c: Case, registered: bool, h: Handler, now: string, late: bool, landed: set<AuditPoint>): (t: Turn)
    ensures SameIdentity(c, t.after)
  {
    if c.row.state != Executing then Turn(c, Answer.Raised(WrongState))
    else if IsPastDeadline(c.row, late) then Turn(Expire(c, now), Returned)
    else if !registered then Turn(Unhandled(c, now), Returned)
    else Attempts(c, 0, h, now, landed)
  }

  // ---------------------------------------------------------------- cancel

  predicate IsCancellable(c: Case) {
    c.row.state !in {Closed, Cancelled, DeadLetter} && IsValidTransition(c.row.state, Cancelled)
  }

  function Cancel(c: Case, actor: string, now: string): (t: Turn)
    ensures SameIdentity(c, t.after)
  {
    if !IsCancellable(c) then Turn(c, Answer.Raised(WrongState))
    else if Strings.Strip(actor) == "" then
      // The row is stored before the event, and an event without an actor cannot be made.
      Turn(c.(row := c.row.(state := Cancelled, updatedAt := now)), Answer.Raised(BlankActor))
    else
      var name := Strings.Strip(actor);
      Turn(Enter(Enter(c, Cancelled, name, now), Closed, name, now), Returned)
  }

  // ---------------------------------------------------------------- the whole runtime

  datatype World = World(
    cases: map<string, Case>,
    byKey: map<string, string>,
    handlers: set<string>,
    switch: KillSwitch.Switch)

  datatype Reply = Reply(after: World, answer: Answer)

  datatype Op =
    | SubmitOp(req: TaskRequest, id: string, taskId: string, deadline: string, now: string, screening: Screening,
               late: bool, landed: set<AuditPoint>)
    | ApproveOp(id: string, approval: Approval, now: string, landed: set<AuditPoint>)
    | ExecuteOp(id: string, h: Handler, now: string, late: bool, landed: set<AuditPoint>)
    | CancelOp(id: string, actor: string, now: string)
    | RegisterOp(capability: string)
    | EngageOp(reason: string, actor: string, tenant: Option<string>, now: string, auditLands: bool)
    | ReleaseOp(actor: string, tenant: Option<string>, auditLands: bool)
    // Another writer's record on the shared audit trail.
    | TrailOp(entry: KillSwitch.TrailEntry)

  /** The checks raised, or their refusal cannot be recorded because it gives no reason. */
  predicate Breaks(s: Screening) {
    s.Broke? || (s.Refused? && Strings.Strip(s.message) == "")
  }

  /** A denial without a reason is caught where it was made, and recorded as the error it caused. */
  function RefusalCode(s: Screening): ErrorCode
    requires s.Refused? || s.Denied?
  {
    if s.Refused? then s.code
    else if s.unauthorized || Strings.Strip(s.why) == "" then Unauthorized
    else PolicyDenied
  }

  function RefusalText(s: Screening): string
    requires s.Refused? || s.Denied?
  {
    if s.Refused? then Strings.Strip(s.message)
    else if Strings.Strip(s.why) == "" then BLANK_MESSAGE
    else Strings.Strip(s.why)
  }

  const BLANK_MESSAGE := "error message must be a non-empty string"

  function TenantOfRequest(req: TaskRequest): Option<string> {
    if req.correlation.tenantId.Some? then req.correlation.tenantId else req.tenantId
  }

  function Keep(w: World, id: string, t: Turn): Reply {
    Reply(w.(cases := w.cases[id := t.after]), t.answer)
  }

  function Fresh(op: Op): Row
    requires op.SubmitOp?
  {
    var row := NewRow(op.req, op.id, op.taskId, op.now);
    if op.req.hasTimeout then row.(deadline := Some(op.deadline), updatedAt := op.deadline) else row
  }

  function Submit(g: Wiring, w: World, op: Op): Reply
    requires op.SubmitOp?
  {
    var key := op.req.correlation.idempotencyKey;
    if KillSwitch.IsHalted(w.switch.halts, TenantOfRequest(op.req)) then Reply(w, Answer.Raised(SwitchEngaged))
    else if key in w.byKey then Reply(w, Returned)
    else if Breaks(op.screening) then Reply(w, Answer.Raised(ChecksBroke))
    else if op.id in w.cases then Reply(w, Answer.Raised(IdTaken))
    else
      var t := if op.screening.Refused? || op.screening.Denied? then
          Turn(Isolate(op.req, NewRow(op.req, op.id, op.taskId, op.now), RefusalCode(op.screening),
                       RefusalText(op.screening), op.now),
               Returned)
        else
          Launch(g, op.req, Fresh(op), op.now, op.late, op.landed);
      Keep(w.(byKey := w.byKey[key := op.id]), op.id, t)
  }

  /** Approve and execute look the workflow up, then ask the kill switch about its stored tenant. */
  function Gated(w: World, id: string, t: Turn): Reply
    requires id in w.cases
  {
    if KillSwitch.IsHalted(w.switch.halts, w.cases[id].row.tenantId) then Reply(w, Answer.Raised(SwitchEngaged))
    else Keep(w, id, t)
  }

  function Step(g: Wiring, w: World, op: Op): Reply {
    match op
    case SubmitOp(_, _, _, _, _, _, _, _) => Submit(g, w, op)
    case ApproveOp(id, a, now, landed) =>
      if id !in w.cases then Reply(w, Answer.Raised(UnknownWorkflow))
      else Gated(w, id, Approve(g, w.cases[id], a, now, landed))
    case ExecuteOp(id, h, now, late, landed) =>
      if id !in w.cases then Reply(w, Answer.Raised(UnknownWorkflow))
      else
        var c := w.cases[id];
        Gated(w, id, Execute(c, c.row.capability in w.handlers, h, now, late, landed))
    case CancelOp(id, actor, now) =>
      if id !in w.cases then Reply(w, Answer.Raised(UnknownWorkflow))
      else Keep(w, id, Cancel(w.cases[id], actor, now))
    case RegisterOp(capability) =>
      if Strings.Strip(capability) == "" then Reply(w, Answer.Raised(BadCapability))
      else Reply(w.(handlers := w.handlers + {Strings.Strip(capability)}), Returned)
    case EngageOp(reason, actor, tenant, now, auditLands) =>
      Reply(w.(switch := KillSwitch.Engage(w.switch, reason, actor, tenant, now, auditLands)),
            if !KillSwitch.CanEngage(reason, actor, tenant) then Answer.Raised(BadHalt)
            else if auditLands then Returned else Answer.Raised(AuditLost))
    case ReleaseOp(actor, tenant, auditLands) =>
      Reply(w.(switch := KillSwitch.Release(w.switch, actor, tenant, auditLands)),
            if !KillSwitch.CanRelease(actor, tenant) then Answer.Raised(BadHalt)
            else if auditLands then Returned else Answer.Raised(AuditLost))
    case TrailOp(entry) => Reply(w.(switch := w.switch.(trail := w.switch.trail + [entry])), Returned)
  }

  /** The world after a whole run of calls, some of which may have raised. */
  function Run(g: Wiring, w: World, ops: seq<Op>): World
    decreases |ops|
  {
    if ops == [] then w else Run(g, Step(g, w, ops[0]).after, ops[1..])
  }

  const EMPTY_WORLD := World(map[], map[], {}, KillSwitch.Switch(map[], []))
}
