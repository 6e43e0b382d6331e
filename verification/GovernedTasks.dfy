/** What the governed task manager does to its two tables, as functions on their contents. */
module GovernedTasks {
  import opened Wrappers
  import opened WorkflowStates
  import opened RoleCatalog
  import opened Ledger
  import opened Records

  datatype Task = Task(
    taskId: string,
    correlationId: string,
    tenantId: Option<string>,
    clientId: Option<string>,
    actorId: string,
    actorRole: string,
    owningRole: string,
    capability: string,
    engine: Option<string>,
    state: State,
    cost: int,
    limit: Option<int>,
    classification: string,
    confidence: real,
    reason: Reason,
    remark: Remark,
    payload: map<string, Json>,
    error: Option<Reason>,
    createdAt: string,
    updatedAt: string)

  /** A submission: what the request carries, and the values its constructor has checked. */
  datatype Request = Request(
    correlationId: string,
    tenantId: Option<string>,
    clientId: Option<string>,
    actor: string,
    owningRole: string,
    capability: string,
    engine: Option<string>,
    cost: int,
    confidence: real,
    classification: string,
    requiresApproval: bool,
    input: map<string, Json>)

  /** The fresh id and clock reading of one ledger write. */
  datatype Stamp = Stamp(eventId: string, at: string)

  /** The workflow_tasks and audit_events tables. */
  datatype Book = Book(tasks: map<string, Task>, ledger: seq<Entry>)

  /** The tables a call leaves behind, and whether it returned or raised. */
  datatype Attempt = Attempt(book: Book, ok: bool)

  /** What the manager is wired to: the gate, the two catalog lookups, and the hash of the ledger. */
  datatype Office = Office(
    gate: Proposal -> Verdict,
    resolve: (string, Option<string>) -> Resolution,
    seat: string -> Option<RoleSpec>,
    hash: Hash)

  function OfficeOf(org: Organization, hash: Hash): Office {
    Office(p => EvaluateGate(org, p), (actor, fallback) => ResolveActorRole(org, actor, fallback),
           role => GetRole(org, role), hash)
  }

  function FactsOf(t: Task): Facts {
    Facts(t.capability, t.engine, t.cost, t.limit, t.classification, t.confidence)
  }

  /** What a stored task puts before the gate when its state is committed. */
  function ProposalOf(t: Task): Proposal {
    Proposal(t.actorRole, Some(t.cost), Some(t.confidence), t.classification, t.engine, false)
  }

  function AppendAudit(o: Office, book: Book, t: Task, actor: string, role: string, eventType: EventType,
                       outcome: Outcome, reason: Reason, remark: Remark, from: Option<State>, to: State,
                       stamp: Stamp): Book {
    book.(ledger := Appended(o.hash, book.ledger,
      Signed(stamp.eventId, stamp.at, t.correlationId, actor, role, eventType, outcome, reason, remark,
             t.taskId, from, to, FactsOf(t), "")))
  }

  /** One state write: who asks for it, why, and on whose authority. */
  datatype Write = Write(
    to: State,
    actor: string,
    role: string,
    reason: Reason,
    remark: Remark,
    error: Option<Reason>,
    humanApproved: bool,
    stamp: Stamp)

  /** The gate is asked again before work starts without a human token. */
  predicate IsReexamined(w: Write) {
    w.to == Executing && !w.humanApproved
  }

  predicate IsHeldBack(o: Office, t: Task, w: Write) {
    IsReexamined(w) &&
    var v := o.gate(ProposalOf(t));
    v.Decided? && v.decision.requiresHumanApproval
  }

  /** The state actually written, which may not be the one asked for. */
  function Target(o: Office, t: Task, w: Write): State {
    if IsHeldBack(o, t, w) then AwaitingApproval else w.to
  }

  function ReasonWritten(o: Office, t: Task, w: Write): Reason {
    if IsHeldBack(o, t, w) then GateSaid(o.gate(ProposalOf(t)).decision.code) else w.reason
  }

  function RemarkWritten(o: Office, t: Task, w: Write): Remark {
    if IsHeldBack(o, t, w) then GateRemark(o.gate(ProposalOf(t)).decision.code) else w.remark
  }

  function OutcomeOf(to: State): Outcome {
    if to == DeadLetter || to == Failed then Denied else if to == AwaitingApproval then Held else Allowed
  }

  /** The task record with the write applied to its mutable columns. */
  function Rewritten(o: Office, t: Task, w: Write): Task {
    var reason, remark := ReasonWritten(o, t, w), RemarkWritten(o, t, w);
    t.(state := Target(o, t, w), updatedAt := w.stamp.at,
       reason := if reason != NoReason then reason else t.reason,
       remark := if remark != Silent then remark else t.remark,
       error := if w.error.Some? then w.error else t.error)
  }

  /** The row of a task with its mutable columns taken from r; whatever the row said before is lost. */
  function Stored(book: Book, r: Task): Task
    requires r.taskId in book.tasks
  {
    book.tasks[r.taskId].(state := r.state, updatedAt := r.updatedAt, reason := r.reason, remark := r.remark,
                          payload := r.payload, error := r.error)
  }

  predicate CommitAllowed(o: Office, book: Book, t: Task, w: Write) {
    && IsValidTransition(t.state, w.to)
    && (IsReexamined(w) ==> o.gate(ProposalOf(t)).Decided?)
    && t.taskId in book.tasks
  }

  /** The single choke point for state writes; t is the record as the caller holds it. */
  function CommitState(o: Office, book: Book, t: Task, w: Write): Attempt {
    if !CommitAllowed(o, book, t, w) then Attempt(book, false)
    else
      var r := Rewritten(o, t, w);
      Attempt(AppendAudit(o, book.(tasks := book.tasks[t.taskId := Stored(book, r)]), r, w.actor, w.role,
                          TaskMoved(r.state), OutcomeOf(r.state), ReasonWritten(o, t, w), RemarkWritten(o, t, w),
                          Some(t.state), r.state, w.stamp), true)
  }

  /** A further write to the task the previous one left behind. */
  function Then(o: Office, before: Attempt, id: string, w: Write): Attempt {
    if !before.ok || id !in before.book.tasks then before.(ok := false)
    else CommitState(o, before.book, before.book.tasks[id], w)
  }

  // ---------------------------------------------------------------- operations

  function EngineAsked(req: Request, override: Option<string>): Option<string> {
    if override.Some? && override.value != "" then override else req.engine
  }

  /** None stands for the error raised on a blank engine name. */
  function EngineOf(req: Request, override: Option<string>): Option<Option<string>> {
    match EngineAsked(req, override)
    case None => Some(None)
    case Some("") => Some(Some(""))
    case Some(e) =>
      var name := NormalizeEngine(e);
      if name.None? then None else Some(name)
  }

  function RoleOf(o: Office, req: Request): string {
    match o.resolve(req.actor, Some(req.owningRole))
    case Role(id) => if id != "" then id else UNRESOLVED
    case _ => UNRESOLVED
  }

  function ProposalFor(o: Office, req: Request, engine: Option<string>): Proposal {
    Proposal(RoleOf(o, req), Some(req.cost), Some(req.confidence), req.classification, engine, req.requiresApproval)
  }

  function NewTask(o: Office, req: Request, engine: Option<string>, d: Decision, id: string, at: string): Task {
    Task(id, req.correlationId, req.tenantId, req.clientId, req.actor, RoleOf(o, req), req.owningRole, req.capability,
         engine, Proposed, req.cost, d.limit, req.classification, req.confidence, GateSaid(d.code), GateRemark(d.code),
         req.input, None, at, at)
  }

  /** The row inserted and the first ledger entry written, before any state is committed. */
  function Propose(o: Office, book: Book, t: Task, d: Decision, stamp: Stamp): Book {
    AppendAudit(o, book.(tasks := book.tasks[t.taskId := t]), t, t.actorId, t.actorRole, TaskProposed,
                if !d.allowed then Denied else if d.requiresHumanApproval then Held else Allowed,
                GateSaid(d.code), GateRemark(d.code), None, Proposed, stamp)
  }

  function Plain(to: State, actor: string, role: string, stamp: Stamp): Write {
    Write(to, actor, role, NoReason, Silent, None, false, stamp)
  }

  function ByGate(to: State, actor: string, role: string, d: Decision, error: Option<Reason>, stamp: Stamp): Write {
    Write(to, actor, role, GateSaid(d.code), GateRemark(d.code), error, false, stamp)
  }

  /** The two state writes that settle a proposed task the way the gate decided. */
  function Settle(o: Office, proposed: Book, t: Task, d: Decision, first: Stamp, second: Stamp): Attempt {
    var start := Attempt(proposed, true);
    if d.allowed then
      Then(o, Then(o, start, t.taskId, Plain(Validated, t.actorId, t.actorRole, first)),
           t.taskId, ByGate(d.state, t.actorId, t.actorRole, d, None, second))
    else
      var error := Some(GateSaid(d.code));
      Then(o, Then(o, start, t.taskId, ByGate(Failed, t.actorId, t.actorRole, d, error, first)),
           t.taskId, ByGate(DeadLetter, "system", t.actorRole, d, error, second))
  }

  function Submit(o: Office, book: Book, req: Request, override: Option<string>, id: string,
                  stamps: (Stamp, Stamp, Stamp)): Attempt {
    if EngineOf(req, override).None? then Attempt(book, false)
    else
      var engine := EngineOf(req, override).value;
      match o.gate(ProposalFor(o, req, engine))
      case Raised => Attempt(book, false)
      case Decided(d) =>
        if id in book.tasks then Attempt(book, false)
        else
          var t := NewTask(o, req, engine, d, id, stamps.0.at);
          Settle(o, Propose(o, book, t, d, stamps.0), t, d, stamps.1, stamps.2)
  }

  predicate LimitCovers(spec: RoleSpec, cost: int) {
    spec.limit.None? || cost <= spec.limit.value
  }

  /** The approver is a known seat whose own limit covers the cost. */
  predicate MayCover(o: Office, approver: string, cost: int) {
    var r := o.resolve(approver, None);
    r.Role? && o.seat(r.id).Some? && LimitCovers(o.seat(r.id).value, cost)
  }

  predicate MayApprove(o: Office, t: Task, approver: string) {
    && t.state == AwaitingApproval
    && approver != t.actorId
    && MayCover(o, approver, t.cost)
  }

  function Said(note: string, otherwise: Remark): Remark {
    if note != "" then Note(note) else otherwise
  }

  /** A write made on a human's authority. */
  function Token(to: State, approver: string, role: string, remark: Remark, humanApproved: bool, stamp: Stamp): Write {
    Write(to, approver, role, HumanApproved, remark, None, humanApproved, stamp)
  }

  /** The two state writes of an approval: approved, then executing on the human's token. */
  function ApprovalWrites(approver: string, role: string, note: string, stamps: (Stamp, Stamp)): (Write, Write) {
    (Token(WorkflowStates.Approved, approver, role, Said(note, ApprovedBy(approver, role)), false, stamps.0),
     Token(Executing, approver, role, Said(note, ReleasedBy(approver)), true, stamps.1))
  }

  function Release(o: Office, book: Book, id: string, approver: string, role: string, note: string,
                   stamps: (Stamp, Stamp)): Attempt {
    var writes := ApprovalWrites(approver, role, note, stamps);
    Then(o, Then(o, Attempt(book, true), id, writes.0), id, writes.1)
  }

  function Approve(o: Office, book: Book, id: string, approver: string, note: string,
                   stamps: (Stamp, Stamp)): Attempt {
    if id !in book.tasks || !MayApprove(o, book.tasks[id], approver) then Attempt(book, false)
    else Release(o, book, id, approver, o.resolve(approver, None).id, note, stamps)
  }

  function Reject(o: Office, book: Book, id: string, approver: string, note: string, stamp: Stamp): Attempt {
    var resolved := o.resolve(approver, None);
    if id !in book.tasks || book.tasks[id].state != AwaitingApproval || resolved.Blank? then Attempt(book, false)
    else
      Then(o, Attempt(book, true), id,
           Write(Cancelled, approver, if resolved.Role? && resolved.id != "" then resolved.id else UNRESOLVED,
                 HumanRejected, Said(note, RejectedBy(approver)), None, false, stamp))
  }

  function Complete(o: Office, book: Book, id: string, to: State, actor: string, output: Option<map<string, Json>>,
                    error: Option<Reason>, stamp: Stamp): Attempt {
    if (to != Succeeded && to != Failed) || id !in book.tasks then Attempt(book, false)
    else
      var t := book.tasks[id];
      var held := if output.None? then t else t.(payload := t.payload["output" := Object(output.value)]);
      CommitState(o, book, held,
                  Write(to, actor, t.actorRole, if to == Succeeded then EngineSucceeded else EngineFailed,
                        TaskIs(to), error, false, stamp))
  }

  datatype Op =
    | SubmitOp(req: Request, override: Option<string>, id: string, stamps: (Stamp, Stamp, Stamp))
    | ApproveOp(id: string, approver: string, note: string, pair: (Stamp, Stamp))
    | RejectOp(id: string, approver: string, note: string, stamp: Stamp)
    | CompleteOp(id: string, to: State, actor: string, output: Option<map<string, Json>>, error: Option<Reason>,
                 stamp: Stamp)

  function Step(o: Office, book: Book, op: Op): Attempt {
    match op
    case SubmitOp(req, override, id, stamps) => Submit(o, book, req, override, id, stamps)
    case ApproveOp(id, approver, note, pair) => Approve(o, book, id, approver, note, pair)
    case RejectOp(id, approver, note, stamp) => Reject(o, book, id, approver, note, stamp)
    case CompleteOp(id, to, actor, output, error, stamp) => Complete(o, book, id, to, actor, output, error, stamp)
  }

  /** The tables after a whole run of calls, some of which may have raised. */
  function Run(o: Office, book: Book, ops: seq<Op>): Book
    decreases |ops|
  {
    if ops == [] then book else Run(o, Step(o, book, ops[0]).book, ops[1..])
  }

  const EMPTY_BOOK := Book(map[], [])
}
