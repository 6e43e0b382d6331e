/** The data contracts a stored workflow is built from. */
module Records {
  import opened Wrappers
  import opened WorkflowStates

  /** JSON text is left abstract; this is the value it stands for. */
  datatype Json =
    | Null
    | Bool(flag: bool)
    | Number(number: int)
    | Text(text: string)
    | List(items: seq<Json>)
    | Object(fields: map<string, Json>)

  datatype EvidenceRef = EvidenceRef(
    evidenceId: string,
    kind: string,
    uri: string,
    timestamp: string,
    schemaVersion: string,
    hash: Option<string>,
    actor: Option<string>)

  datatype ErrorCode =
    | InvalidInput
    | MissingCorrelation
    | Unauthorized
    | NotFound
    | PolicyDenied
    | Refused
    | Timeout
    | EngineError
    | ApprovalDenied
    | Conflict
    | DependencyUnavailable

  datatype ApprovalDecision = Granted | Declined

  datatype AgentError = AgentError(
    errorId: string,
    correlationId: string,
    code: ErrorCode,
    message: string,
    timestamp: string,
    schemaVersion: string,
    retryable: bool,
    evidence: Option<EvidenceRef>)

  /** The control plane extends the base correlation with an actor id of its own. */
  datatype CorrelationKind = Base | Governed(actorId: Option<string>)

  datatype CorrelationContext = CorrelationContext(
    correlationId: string,
    idempotencyKey: string,
    tenantId: Option<string>,
    clientId: Option<string>,
    createdAt: string,
    schemaVersion: string,
    traceParent: Option<string>,
    kind: CorrelationKind)

  datatype Approval = Approval(
    approvalId: string,
    correlationId: string,
    subjectId: string,
    approverActor: string,
    approverRole: string,
    decision: ApprovalDecision,
    reason: string,
    timestamp: string,
    schemaVersion: string,
    evidence: Option<EvidenceRef>)

  /** One row of the workflows table. */
  datatype Row = Row(
    workflowId: string,
    correlation: CorrelationContext,
    tenantId: Option<string>,
    clientId: Option<string>,
    requestingActor: string,
    owningRole: string,
    capability: string,
    state: State,
    input: map<string, Json>,
    createdAt: string,
    updatedAt: string,
    schemaVersion: string,
    output: Option<map<string, Json>>,
    retryCount: nat,
    maxRetries: nat,
    deadline: Option<string>,
    idempotencyKey: string,
    evidence: seq<EvidenceRef>,
    error: Option<AgentError>,
    approval: Option<Approval>,
    requiresApproval: bool,
    taskId: Option<string>)

  const SCHEMA_VERSION := "1.0"
  const DEFAULT_MAX_RETRIES: nat := 3
}
