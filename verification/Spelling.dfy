/** The spelling that the stored dictionaries of the source use, keys and values alike, as one language of the codec. */
module Spelling {
  import opened Wrappers
  import opened Strings
  import opened WorkflowStates
  import opened Records
  import opened Codec

  function KeyOf(f: Field): string {
    match f
    case CorrelationId => "correlation_id"
    case IdempotencyKey => "idempotency_key"
    case TenantId => "tenant_id"
    case ClientId => "client_id"
    case CreatedAt => "created_at"
    case SchemaVersion => "schema_version"
    case TraceParent => "trace_parent"
    case ActorId => "actor_id"
    case EvidenceId => "evidence_id"
    case Type => "type"
    case Uri => "uri"
    case Timestamp => "timestamp"
    case HashText => "hash"
    case ActorName => "actor"
    case ErrorId => "error_id"
    case Code => "code"
    case Message => "message"
    case Retryable => "retryable"
    case EvidenceItem => "evidence_ref"
    case ApprovalId => "approval_id"
    case SubjectId => "subject_id"
    case ApproverActor => "approver_actor"
    case ApproverRoleId => "approver_role_id"
    case Decision => "decision"
    case Reason => "reason"
    case WorkflowId => "workflow_id"
    case Correlation => "correlation"
    case RequestingActor => "requesting_actor"
    case OwningRoleId => "owning_role_id"
    case Capability => "capability"
    case StateName => "state"
    case InputPayload => "input_payload"
    case OutputPayload => "output_payload"
    case UpdatedAt => "updated_at"
    case RetryCount => "retry_count"
    case MaxRetries => "max_retries"
    case Deadline => "deadline"
    case EvidenceRefs => "evidence_refs"
    case ErrorItem => "error"
    case ApprovalItem => "approval"
    case RequiresApproval => "requires_approval"
    case TaskId => "task_id"
  }

  function StateText(s: State): string {
    match s
    case Proposed => "proposed"
    case Validated => "validated"
    case AwaitingApproval => "awaiting_approval"
    case Approved => "approved"
    case Executing => "executing"
    case Succeeded => "succeeded"
    case Failed => "failed"
    case Compensated => "compensated"
    case Cancelled => "cancelled"
    case DeadLetter => "dead_letter"
    case Closed => "closed"
  }

  function CodeText(c: ErrorCode): string {
    match c
    case InvalidInput => "invalid_input"
    case MissingCorrelation => "missing_correlation"
    case Unauthorized => "unauthorized"
    case NotFound => "not_found"
    case PolicyDenied => "policy_denied"
    case Refused => "refused"
    case Timeout => "timeout"
    case EngineError => "engine_error"
    case ApprovalDenied => "approval_denied"
    case Conflict => "conflict"
    case DependencyUnavailable => "dependency_unavailable"
  }

  function DecisionText(d: ApprovalDecision): string {
    match d
    case Granted => "approved"
    case Declined => "denied"
  }

  /** The source's own spelling, with any two parsers of the library. */
  function SourceLanguage(isIso: string -> bool, parseInt: string -> Option<int>): Language {
    Language(KeyOf, StateText, CodeText, DecisionText, isIso, parseInt)
  }

  // ---------------------------------------------------------------- no two are spelled alike

  /** How long a text is, how it begins and what comes third: enough to tell these apart. */
  datatype Mark = Mark(length: nat, first: char, third: char)

  predicate IsMarked(s: string, m: Mark) {
    |s| == m.length && |s| >= 3 && s[0] == m.first && s[2] == m.third
  }

  function KeyMark(f: Field): Mark {
    match f
    case CorrelationId => Mark(14, 'c', 'r')
    case IdempotencyKey => Mark(15, 'i', 'e')
    case TenantId => Mark(9, 't', 'n')
    case ClientId => Mark(9, 'c', 'i')
    case CreatedAt => Mark(10, 'c', 'e')
    case SchemaVersion => Mark(14, 's', 'h')
    case TraceParent => Mark(12, 't', 'a')
    case ActorId => Mark(8, 'a', 't')
    case EvidenceId => Mark(11, 'e', 'i')
    case Type => Mark(4, 't', 'p')
    case Uri => Mark(3, 'u', 'i')
    case Timestamp => Mark(9, 't', 'm')
    case HashText => Mark(4, 'h', 's')
    case ActorName => Mark(5, 'a', 't')
    case ErrorId => Mark(8, 'e', 'r')
    case Code => Mark(4, 'c', 'd')
    case Message => Mark(7, 'm', 's')
    case Retryable => Mark(9, 'r', 't')
    case EvidenceItem => Mark(12, 'e', 'i')
    case ApprovalId => Mark(11, 'a', 'p')
    case SubjectId => Mark(10, 's', 'b')
    case ApproverActor => Mark(14, 'a', 'p')
    case ApproverRoleId => Mark(16, 'a', 'p')
    case Decision => Mark(8, 'd', 'c')
    case Reason => Mark(6, 'r', 'a')
    case WorkflowId => Mark(11, 'w', 'r')
    case Correlation => Mark(11, 'c', 'r')
    case RequestingActor => Mark(16, 'r', 'q')
    case OwningRoleId => Mark(14, 'o', 'n')
    case Capability => Mark(10, 'c', 'p')
    case StateName => Mark(5, 's', 'a')
    case InputPayload => Mark(13, 'i', 'p')
    case OutputPayload => Mark(14, 'o', 't')
    case UpdatedAt => Mark(10, 'u', 'd')
    case RetryCount => Mark(11, 'r', 't')
    case MaxRetries => Mark(11, 'm', 'x')
    case Deadline => Mark(8, 'd', 'a')
    case EvidenceRefs => Mark(13, 'e', 'i')
    case ErrorItem => Mark(5, 'e', 'r')
    case ApprovalItem => Mark(8, 'a', 'p')
    case RequiresApproval => Mark(17, 'r', 'q')
    case TaskId => Mark(7, 't', 's')
  }

  function StateMark(s: State): Mark {
    match s
    case Proposed => Mark(8, 'p', 'o')
    case Validated => Mark(9, 'v', 'l')
    case AwaitingApproval => Mark(17, 'a', 'a')
    case Approved => Mark(8, 'a', 'p')
    case Executing => Mark(9, 'e', 'e')
    case Succeeded => Mark(9, 's', 'c')
    case Failed => Mark(6, 'f', 'i')
    case Compensated => Mark(11, 'c', 'm')
    case Cancelled => Mark(9, 'c', 'n')
    case DeadLetter => Mark(11, 'd', 'a')
    case Closed => Mark(6, 'c', 'o')
  }

  function CodeMark(c: ErrorCode): Mark {
    match c
    case InvalidInput => Mark(13, 'i', 'v')
    case MissingCorrelation => Mark(19, 'm', 's')
    case Unauthorized => Mark(12, 'u', 'a')
    case NotFound => Mark(9, 'n', 't')
    case PolicyDenied => Mark(13, 'p', 'l')
    case Refused => Mark(7, 'r', 'f')
    case Timeout => Mark(7, 't', 'm')
    case EngineError => Mark(12, 'e', 'g')
    case ApprovalDenied => Mark(15, 'a', 'p')
    case Conflict => Mark(8, 'c', 'n')
    case DependencyUnavailable => Mark(22, 'd', 'p')
  }

  /** The keys only a workflow has. */
  predicate IsOwn(f: Field) {
    match f
    case WorkflowId | Correlation | RequestingActor | OwningRoleId | Capability | StateName | InputPayload |
         OutputPayload | UpdatedAt | RetryCount | MaxRetries | Deadline | EvidenceRefs | ErrorItem | ApprovalItem |
         RequiresApproval | TaskId => true
    case _ => false
  }

  lemma OwnKeyIsMarked(f: Field)
    requires IsOwn(f)
    ensures IsMarked(KeyOf(f), KeyMark(f))
  {
  }

  lemma PartKeyIsMarked(f: Field)
    requires !IsOwn(f)
    ensures IsMarked(KeyOf(f), KeyMark(f))
  {
  }

  lemma KeyIsMarked(f: Field)
    ensures IsMarked(KeyOf(f), KeyMark(f))
  {
    hide KeyOf, KeyMark, IsMarked, IsOwn;
    if IsOwn(f) {
      OwnKeyIsMarked(f);
    } else {
      PartKeyIsMarked(f);
    }
  }

  lemma OwnMarksDiffer(f: Field, g: Field)
    requires IsOwn(f) && IsOwn(g) && KeyMark(f) == KeyMark(g)
    ensures f == g
  {
  }

  lemma OwnAndPartMarksDiffer(f: Field, g: Field)
    requires IsOwn(f) && !IsOwn(g)
    ensures KeyMark(f) != KeyMark(g)
  {
  }

  lemma PartMarksDiffer(f: Field, g: Field)
    requires !IsOwn(f) && !IsOwn(g) && KeyMark(f) == KeyMark(g)
    ensures f == g
  {
  }

  lemma KeyMarksDiffer(f: Field, g: Field)
    requires KeyMark(f) == KeyMark(g)
    ensures f == g
  {
    hide KeyMark, IsOwn;
    if IsOwn(f) && IsOwn(g) {
      OwnMarksDiffer(f, g);
    } else if IsOwn(f) {
      OwnAndPartMarksDiffer(f, g);
    } else if IsOwn(g) {
      OwnAndPartMarksDiffer(g, f);
    } else {
      PartMarksDiffer(f, g);
    }
  }

  lemma StateIsMarked(s: State)
    ensures IsMarked(StateText(s), StateMark(s))
  {
  }

  lemma CodeIsMarked(c: ErrorCode)
    ensures IsMarked(CodeText(c), CodeMark(c))
  {
  }

  /** Nothing but small letters and underscores. */
  predicate IsSmall(s: string) {
    forall i :: 0 <= i < |s| ==> 'a' <= s[i] <= 'z' || s[i] == '_'
  }

  lemma SmallIsKept(s: string)
    requires s != "" && IsSmall(s)
    ensures IsClean(s) && Lower(s) == s
  {
    assert Lower(s) == s;
  }

  lemma CodeIsSmall(c: ErrorCode)
    ensures IsSmall(CodeText(c))
  {
    if c in {MissingCorrelation, PolicyDenied, ApprovalDenied, DependencyUnavailable} {
      LongCodeIsSmall(c);
    }
  }

  lemma LongCodeIsSmall(c: ErrorCode)
    requires c in {MissingCorrelation, PolicyDenied, ApprovalDenied, DependencyUnavailable}
    ensures IsSmall(CodeText(c))
  {
  }

  lemma SourceLanguageIsSound(isIso: string -> bool, parseInt: string -> Option<int>)
    ensures IsSound(SourceLanguage(isIso, parseInt))
  {
    var l := SourceLanguage(isIso, parseInt);
    hide KeyOf, StateText, CodeText, KeyMark, StateMark, CodeMark, Lower, IsClean, IsSmall;
    forall f, g | l.key(f) == l.key(g)
      ensures f == g
    {
      KeyIsMarked(f);
      KeyIsMarked(g);
      KeyMarksDiffer(f, g);
    }
    forall a, b | l.state(a) == l.state(b)
      ensures a == b
    {
      StateIsMarked(a);
      StateIsMarked(b);
      StateMarksDiffer(a, b);
    }
    forall a, b | l.code(a) == l.code(b)
      ensures a == b
    {
      CodeIsMarked(a);
      CodeIsMarked(b);
      CodeMarksDiffer(a, b);
    }
    forall c: ErrorCode
      ensures IsClean(l.code(c)) && Lower(l.code(c)) == l.code(c)
    {
      CodeIsMarked(c);
      CodeIsSmall(c);
      SmallIsKept(l.code(c));
    }
    forall d: ApprovalDecision
      ensures IsClean(l.decision(d)) && Lower(l.decision(d)) == l.decision(d)
    {
      DecisionIsSmall(d);
      SmallIsKept(l.decision(d));
    }
  }

  lemma StateMarksDiffer(a: State, b: State)
    requires StateMark(a) == StateMark(b)
    ensures a == b
  {
  }

  lemma CodeMarksDiffer(a: ErrorCode, b: ErrorCode)
    requires CodeMark(a) == CodeMark(b)
    ensures a == b
  {
  }

  lemma DecisionIsSmall(d: ApprovalDecision)
    ensures DecisionText(d) != "" && IsSmall(DecisionText(d))
  {
  }

  // ---------------------------------------------------------------- a workflow that is not read back

  const NOW := "2026-01-01T00:00:00+00:00"

  const SUBMITTED := Row(
    "w1", CorrelationContext("c1", "k1", Some("t1"), None, NOW, SCHEMA_VERSION, None, Governed(Some("watch"))),
    Some("t1"), None, "watch", "ops", "report", Proposed, map[], NOW, NOW, SCHEMA_VERSION, None, 0, DEFAULT_MAX_RETRIES,
    None, "k1", [], None, None, false, None)

  /** A workflow the constructor accepts, stored in the source's spelling, comes back without its actor id. */
  lemma ActorIdIsLost(isIso: string -> bool, parseInt: string -> Option<int>)
    requires isIso(NOW)
    ensures var l := SourceLanguage(isIso, parseInt);
      && IsSound(l) && IsWorkflow(l, SUBMITTED)
      && FromDict(l, ToDict(l, SUBMITTED)) ==
         Success(SUBMITTED.(correlation := SUBMITTED.correlation.(kind := Base)))
      && FromDict(l, ToDict(l, SUBMITTED)) != Success(SUBMITTED)
  {
    var l := SourceLanguage(isIso, parseInt);
    SourceLanguageIsSound(isIso, parseInt);
    assert SCHEMA_VERSION[1] == '.';
    assert IsVersion(SCHEMA_VERSION);
    hide IsSound, KeyOf, IsVersion, FromDict, ToDict;
    assert IsWorkflow(l, SUBMITTED);
    StoredWorkflowIsReadBack(l, SUBMITTED);
  }
}
