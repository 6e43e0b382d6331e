/** Writing a workflow to the dictionary it is stored as, and reading it back through the checks of its contracts. */
module Codec {
  import opened Wrappers
  import opened Strings
  import opened WorkflowStates
  import opened Records

  /** The keys of the stored dictionaries. */
  datatype Field =
    | CorrelationId | IdempotencyKey | TenantId | ClientId | CreatedAt | SchemaVersion | TraceParent | ActorId
    | EvidenceId | Type | Uri | Timestamp | HashText | ActorName
    | ErrorId | Code | Message | Retryable | EvidenceItem
    | ApprovalId | SubjectId | ApproverActor | ApproverRoleId | Decision | Reason
    | WorkflowId | Correlation | RequestingActor | OwningRoleId | Capability | StateName | InputPayload | OutputPayload
    | UpdatedAt | RetryCount | MaxRetries | Deadline | EvidenceRefs | ErrorItem | ApprovalItem | RequiresApproval | TaskId

  /** What a dictionary holds under each key. */
  type Dict = Field -> Option<Json>

  /** How keys and enumerated values are spelled, and the two library parsers. */
  datatype Language = Language(
    key: Field -> string,
    state: State -> string,
    code: ErrorCode -> string,
    decision: ApprovalDecision -> string,
    isIso: string -> bool,
    parseInt: string -> Option<int>)

  ghost predicate KeysDiffer(l: Language) {
    forall f, g :: l.key(f) == l.key(g) ==> f == g
  }

  /** Different values are spelled differently, and codes and decisions are in the form their validation leaves. */
  ghost predicate NamesDiffer(l: Language) {
    && (forall a, b :: l.state(a) == l.state(b) ==> a == b)
    && (forall a, b :: l.code(a) == l.code(b) ==> a == b)
    && (forall a, b :: l.decision(a) == l.decision(b) ==> a == b)
    && (forall c :: IsClean(l.code(c)) && Lower(l.code(c)) == l.code(c))
    && (forall d :: IsClean(l.decision(d)) && Lower(l.decision(d)) == l.decision(d))
  }

  ghost predicate IsSound(l: Language) {
    KeysDiffer(l) && NamesDiffer(l)
  }

  /** The form in which a required string is kept. */
  predicate IsClean(s: string) {
    s != "" && IsStripped(s)
  }

  datatype Invalid = Invalid(field: Field)

  // ---------------------------------------------------------------- dictionaries

  function Present(d: Dict): set<Field> {
    set f: Field | d(f).Some?
  }

  function Written(l: Language, d: Dict): map<string, Json>
    requires IsSound(l)
  {
    map f | f in Present(d) :: l.key(f) := d(f).value
  }

  /** What a dictionary says under a known key; other keys are ignored. */
  function Entry(l: Language, o: map<string, Json>, f: Field): Option<Json> {
    if l.key(f) in o then Some(o[l.key(f)]) else None
  }

  /** A written dictionary says what was put into it, and nothing else. */
  lemma WrittenIsRead(l: Language, d: Dict, f: Field)
    requires IsSound(l)
    ensures Entry(l, Written(l, d), f) == d(f)
  {
    hide NamesDiffer;
    var o := Written(l, d);
    if f in Present(d) {
      assert l.key(f) in o;
    }
    if l.key(f) in o {
      var g: Field :| g in Present(d) && l.key(g) == l.key(f);
    }
  }

  function Get(l: Language, o: map<string, Json>, f: Field, default: Json): Json {
    Entry(l, o, f).GetOr(default)
  }

  /** A key that is only written when there is a value. */
  function Maybe(value: Option<string>): Option<Json> {
    if value.Some? then Some(Text(value.value)) else None
  }

  // ---------------------------------------------------------------- validation

  function RequireText(f: Field, j: Json): Result<string, Invalid> {
    if j.Text? && Strip(j.text) != "" then Success(Strip(j.text)) else Failure(Invalid(f))
  }

  function OptionalText(f: Field, j: Json): Result<Option<string>, Invalid> {
    if j.Null? then Success(None)
    else
      var s :- RequireText(f, j);
      Success(Some(s))
  }

  function RequireIso(l: Language, f: Field, j: Json): Result<string, Invalid> {
    var s :- RequireText(f, j);
    if l.isIso(s) then Success(s) else Failure(Invalid(f))
  }

  function OptionalIso(l: Language, f: Field, j: Json): Result<Option<string>, Invalid> {
    if j.Null? then Success(None)
    else
      var s :- RequireIso(l, f, j);
      Success(Some(s))
  }

  predicate IsDigit(c: char) {
    '0' <= c <= '9'
  }

  /** Digits, a dot, digits. */
  predicate IsVersion(s: string) {
    exists k :: 0 < k < |s| - 1 && s[k] == '.' && forall i :: 0 <= i < |s| && i != k ==> IsDigit(s[i])
  }

  function RequireVersion(j: Json): Result<string, Invalid> {
    var s :- RequireText(SchemaVersion, j);
    if IsVersion(s) then Success(s) else Failure(Invalid(SchemaVersion))
  }

  function RequireObject(f: Field, j: Json): Result<map<string, Json>, Invalid> {
    if j.Object? then Success(j.fields) else Failure(Invalid(f))
  }

  /** Truth as the language has it. */
  predicate IsTruthy(j: Json) {
    match j
    case Null => false
    case Bool(b) => b
    case Number(n) => n != 0
    case Text(s) => s != ""
    case List(items) => items != []
    case Object(fields) => fields != map[]
  }

  /** A count that converts to a non-negative integer. */
  function RequireCount(l: Language, f: Field, j: Json): Result<nat, Invalid> {
    var n: Option<int> :=
      match j
      case Number(n) => Some(n)
      case Bool(b) => Some(if b then 1 else 0)
      case Text(s) => l.parseInt(s)
      case _ => None;
    if n.Some? && n.value >= 0 then Success(n.value) else Failure(Invalid(f))
  }

  /** The first listed value spelled so. */
  function Named<T>(spell: T -> string, all: seq<T>, text: string): Option<T> {
    if all == [] then None else if spell(all[0]) == text then Some(all[0]) else Named(spell, all[1..], text)
  }

  lemma {:induction false} NamedIsFound<T(!new)>(spell: T -> string, all: seq<T>, x: T)
    requires x in all && forall a, b :: spell(a) == spell(b) ==> a == b
    ensures Named(spell, all, spell(x)) == Some(x)
  {
    if all[0] != x {
      NamedIsFound(spell, all[1..], x);
    }
  }

  const ALL_STATES: seq<State> := [Proposed, Validated, AwaitingApproval, Approved, Executing, Succeeded, Failed,
                                   Compensated, Cancelled, DeadLetter, Closed]

  const ALL_CODES: seq<ErrorCode> := [InvalidInput, MissingCorrelation, Unauthorized, NotFound, PolicyDenied, Refused,
                                      Timeout, EngineError, ApprovalDenied, Conflict, DependencyUnavailable]

  const ALL_DECISIONS: seq<ApprovalDecision> := [Granted, Declined]

  /** A state is compared as it stands. */
  function StateNamed(l: Language, j: Json): Result<State, Invalid> {
    var s := if j.Text? then Named(l.state, ALL_STATES, j.text) else None;
    if s.Some? then Success(s.value) else Failure(Invalid(StateName))
  }

  /** Codes and decisions are compared in lower case. */
  function CodeNamed(l: Language, j: Json): Result<ErrorCode, Invalid> {
    var s :- RequireText(Code, j);
    var c := Named(l.code, ALL_CODES, Lower(s));
    if c.Some? then Success(c.value) else Failure(Invalid(Code))
  }

  function DecisionNamed(l: Language, j: Json): Result<ApprovalDecision, Invalid> {
    var s :- RequireText(Decision, j);
    var d := Named(l.decision, ALL_DECISIONS, Lower(s));
    if d.Some? then Success(d.value) else Failure(Invalid(Decision))
  }

  /** Validation leaves what it has accepted alone. */
  lemma CleanIsKept(f: Field, s: string)
    requires IsClean(s)
    ensures RequireText(f, Text(s)) == Success(s)
  {
    StripIsStripped(s);
  }

  lemma AcceptedIsClean(f: Field, j: Json)
    requires RequireText(f, j).Success?
    ensures IsClean(RequireText(f, j).value)
  {
    StripIsStripped(j.text);
  }

  lemma StateIsNamed(l: Language, s: State)
    requires IsSound(l)
    ensures StateNamed(l, Text(l.state(s))) == Success(s)
  {
    assert s in ALL_STATES;
    hide Named;
    NamedIsFound(l.state, ALL_STATES, s);
  }

  lemma CodeIsNamed(l: Language, c: ErrorCode)
    requires IsSound(l)
    ensures CodeNamed(l, Text(l.code(c))) == Success(c)
  {
    assert c in ALL_CODES;
    assert IsClean(l.code(c)) && Lower(l.code(c)) == l.code(c);
    CleanIsKept(Code, l.code(c));
    hide Named, RequireText, Lower, IsClean;
    NamedIsFound(l.code, ALL_CODES, c);
  }

  lemma DecisionIsNamed(l: Language, d: ApprovalDecision)
    requires IsSound(l)
    ensures DecisionNamed(l, Text(l.decision(d))) == Success(d)
  {
    assert d in ALL_DECISIONS;
    assert IsClean(l.decision(d)) && Lower(l.decision(d)) == l.decision(d);
    CleanIsKept(Decision, l.decision(d));
    hide Named, RequireText, Lower, IsClean;
    NamedIsFound(l.decision, ALL_DECISIONS, d);
  }

  // ---------------------------------------------------------------- evidence

  predicate IsText(o: Option<string>) {
    o.Some? ==> IsClean(o.value)
  }

  predicate IsTime(l: Language, s: string) {
    IsClean(s) && l.isIso(s)
  }

  predicate IsVersionText(s: string) {
    IsClean(s) && IsVersion(s)
  }

  /** A reference the constructor has accepted. */
  predicate IsEvidence(l: Language, e: EvidenceRef) {
    && IsClean(e.evidenceId) && IsClean(e.kind) && IsClean(e.uri)
    && IsTime(l, e.timestamp) && IsVersionText(e.schemaVersion) && IsText(e.hash) && IsText(e.actor)
  }

  function EvidenceField(e: EvidenceRef, f: Field): Option<Json> {
    match f
    case EvidenceId => Some(Text(e.evidenceId))
    case Type => Some(Text(e.kind))
    case Uri => Some(Text(e.uri))
    case Timestamp => Some(Text(e.timestamp))
    case SchemaVersion => Some(Text(e.schemaVersion))
    case HashText => Maybe(e.hash)
    case ActorName => Maybe(e.actor)
    case _ => None
  }

  function EvidenceFields(e: EvidenceRef): Dict {
    (f: Field) => EvidenceField(e, f)
  }

  /** The constructor, on whatever it is given. */
  function NewEvidence(l: Language, id: Json, kind: Json, uri: Json, timestamp: Json, version: Json, hash: Json,
                       actor: Json): Result<EvidenceRef, Invalid> {
    var id :- RequireText(EvidenceId, id);
    var kind :- RequireText(Type, kind);
    var uri :- RequireText(Uri, uri);
    var timestamp :- RequireIso(l, Timestamp, timestamp);
    var version :- RequireVersion(version);
    var hash :- OptionalText(HashText, hash);
    var actor :- OptionalText(ActorName, actor);
    Success(EvidenceRef(id, kind, uri, timestamp, version, hash, actor))
  }

  function EvidenceFrom(l: Language, o: map<string, Json>): Result<EvidenceRef, Invalid> {
    NewEvidence(l, Get(l, o, EvidenceId, Text("")), Get(l, o, Type, Text("")), Get(l, o, Uri, Text("")),
                Get(l, o, Timestamp, Text("")), Get(l, o, SchemaVersion, Text(SCHEMA_VERSION)), Get(l, o, HashText, Null),
                Get(l, o, ActorName, Null))
  }

  function JsonOf(o: Option<string>): Json {
    if o.Some? then Text(o.value) else Null
  }

  lemma OptionalTextIsKept(f: Field, o: Option<string>)
    requires IsText(o)
    ensures OptionalText(f, JsonOf(o)) == Success(o)
  {
    if o.Some? {
      CleanIsKept(f, o.value);
    }
    hide RequireText;
  }

  lemma RequiredTextsAreKept(l: Language)
    ensures forall f, s :: IsClean(s) ==> RequireText(f, Text(s)) == Success(s)
    ensures forall f, s :: IsTime(l, s) ==> RequireIso(l, f, Text(s)) == Success(s)
    ensures forall s :: IsVersionText(s) ==> RequireVersion(Text(s)) == Success(s)
    ensures forall f, o :: IsText(o) ==> OptionalText(f, JsonOf(o)) == Success(o)
  {
    forall f, s | IsClean(s)
      ensures RequireText(f, Text(s)) == Success(s)
    {
      CleanIsKept(f, s);
    }
    forall f, o | IsText(o)
      ensures OptionalText(f, JsonOf(o)) == Success(o)
    {
      OptionalTextIsKept(f, o);
    }
    hide RequireText, IsClean, IsVersion;
    forall s | IsVersionText(s)
      ensures RequireVersion(Text(s)) == Success(s)
    {
      assert RequireText(SchemaVersion, Text(s)) == Success(s);
    }
  }

  lemma NewEvidenceKeeps(l: Language, e: EvidenceRef)
    requires IsEvidence(l, e)
    ensures NewEvidence(l, Text(e.evidenceId), Text(e.kind), Text(e.uri), Text(e.timestamp), Text(e.schemaVersion),
                        JsonOf(e.hash), JsonOf(e.actor)) == Success(e)
  {
    RequiredTextsAreKept(l);
    hide RequireText, RequireIso, RequireVersion, OptionalText, IsClean, IsTime, IsVersionText, IsText;
  }

  // ---------------------------------------------------------------- errors

  /** A dictionary under a key becomes a record; anything else becomes nothing. */
  function EvidenceItemFrom(l: Language, j: Json): Result<Option<EvidenceRef>, Invalid> {
    if !j.Object? then Success(None)
    else
      var e :- EvidenceFrom(l, j.fields);
      Success(Some(e))
  }

  function MaybeEvidence(l: Language, e: Option<EvidenceRef>): Option<Json>
    requires IsSound(l)
  {
    if e.Some? then Some(Object(Written(l, EvidenceFields(e.value)))) else None
  }

  predicate IsError(l: Language, e: AgentError) {
    && IsClean(e.errorId) && IsClean(e.correlationId) && IsClean(e.message)
    && IsTime(l, e.timestamp) && IsVersionText(e.schemaVersion) && (e.evidence.Some? ==> IsEvidence(l, e.evidence.value))
  }

  function ErrorField(l: Language, e: AgentError, f: Field): Option<Json>
    requires IsSound(l)
  {
    match f
    case ErrorId => Some(Text(e.errorId))
    case CorrelationId => Some(Text(e.correlationId))
    case Code => Some(Text(l.code(e.code)))
    case Message => Some(Text(e.message))
    case Timestamp => Some(Text(e.timestamp))
    case SchemaVersion => Some(Text(e.schemaVersion))
    case Retryable => Some(Bool(e.retryable))
    case EvidenceItem => MaybeEvidence(l, e.evidence)
    case _ => None
  }

  function ErrorFields(l: Language, e: AgentError): Dict
    requires IsSound(l)
  {
    (f: Field) => ErrorField(l, e, f)
  }

  function NewError(l: Language, id: Json, correlationId: Json, code: Json, message: Json, timestamp: Json,
                    version: Json, retryable: bool, evidence: Option<EvidenceRef>): Result<AgentError, Invalid> {
    var id :- RequireText(ErrorId, id);
    var correlationId :- RequireText(CorrelationId, correlationId);
    var code :- CodeNamed(l, code);
    var message :- RequireText(Message, message);
    var timestamp :- RequireIso(l, Timestamp, timestamp);
    var version :- RequireVersion(version);
    Success(AgentError(id, correlationId, code, message, timestamp, version, retryable, evidence))
  }

  function ErrorFrom(l: Language, o: map<string, Json>): Result<AgentError, Invalid> {
    var evidence :- EvidenceItemFrom(l, Get(l, o, EvidenceItem, Null));
    NewError(l, Get(l, o, ErrorId, Text("")), Get(l, o, CorrelationId, Text("")), Get(l, o, Code, Text("")),
             Get(l, o, Message, Text("")), Get(l, o, Timestamp, Text("")), Get(l, o, SchemaVersion, Text(SCHEMA_VERSION)),
             IsTruthy(Get(l, o, Retryable, Bool(false))), evidence)
  }

  lemma NewErrorKeeps(l: Language, e: AgentError)
    requires IsSound(l) && IsError(l, e)
    ensures NewError(l, Text(e.errorId), Text(e.correlationId), Text(l.code(e.code)), Text(e.message),
                     Text(e.timestamp), Text(e.schemaVersion), e.retryable, e.evidence) == Success(e)
  {
    RequiredTextsAreKept(l);
    CodeIsNamed(l, e.code);
    hide IsSound, RequireText, RequireIso, RequireVersion, CodeNamed, IsClean, IsTime, IsVersionText, IsText;
  }

  // ---------------------------------------------------------------- approvals

  predicate IsApproval(l: Language, a: Approval) {
    && IsClean(a.approvalId) && IsClean(a.correlationId) && IsClean(a.subjectId) && IsClean(a.approverActor)
    && IsClean(a.approverRole) && IsClean(a.reason)
    && IsTime(l, a.timestamp) && IsVersionText(a.schemaVersion) && (a.evidence.Some? ==> IsEvidence(l, a.evidence.value))
  }

  function ApprovalField(l: Language, a: Approval, f: Field): Option<Json>
    requires IsSound(l)
  {
    match f
    case ApprovalId => Some(Text(a.approvalId))
    case CorrelationId => Some(Text(a.correlationId))
    case SubjectId => Some(Text(a.subjectId))
    case ApproverActor => Some(Text(a.approverActor))
    case ApproverRoleId => Some(Text(a.approverRole))
    case Decision => Some(Text(l.decision(a.decision)))
    case Reason => Some(Text(a.reason))
    case Timestamp => Some(Text(a.timestamp))
    case SchemaVersion => Some(Text(a.schemaVersion))
    case EvidenceItem => MaybeEvidence(l, a.evidence)
    case _ => None
  }

  function ApprovalFields(l: Language, a: Approval): Dict
    requires IsSound(l)
  {
    (f: Field) => ApprovalField(l, a, f)
  }

  function NewApproval(l: Language, id: Json, correlationId: Json, subject: Json, actor: Json, role: Json,
                       decision: Json, reason: Json, timestamp: Json, version: Json, evidence: Option<EvidenceRef>)
    : Result<Approval, Invalid>
  {
    var id :- RequireText(ApprovalId, id);
    var correlationId :- RequireText(CorrelationId, correlationId);
    var subject :- RequireText(SubjectId, subject);
    var actor :- RequireText(ApproverActor, actor);
    var role :- RequireText(ApproverRoleId, role);
    var decision :- DecisionNamed(l, decision);
    var reason :- RequireText(Reason, reason);
    var timestamp :- RequireIso(l, Timestamp, timestamp);
    var version :- RequireVersion(version);
    Success(Approval(id, correlationId, subject, actor, role, decision, reason, timestamp, version, evidence))
  }

  function ApprovalFrom(l: Language, o: map<string, Json>): Result<Approval, Invalid> {
    var evidence :- EvidenceItemFrom(l, Get(l, o, EvidenceItem, Null));
    NewApproval(l, Get(l, o, ApprovalId, Text("")), Get(l, o, CorrelationId, Text("")), Get(l, o, SubjectId, Text("")),
                Get(l, o, ApproverActor, Text("")), Get(l, o, ApproverRoleId, Text("")), Get(l, o, Decision, Text("")),
                Get(l, o, Reason, Text("")), Get(l, o, Timestamp, Text("")), Get(l, o, SchemaVersion, Text(SCHEMA_VERSION)),
                evidence)
  }

  lemma NewApprovalKeeps(l: Language, a: Approval)
    requires IsSound(l) && IsApproval(l, a)
    ensures NewApproval(l, Text(a.approvalId), Text(a.correlationId), Text(a.subjectId), Text(a.approverActor),
                        Text(a.approverRole), Text(l.decision(a.decision)), Text(a.reason), Text(a.timestamp),
                        Text(a.schemaVersion), a.evidence) == Success(a)
  {
    RequiredTextsAreKept(l);
    DecisionIsNamed(l, a.decision);
    hide IsSound, RequireText, RequireIso, RequireVersion, DecisionNamed, IsClean, IsTime, IsVersionText, IsText;
  }

  // ---------------------------------------------------------------- correlation

  predicate IsCorrelation(l: Language, c: CorrelationContext) {
    && IsClean(c.correlationId) && IsClean(c.idempotencyKey) && IsText(c.tenantId) && IsText(c.clientId)
    && (c.tenantId.Some? || c.clientId.Some?)
    && IsTime(l, c.createdAt) && IsVersionText(c.schemaVersion) && IsText(c.traceParent)
  }

  /** The control plane's own correlation writes its actor id too, as null when it has none. */
  function CorrelationField(c: CorrelationContext, f: Field): Option<Json> {
    match f
    case CorrelationId => Some(Text(c.correlationId))
    case IdempotencyKey => Some(Text(c.idempotencyKey))
    case CreatedAt => Some(Text(c.createdAt))
    case SchemaVersion => Some(Text(c.schemaVersion))
    case TenantId => Maybe(c.tenantId)
    case ClientId => Maybe(c.clientId)
    case TraceParent => Maybe(c.traceParent)
    case ActorId => if c.kind.Base? then None else Some(JsonOf(c.kind.actorId))
    case _ => None
  }

  function CorrelationFields(c: CorrelationContext): Dict {
    (f: Field) => CorrelationField(c, f)
  }

  function NewCorrelation(l: Language, id: Json, key: Json, tenant: Json, client: Json, createdAt: Json, version: Json,
                          trace: Json): Result<CorrelationContext, Invalid> {
    var id :- RequireText(CorrelationId, id);
    var key :- RequireText(IdempotencyKey, key);
    var tenant :- OptionalText(TenantId, tenant);
    var client :- OptionalText(ClientId, client);
    if tenant.None? && client.None? then Failure(Invalid(TenantId))
    else
      var createdAt :- RequireIso(l, CreatedAt, createdAt);
      var version :- RequireVersion(version);
      var trace :- OptionalText(TraceParent, trace);
      Success(CorrelationContext(id, key, tenant, client, createdAt, version, trace, Base))
  }

  /** What a stored workflow is read back with is always a base correlation. */
  function CorrelationFrom(l: Language, o: map<string, Json>): Result<CorrelationContext, Invalid> {
    NewCorrelation(l, Get(l, o, CorrelationId, Text("")), Get(l, o, IdempotencyKey, Text("")), Get(l, o, TenantId, Null),
                   Get(l, o, ClientId, Null), Get(l, o, CreatedAt, Text("")), Get(l, o, SchemaVersion, Text(SCHEMA_VERSION)),
                   Get(l, o, TraceParent, Null))
  }

  lemma NewCorrelationKeeps(l: Language, c: CorrelationContext)
    requires IsCorrelation(l, c)
    ensures NewCorrelation(l, Text(c.correlationId), Text(c.idempotencyKey), JsonOf(c.tenantId), JsonOf(c.clientId),
                           Text(c.createdAt), Text(c.schemaVersion), JsonOf(c.traceParent)) ==
            Success(c.(kind := Base))
  {
    RequiredTextsAreKept(l);
    hide RequireText, RequireIso, RequireVersion, OptionalText, IsClean, IsTime, IsVersionText, IsText;
  }

  // ---------------------------------------------------------------- the workflow

  /** A workflow the constructor has accepted. */
  predicate IsWorkflow(l: Language, w: Row) {
    && IsClean(w.workflowId) && IsCorrelation(l, w.correlation) && IsText(w.tenantId) && IsText(w.clientId)
    && IsClean(w.requestingActor) && IsClean(w.owningRole) && IsClean(w.capability)
    && IsTime(l, w.createdAt) && IsTime(l, w.updatedAt) && IsVersionText(w.schemaVersion)
    && (w.deadline.Some? ==> IsTime(l, w.deadline.value)) && IsClean(w.idempotencyKey)
    && (forall i :: 0 <= i < |w.evidence| ==> IsEvidence(l, w.evidence[i]))
    && (w.error.Some? ==> IsError(l, w.error.value))
    && (w.approval.Some? ==> IsApproval(l, w.approval.value))
    && IsText(w.taskId)
  }

  function EvidenceList(l: Language, s: seq<EvidenceRef>): seq<Json>
    requires IsSound(l)
  {
    if s == [] then [] else EvidenceList(l, s[..|s| - 1]) + [Object(Written(l, EvidenceFields(s[|s| - 1])))]
  }

  /** Only the dictionaries of the list become references. */
  function EvidenceListFrom(l: Language, s: seq<Json>): Result<seq<EvidenceRef>, Invalid> {
    if s == [] then Success([])
    else
      var before :- EvidenceListFrom(l, s[..|s| - 1]);
      var last :- EvidenceItemFrom(l, s[|s| - 1]);
      Success(if last.Some? then before + [last.value] else before)
  }

  /** Anything but a list holds no dictionaries to keep, and a scalar cannot be looked through at all. */
  function EvidenceRefsFrom(l: Language, j: Json): Result<seq<EvidenceRef>, Invalid> {
    match j
    case List(items) => EvidenceListFrom(l, items)
    case Text(_) => Success([])
    case Object(_) => Success([])
    case _ => Failure(Invalid(EvidenceRefs))
  }

  function ErrorItemFrom(l: Language, j: Json): Result<Option<AgentError>, Invalid> {
    if !j.Object? then Success(None)
    else
      var e :- ErrorFrom(l, j.fields);
      Success(Some(e))
  }

  function ApprovalItemFrom(l: Language, j: Json): Result<Option<Approval>, Invalid> {
    if !j.Object? then Success(None)
    else
      var a :- ApprovalFrom(l, j.fields);
      Success(Some(a))
  }

  function ErrorJson(l: Language, e: Option<AgentError>): Option<Json>
    requires IsSound(l)
  {
    if e.Some? then Some(Object(Written(l, ErrorFields(l, e.value)))) else None
  }

  function ApprovalJson(l: Language, a: Option<Approval>): Option<Json>
    requires IsSound(l)
  {
    if a.Some? then Some(Object(Written(l, ApprovalFields(l, a.value)))) else None
  }

  function OutputJson(o: Option<map<string, Json>>): Option<Json> {
    if o.Some? then Some(Object(o.value)) else None
  }

  function WorkflowField(l: Language, w: Row, f: Field): Option<Json>
    requires IsSound(l)
  {
    match f
    case WorkflowId => Some(Text(w.workflowId))
    case Correlation => Some(Object(Written(l, CorrelationFields(w.correlation))))
    case TenantId => Maybe(w.tenantId)
    case ClientId => Maybe(w.clientId)
    case RequestingActor => Some(Text(w.requestingActor))
    case OwningRoleId => Some(Text(w.owningRole))
    case Capability => Some(Text(w.capability))
    case StateName => Some(Text(l.state(w.state)))
    case InputPayload => Some(Object(w.input))
    case OutputPayload => OutputJson(w.output)
    case CreatedAt => Some(Text(w.createdAt))
    case UpdatedAt => Some(Text(w.updatedAt))
    case SchemaVersion => Some(Text(w.schemaVersion))
    case RetryCount => Some(Number(w.retryCount))
    case MaxRetries => Some(Number(w.maxRetries))
    case Deadline => Maybe(w.deadline)
    case IdempotencyKey => Some(Text(w.idempotencyKey))
    case EvidenceRefs => Some(List(EvidenceList(l, w.evidence)))
    case ErrorItem => ErrorJson(l, w.error)
    case ApprovalItem => ApprovalJson(l, w.approval)
    case RequiresApproval => Some(Bool(w.requiresApproval))
    case TaskId => Maybe(w.taskId)
    case _ => None
  }

  function WorkflowFields(l: Language, w: Row): Dict
    requires IsSound(l)
  {
    (f: Field) => WorkflowField(l, w, f)
  }

  function ToDict(l: Language, w: Row): Json
    requires IsSound(l)
  {
    Object(Written(l, WorkflowFields(l, w)))
  }

  /** The texts of a workflow, validated together. */
  datatype Texts = Texts(workflowId: string, tenantId: Option<string>, clientId: Option<string>, actor: string,
                         role: string, capability: string, key: string, taskId: Option<string>)

  function NewTexts(id: Json, tenant: Json, client: Json, actor: Json, role: Json, capability: Json, key: Json,
                    task: Json): Result<Texts, Invalid> {
    var id :- RequireText(WorkflowId, id);
    var tenant :- OptionalText(TenantId, tenant);
    var client :- OptionalText(ClientId, client);
    var actor :- RequireText(RequestingActor, actor);
    var role :- RequireText(OwningRoleId, role);
    var capability :- RequireText(Capability, capability);
    var key :- RequireText(IdempotencyKey, key);
    var task :- OptionalText(TaskId, task);
    Success(Texts(id, tenant, client, actor, role, capability, key, task))
  }

  datatype Payloads = Payloads(state: State, input: map<string, Json>, output: Option<map<string, Json>>)

  function NewPayloads(l: Language, state: Json, input: Json, output: Json): Result<Payloads, Invalid> {
    var state :- StateNamed(l, state);
    var input :- RequireObject(InputPayload, input);
    if output.Null? then Success(Payloads(state, input, None))
    else
      var output :- RequireObject(OutputPayload, output);
      Success(Payloads(state, input, Some(output)))
  }

  datatype Times = Times(createdAt: string, updatedAt: string, version: string, deadline: Option<string>)

  function NewTimes(l: Language, createdAt: Json, updatedAt: Json, version: Json, deadline: Json)
    : Result<Times, Invalid>
  {
    var createdAt :- RequireIso(l, CreatedAt, createdAt);
    var updatedAt :- RequireIso(l, UpdatedAt, updatedAt);
    var version :- RequireVersion(version);
    var deadline :- OptionalIso(l, Deadline, deadline);
    Success(Times(createdAt, updatedAt, version, deadline))
  }

  datatype Parts = Parts(correlation: CorrelationContext, retryCount: nat, maxRetries: nat, evidence: seq<EvidenceRef>,
                         error: Option<AgentError>, approval: Option<Approval>)

  /** The nested records, read before anything else is checked. */
  function NewParts(l: Language, correlation: Json, retries: Json, most: Json, evidence: Json, error: Json,
                    approval: Json): Result<Parts, Invalid> {
    if !correlation.Object? then Failure(Invalid(Correlation))
    else
      var correlation :- CorrelationFrom(l, correlation.fields);
      var retries :- RequireCount(l, RetryCount, retries);
      var most :- RequireCount(l, MaxRetries, most);
      var evidence :- EvidenceRefsFrom(l, evidence);
      var error :- ErrorItemFrom(l, error);
      var approval :- ApprovalItemFrom(l, approval);
      Success(Parts(correlation, retries, most, evidence, error, approval))
  }

  function PartsIn(l: Language, o: map<string, Json>): Result<Parts, Invalid> {
    NewParts(l, Get(l, o, Correlation, Object(map[])), Get(l, o, RetryCount, Number(0)),
             Get(l, o, MaxRetries, Number(DEFAULT_MAX_RETRIES)), Get(l, o, EvidenceRefs, List([])),
             Get(l, o, ErrorItem, Null), Get(l, o, ApprovalItem, Null))
  }

  function TextsIn(l: Language, o: map<string, Json>): Result<Texts, Invalid> {
    NewTexts(Get(l, o, WorkflowId, Text("")), Get(l, o, TenantId, Null), Get(l, o, ClientId, Null),
             Get(l, o, RequestingActor, Text("")), Get(l, o, OwningRoleId, Text("")), Get(l, o, Capability, Text("")),
             Get(l, o, IdempotencyKey, Text("")), Get(l, o, TaskId, Null))
  }

  function PayloadsIn(l: Language, o: map<string, Json>): Result<Payloads, Invalid> {
    NewPayloads(l, Get(l, o, StateName, Text(l.state(Proposed))), Get(l, o, InputPayload, Object(map[])),
                Get(l, o, OutputPayload, Null))
  }

  function TimesIn(l: Language, o: map<string, Json>): Result<Times, Invalid> {
    NewTimes(l, Get(l, o, CreatedAt, Text("")), Get(l, o, UpdatedAt, Text("")),
             Get(l, o, SchemaVersion, Text(SCHEMA_VERSION)), Get(l, o, Deadline, Null))
  }

  function Assembled(p: Parts, t: Texts, b: Payloads, m: Times, needed: bool): Row {
    Row(t.workflowId, p.correlation, t.tenantId, t.clientId, t.actor, t.role, t.capability, b.state, b.input,
        m.createdAt, m.updatedAt, m.version, b.output, p.retryCount, p.maxRetries, m.deadline, t.key, p.evidence,
        p.error, p.approval, needed, t.taskId)
  }

  function WorkflowFrom(l: Language, o: map<string, Json>): Result<Row, Invalid> {
    var p :- PartsIn(l, o);
    var t :- TextsIn(l, o);
    var b :- PayloadsIn(l, o);
    var m :- TimesIn(l, o);
    Success(Assembled(p, t, b, m, IsTruthy(Get(l, o, RequiresApproval, Bool(false)))))
  }

  /** Reading a stored dictionary back. */
  function FromDict(l: Language, j: Json): Result<Row, Invalid> {
    if j.Object? then WorkflowFrom(l, j.fields) else Failure(Invalid(WorkflowId))
  }

  // ---------------------------------------------------------------- the round trip

  lemma EvidenceRoundTrip(l: Language, e: EvidenceRef)
    requires IsSound(l) && IsEvidence(l, e)
    ensures EvidenceFrom(l, Written(l, EvidenceFields(e))) == Success(e)
  {
    hide IsSound, IsEvidence, NewEvidence, Written, Entry;
    NewEvidenceKeeps(l, e);
    forall f: Field
      ensures Entry(l, Written(l, EvidenceFields(e)), f) == EvidenceField(e, f)
    {
      WrittenIsRead(l, EvidenceFields(e), f);
    }
  }

  lemma EvidenceItemRoundTrip(l: Language, e: Option<EvidenceRef>)
    requires IsSound(l) && (e.Some? ==> IsEvidence(l, e.value))
    ensures EvidenceItemFrom(l, MaybeEvidence(l, e).GetOr(Null)) == Success(e)
  {
    hide IsSound, IsEvidence, EvidenceFrom, EvidenceFields, Written;
    if e.Some? {
      EvidenceRoundTrip(l, e.value);
    }
  }

  lemma ErrorRoundTrip(l: Language, e: AgentError)
    requires IsSound(l) && IsError(l, e)
    ensures ErrorFrom(l, Written(l, ErrorFields(l, e))) == Success(e)
  {
    hide IsSound, IsEvidence, NewError, Written, Entry, EvidenceItemFrom, MaybeEvidence;
    NewErrorKeeps(l, e);
    EvidenceItemRoundTrip(l, e.evidence);
    forall f: Field
      ensures Entry(l, Written(l, ErrorFields(l, e)), f) == ErrorField(l, e, f)
    {
      WrittenIsRead(l, ErrorFields(l, e), f);
    }
  }

  lemma ApprovalFieldsAre(l: Language, a: Approval)
    requires IsSound(l)
    ensures ApprovalField(l, a, ApprovalId) == Some(Text(a.approvalId))
    ensures ApprovalField(l, a, CorrelationId) == Some(Text(a.correlationId))
    ensures ApprovalField(l, a, SubjectId) == Some(Text(a.subjectId))
    ensures ApprovalField(l, a, ApproverActor) == Some(Text(a.approverActor))
    ensures ApprovalField(l, a, ApproverRoleId) == Some(Text(a.approverRole))
    ensures ApprovalField(l, a, Decision) == Some(Text(l.decision(a.decision)))
    ensures ApprovalField(l, a, Reason) == Some(Text(a.reason))
    ensures ApprovalField(l, a, Timestamp) == Some(Text(a.timestamp))
    ensures ApprovalField(l, a, SchemaVersion) == Some(Text(a.schemaVersion))
    ensures ApprovalField(l, a, EvidenceItem) == MaybeEvidence(l, a.evidence)
  {
    hide IsSound, MaybeEvidence;
  }

  lemma ApprovalRoundTrip(l: Language, a: Approval)
    requires IsSound(l) && IsApproval(l, a)
    ensures ApprovalFrom(l, Written(l, ApprovalFields(l, a))) == Success(a)
  {
    hide IsSound, IsEvidence, NewApproval, Written, Entry, EvidenceItemFrom, MaybeEvidence, ApprovalField, IsClean,
      IsTime, IsVersionText;
    NewApprovalKeeps(l, a);
    ApprovalFieldsAre(l, a);
    EvidenceItemRoundTrip(l, a.evidence);
    forall f: Field
      ensures Entry(l, Written(l, ApprovalFields(l, a)), f) == ApprovalField(l, a, f)
    {
      WrittenIsRead(l, ApprovalFields(l, a), f);
    }
  }

  lemma CorrelationRoundTrip(l: Language, c: CorrelationContext)
    requires IsSound(l) && IsCorrelation(l, c)
    ensures CorrelationFrom(l, Written(l, CorrelationFields(c))) == Success(c.(kind := Base))
  {
    hide IsSound, IsCorrelation, NewCorrelation, Written, Entry;
    NewCorrelationKeeps(l, c);
    forall f: Field
      ensures Entry(l, Written(l, CorrelationFields(c)), f) == CorrelationField(c, f)
    {
      WrittenIsRead(l, CorrelationFields(c), f);
    }
  }

  lemma {:induction false} EvidenceListRoundTrip(l: Language, s: seq<EvidenceRef>)
    requires IsSound(l) && forall i :: 0 <= i < |s| ==> IsEvidence(l, s[i])
    ensures EvidenceListFrom(l, EvidenceList(l, s)) == Success(s)
  {
    hide IsSound, IsEvidence, Written, EvidenceFields, EvidenceFrom;
    if s != [] {
      var n := |s| - 1;
      EvidenceRoundTrip(l, s[n]);
      EvidenceListRoundTrip(l, s[..n]);
      ListGrows(EvidenceList(l, s[..n]), Object(Written(l, EvidenceFields(s[n]))));
      assert s == s[..n] + [s[n]];
    }
  }

  lemma ListGrows<T>(s: seq<T>, x: T)
    ensures (s + [x])[..|s + [x]| - 1] == s && (s + [x])[|s + [x]| - 1] == x
  {
  }

  lemma ErrorItemRoundTrip(l: Language, e: Option<AgentError>)
    requires IsSound(l) && (e.Some? ==> IsError(l, e.value))
    ensures ErrorItemFrom(l, ErrorJson(l, e).GetOr(Null)) == Success(e)
  {
    hide IsSound, IsError, ErrorFrom, ErrorFields, Written;
    if e.Some? {
      ErrorRoundTrip(l, e.value);
    }
  }

  lemma ApprovalItemRoundTrip(l: Language, a: Option<Approval>)
    requires IsSound(l) && (a.Some? ==> IsApproval(l, a.value))
    ensures ApprovalItemFrom(l, ApprovalJson(l, a).GetOr(Null)) == Success(a)
  {
    hide IsSound, IsApproval, ApprovalFrom, ApprovalFields, Written;
    if a.Some? {
      ApprovalRoundTrip(l, a.value);
    }
  }

  /** What the reading of the nested records is to give back. */
  function PartsOf(w: Row): Parts {
    Parts(w.correlation.(kind := Base), w.retryCount, w.maxRetries, w.evidence, w.error, w.approval)
  }

  lemma NewPartsKeeps(l: Language, w: Row)
    requires IsSound(l) && IsWorkflow(l, w)
    ensures NewParts(l, Object(Written(l, CorrelationFields(w.correlation))), Number(w.retryCount),
                     Number(w.maxRetries), List(EvidenceList(l, w.evidence)), ErrorJson(l, w.error).GetOr(Null),
                     ApprovalJson(l, w.approval).GetOr(Null)) == Success(PartsOf(w))
  {
    hide IsSound, IsEvidence, IsError, IsApproval, IsCorrelation, CorrelationFrom, EvidenceListFrom, ErrorItemFrom,
      ApprovalItemFrom, Written, EvidenceList, ErrorJson, ApprovalJson, CorrelationFields, IsClean, IsText, IsTime,
      IsVersionText;
    CorrelationRoundTrip(l, w.correlation);
    EvidenceListRoundTrip(l, w.evidence);
    ErrorItemRoundTrip(l, w.error);
    ApprovalItemRoundTrip(l, w.approval);
  }

  lemma NewTextsKeeps(l: Language, w: Row)
    requires IsWorkflow(l, w)
    ensures NewTexts(Text(w.workflowId), JsonOf(w.tenantId), JsonOf(w.clientId), Text(w.requestingActor),
                     Text(w.owningRole), Text(w.capability), Text(w.idempotencyKey), JsonOf(w.taskId)) ==
            Success(Texts(w.workflowId, w.tenantId, w.clientId, w.requestingActor, w.owningRole, w.capability,
                          w.idempotencyKey, w.taskId))
  {
    hide RequireText, OptionalText, IsClean, IsText, IsCorrelation, IsEvidence, IsError, IsApproval, IsTime, IsVersionText;
    RequiredTextsAreKept(l);
  }

  lemma NewTimesKeeps(l: Language, w: Row)
    requires IsWorkflow(l, w)
    ensures NewTimes(l, Text(w.createdAt), Text(w.updatedAt), Text(w.schemaVersion), JsonOf(w.deadline)) ==
            Success(Times(w.createdAt, w.updatedAt, w.schemaVersion, w.deadline))
  {
    hide RequireText, RequireIso, RequireVersion, IsClean, IsText, IsCorrelation, IsEvidence, IsError, IsApproval,
      IsTime, IsVersionText;
    RequiredTextsAreKept(l);
  }

  lemma NewPayloadsKeeps(l: Language, w: Row)
    requires IsSound(l)
    ensures NewPayloads(l, Text(l.state(w.state)), Object(w.input), OutputJson(w.output).GetOr(Null)) ==
            Success(Payloads(w.state, w.input, w.output))
  {
    hide StateNamed, IsSound;
    StateIsNamed(l, w.state);
  }

  /** The dictionary says of every field what the workflow does. */
  ghost predicate Says(l: Language, o: map<string, Json>, w: Row)
    requires IsSound(l)
  {
    forall f: Field :: Entry(l, o, f) == WorkflowField(l, w, f)
  }

  lemma PartsRoundTrip(l: Language, w: Row, o: map<string, Json>)
    requires IsSound(l) && IsWorkflow(l, w) && Says(l, o, w)
    ensures PartsIn(l, o) == Success(PartsOf(w))
  {
    hide IsSound, IsWorkflow, NewParts, Written, EvidenceList, ErrorJson, ApprovalJson, CorrelationFields, Entry;
    NewPartsKeeps(l, w);
  }

  lemma TextsRoundTrip(l: Language, w: Row, o: map<string, Json>)
    requires IsSound(l) && IsWorkflow(l, w) && Says(l, o, w)
    ensures TextsIn(l, o) == Success(Texts(w.workflowId, w.tenantId, w.clientId, w.requestingActor, w.owningRole,
                                           w.capability, w.idempotencyKey, w.taskId))
  {
    hide IsSound, IsWorkflow, NewTexts, Written, EvidenceList, ErrorJson, ApprovalJson, CorrelationFields, Entry;
    NewTextsKeeps(l, w);
  }

  lemma PayloadsRoundTrip(l: Language, w: Row, o: map<string, Json>)
    requires IsSound(l) && Says(l, o, w)
    ensures PayloadsIn(l, o) == Success(Payloads(w.state, w.input, w.output))
    ensures IsTruthy(Get(l, o, RequiresApproval, Bool(false))) == w.requiresApproval
  {
    hide IsSound, NewPayloads, Written, EvidenceList, ErrorJson, ApprovalJson, CorrelationFields, Entry;
    NewPayloadsKeeps(l, w);
  }

  lemma TimesRoundTrip(l: Language, w: Row, o: map<string, Json>)
    requires IsSound(l) && IsWorkflow(l, w) && Says(l, o, w)
    ensures TimesIn(l, o) == Success(Times(w.createdAt, w.updatedAt, w.schemaVersion, w.deadline))
  {
    hide IsSound, IsWorkflow, NewTimes, Written, EvidenceList, ErrorJson, ApprovalJson, CorrelationFields, Entry;
    NewTimesKeeps(l, w);
  }

  /** Reading what was written, part by part. */
  lemma WorkflowRoundTrip(l: Language, w: Row, o: map<string, Json>)
    requires IsSound(l) && IsWorkflow(l, w) && Says(l, o, w)
    ensures WorkflowFrom(l, o) == Success(w.(correlation := w.correlation.(kind := Base)))
  {
    hide IsSound, IsWorkflow, Says, PartsIn, TextsIn, PayloadsIn, TimesIn, Get, IsTruthy;
    PartsRoundTrip(l, w, o);
    TextsRoundTrip(l, w, o);
    PayloadsRoundTrip(l, w, o);
    TimesRoundTrip(l, w, o);
  }

  /** A stored workflow is read back as it was, but for a governance correlation, which loses its actor id. */
  lemma StoredWorkflowIsReadBack(l: Language, w: Row)
    requires IsSound(l) && IsWorkflow(l, w)
    ensures FromDict(l, ToDict(l, w)) == Success(w.(correlation := w.correlation.(kind := Base)))
    ensures FromDict(l, ToDict(l, w)) == Success(w) <==> w.correlation.kind == Base
  {
    hide IsSound, IsWorkflow, WorkflowFrom, Written, Entry, WorkflowField, IsClean;
    forall f: Field
      ensures Entry(l, Written(l, WorkflowFields(l, w)), f) == WorkflowField(l, w, f)
    {
      WrittenIsRead(l, WorkflowFields(l, w), f);
    }
    WorkflowRoundTrip(l, w, Written(l, WorkflowFields(l, w)));
  }

  /** Under which key the stored dictionary says whose work it is. */
  lemma StoredWorkflowSaysWhose(l: Language, w: Row)
    requires IsSound(l)
    ensures var o := ToDict(l, w).fields;
      && Entry(l, o, WorkflowId) == Some(Text(w.workflowId)) && Entry(l, o, IdempotencyKey) == Some(Text(w.idempotencyKey))
      && Entry(l, o, TenantId) == Maybe(w.tenantId) && Entry(l, o, ClientId) == Maybe(w.clientId)
      && Entry(l, o, RequestingActor) == Some(Text(w.requestingActor))
      && Entry(l, o, OwningRoleId) == Some(Text(w.owningRole)) && Entry(l, o, Capability) == Some(Text(w.capability))
      && Entry(l, o, TaskId) == Maybe(w.taskId)
  {
    hide IsSound, Entry, ToDict, ErrorJson, ApprovalJson, OutputJson;
    StoredFieldsAreThose(l, w);
  }

  /** And under which how far it has come. */
  lemma StoredWorkflowSaysHowFar(l: Language, w: Row)
    requires IsSound(l)
    ensures var o := ToDict(l, w).fields;
      && Entry(l, o, StateName) == Some(Text(l.state(w.state)))
      && Entry(l, o, CreatedAt) == Some(Text(w.createdAt)) && Entry(l, o, UpdatedAt) == Some(Text(w.updatedAt))
      && Entry(l, o, RetryCount) == Some(Number(w.retryCount)) && Entry(l, o, MaxRetries) == Some(Number(w.maxRetries))
      && Entry(l, o, RequiresApproval) == Some(Bool(w.requiresApproval)) && Entry(l, o, Deadline) == Maybe(w.deadline)
      && Entry(l, o, InputPayload) == Some(Object(w.input))
  {
    hide IsSound, Entry, ToDict, ErrorJson, ApprovalJson, OutputJson;
    StoredFieldsAreThose(l, w);
  }

  /** An output, an error or an approval is stored if and only if there is one. */
  lemma StoredWorkflowSaysWhatCame(l: Language, w: Row)
    requires IsSound(l)
    ensures var o := ToDict(l, w).fields;
      && (Entry(l, o, OutputPayload).Some? <==> w.output.Some?)
      && (Entry(l, o, ErrorItem).Some? <==> w.error.Some?)
      && (Entry(l, o, ApprovalItem).Some? <==> w.approval.Some?)
  {
    hide IsSound, Entry, ToDict, ErrorJson, ApprovalJson, OutputJson;
    StoredFieldsAreThose(l, w);
    MaybesAreThose(l, w);
  }

  lemma MaybesAreThose(l: Language, w: Row)
    requires IsSound(l)
    ensures OutputJson(w.output).Some? <==> w.output.Some?
    ensures ErrorJson(l, w.error).Some? <==> w.error.Some?
    ensures ApprovalJson(l, w.approval).Some? <==> w.approval.Some?
  {
  }

  lemma StoredFieldsAreThose(l: Language, w: Row)
    requires IsSound(l)
    ensures forall f: Field :: Entry(l, ToDict(l, w).fields, f) == WorkflowField(l, w, f)
  {
    hide IsSound, WorkflowField, Written, Entry;
    forall f: Field
      ensures Entry(l, ToDict(l, w).fields, f) == WorkflowField(l, w, f)
    {
      WrittenIsRead(l, WorkflowFields(l, w), f);
    }
  }

  // ---------------------------------------------------------------- whatever is read is accepted

  lemma ReadTextsAreClean(l: Language)
    ensures forall f, j :: RequireText(f, j).Success? ==> IsClean(RequireText(f, j).value)
    ensures forall f, j :: RequireIso(l, f, j).Success? ==> IsTime(l, RequireIso(l, f, j).value)
    ensures forall j :: RequireVersion(j).Success? ==> IsVersionText(RequireVersion(j).value)
    ensures forall f, j :: OptionalText(f, j).Success? ==> IsText(OptionalText(f, j).value)
  {
    hide RequireText, IsClean, IsVersion;
    forall f, j | RequireText(f, j).Success?
      ensures IsClean(RequireText(f, j).value)
    {
      AcceptedIsClean(f, j);
    }
  }

  lemma NewEvidenceIsAccepted(l: Language, id: Json, kind: Json, uri: Json, at: Json, version: Json, hash: Json,
                              actor: Json)
    requires NewEvidence(l, id, kind, uri, at, version, hash, actor).Success?
    ensures IsEvidence(l, NewEvidence(l, id, kind, uri, at, version, hash, actor).value)
  {
    hide RequireText, RequireIso, RequireVersion, OptionalText, IsClean, IsTime, IsVersionText, IsText;
    ReadTextsAreClean(l);
  }

  lemma ReadEvidenceIsAccepted(l: Language, o: map<string, Json>)
    requires EvidenceFrom(l, o).Success?
    ensures IsEvidence(l, EvidenceFrom(l, o).value)
  {
    hide NewEvidence, IsEvidence, Get;
    NewEvidenceIsAccepted(l, Get(l, o, EvidenceId, Text("")), Get(l, o, Type, Text("")), Get(l, o, Uri, Text("")),
                          Get(l, o, Timestamp, Text("")), Get(l, o, SchemaVersion, Text(SCHEMA_VERSION)),
                          Get(l, o, HashText, Null), Get(l, o, ActorName, Null));
  }

  lemma NewErrorIsAccepted(l: Language, id: Json, correlationId: Json, code: Json, message: Json, at: Json,
                           version: Json, retryable: bool, evidence: Option<EvidenceRef>)
    requires NewError(l, id, correlationId, code, message, at, version, retryable, evidence).Success?
    requires evidence.Some? ==> IsEvidence(l, evidence.value)
    ensures IsError(l, NewError(l, id, correlationId, code, message, at, version, retryable, evidence).value)
  {
    hide RequireText, RequireIso, RequireVersion, CodeNamed, IsClean, IsTime, IsVersionText, IsEvidence;
    ReadTextsAreClean(l);
  }

  lemma ReadErrorIsAccepted(l: Language, o: map<string, Json>)
    requires ErrorFrom(l, o).Success?
    ensures IsError(l, ErrorFrom(l, o).value)
  {
    hide NewError, IsError, Get, EvidenceFrom, IsEvidence, IsTruthy;
    var j := Get(l, o, EvidenceItem, Null);
    if j.Object? {
      ReadEvidenceIsAccepted(l, j.fields);
    }
    NewErrorIsAccepted(l, Get(l, o, ErrorId, Text("")), Get(l, o, CorrelationId, Text("")), Get(l, o, Code, Text("")),
                       Get(l, o, Message, Text("")), Get(l, o, Timestamp, Text("")),
                       Get(l, o, SchemaVersion, Text(SCHEMA_VERSION)), IsTruthy(Get(l, o, Retryable, Bool(false))),
                       EvidenceItemFrom(l, j).value);
  }

  lemma NewApprovalIsAccepted(l: Language, id: Json, correlationId: Json, subject: Json, actor: Json, role: Json,
                              decision: Json, reason: Json, at: Json, version: Json, evidence: Option<EvidenceRef>)
    requires NewApproval(l, id, correlationId, subject, actor, role, decision, reason, at, version, evidence).Success?
    requires evidence.Some? ==> IsEvidence(l, evidence.value)
    ensures IsApproval(l, NewApproval(l, id, correlationId, subject, actor, role, decision, reason, at, version,
                                      evidence).value)
  {
    hide RequireText, RequireIso, RequireVersion, DecisionNamed, IsClean, IsTime, IsVersionText, IsEvidence;
    ReadTextsAreClean(l);
  }

  lemma ReadApprovalIsAccepted(l: Language, o: map<string, Json>)
    requires ApprovalFrom(l, o).Success?
    ensures IsApproval(l, ApprovalFrom(l, o).value)
  {
    hide NewApproval, IsApproval, Get, EvidenceFrom, IsEvidence;
    var j := Get(l, o, EvidenceItem, Null);
    if j.Object? {
      ReadEvidenceIsAccepted(l, j.fields);
    }
    NewApprovalIsAccepted(l, Get(l, o, ApprovalId, Text("")), Get(l, o, CorrelationId, Text("")),
                          Get(l, o, SubjectId, Text("")), Get(l, o, ApproverActor, Text("")),
                          Get(l, o, ApproverRoleId, Text("")), Get(l, o, Decision, Text("")),
                          Get(l, o, Reason, Text("")), Get(l, o, Timestamp, Text("")),
                          Get(l, o, SchemaVersion, Text(SCHEMA_VERSION)), EvidenceItemFrom(l, j).value);
  }

  lemma NewCorrelationIsAccepted(l: Language, id: Json, key: Json, tenant: Json, client: Json, at: Json, version: Json,
                                 trace: Json)
    requires NewCorrelation(l, id, key, tenant, client, at, version, trace).Success?
    ensures var c := NewCorrelation(l, id, key, tenant, client, at, version, trace).value;
      IsCorrelation(l, c) && c.kind == Base
  {
    hide RequireText, RequireIso, RequireVersion, OptionalText, IsClean, IsTime, IsVersionText, IsText;
    ReadTextsAreClean(l);
  }

  lemma ReadCorrelationIsAccepted(l: Language, o: map<string, Json>)
    requires CorrelationFrom(l, o).Success?
    ensures IsCorrelation(l, CorrelationFrom(l, o).value) && CorrelationFrom(l, o).value.kind == Base
  {
    hide NewCorrelation, IsCorrelation, Get;
    NewCorrelationIsAccepted(l, Get(l, o, CorrelationId, Text("")), Get(l, o, IdempotencyKey, Text("")),
                             Get(l, o, TenantId, Null), Get(l, o, ClientId, Null), Get(l, o, CreatedAt, Text("")),
                             Get(l, o, SchemaVersion, Text(SCHEMA_VERSION)), Get(l, o, TraceParent, Null));
  }

  lemma {:induction false} ReadListIsAccepted(l: Language, s: seq<Json>)
    requires EvidenceListFrom(l, s).Success?
    ensures var r := EvidenceListFrom(l, s).value; forall i :: 0 <= i < |r| ==> IsEvidence(l, r[i])
  {
    hide IsEvidence, EvidenceFrom;
    if s != [] {
      var last := s[|s| - 1];
      ReadListIsAccepted(l, s[..|s| - 1]);
      if last.Object? {
        ReadEvidenceIsAccepted(l, last.fields);
      }
    }
  }

  ghost predicate AreParts(l: Language, p: Parts) {
    && IsCorrelation(l, p.correlation) && p.correlation.kind == Base
    && (forall i :: 0 <= i < |p.evidence| ==> IsEvidence(l, p.evidence[i]))
    && (p.error.Some? ==> IsError(l, p.error.value))
    && (p.approval.Some? ==> IsApproval(l, p.approval.value))
  }

  lemma NewPartsAreAccepted(l: Language, c: Json, retries: Json, most: Json, r: Json, e: Json, a: Json)
    requires NewParts(l, c, retries, most, r, e, a).Success?
    ensures AreParts(l, NewParts(l, c, retries, most, r, e, a).value)
  {
    hide IsCorrelation, IsEvidence, IsError, IsApproval, CorrelationFrom, ErrorFrom, ApprovalFrom, EvidenceListFrom,
      RequireCount;
    ReadCorrelationIsAccepted(l, c.fields);
    if r.List? {
      ReadListIsAccepted(l, r.items);
    }
    if e.Object? {
      ReadErrorIsAccepted(l, e.fields);
    }
    if a.Object? {
      ReadApprovalIsAccepted(l, a.fields);
    }
  }

  lemma ReadTimeIsAccepted(l: Language)
    ensures forall f, j :: OptionalIso(l, f, j).Success? && OptionalIso(l, f, j).value.Some? ==>
              IsTime(l, OptionalIso(l, f, j).value.value)
  {
    hide RequireIso, IsTime;
    ReadTextsAreClean(l);
  }

  lemma AssembledIsAccepted(l: Language, p: Parts, t: Texts, b: Payloads, m: Times, needed: bool)
    requires AreParts(l, p)
    requires IsClean(t.workflowId) && IsText(t.tenantId) && IsText(t.clientId) && IsClean(t.actor) && IsClean(t.role)
    requires IsClean(t.capability) && IsClean(t.key) && IsText(t.taskId)
    requires IsTime(l, m.createdAt) && IsTime(l, m.updatedAt) && IsVersionText(m.version)
    requires m.deadline.Some? ==> IsTime(l, m.deadline.value)
    ensures IsWorkflow(l, Assembled(p, t, b, m, needed))
  {
    hide IsCorrelation, IsEvidence, IsError, IsApproval, IsClean, IsTime, IsVersionText, IsText;
  }

  /** Whatever a dictionary is read as, the constructor would accept. */
  lemma ReadWorkflowIsAccepted(l: Language, j: Json)
    requires FromDict(l, j).Success?
    ensures IsWorkflow(l, FromDict(l, j).value) && FromDict(l, j).value.correlation.kind == Base
  {
    hide RequireText, RequireIso, RequireVersion, OptionalText, OptionalIso, StateNamed, RequireObject, IsClean, IsTime,
      IsVersionText, IsText, IsCorrelation, IsEvidence, IsError, IsApproval, IsTruthy, Get, NewParts, IsWorkflow;
    var o := j.fields;
    NewPartsAreAccepted(l, Get(l, o, Correlation, Object(map[])), Get(l, o, RetryCount, Number(0)),
                        Get(l, o, MaxRetries, Number(DEFAULT_MAX_RETRIES)), Get(l, o, EvidenceRefs, List([])),
                        Get(l, o, ErrorItem, Null), Get(l, o, ApprovalItem, Null));
    ReadTextsAreClean(l);
    ReadTimeIsAccepted(l);
    var p, t, b, m := PartsIn(l, o).value, TextsIn(l, o).value, PayloadsIn(l, o).value, TimesIn(l, o).value;
    AssembledIsAccepted(l, p, t, b, m, IsTruthy(Get(l, o, RequiresApproval, Bool(false))));
  }

  /** Writing what was read and reading it again gives the same workflow. */
  lemma ReadingIsStable(l: Language, j: Json)
    requires IsSound(l) && FromDict(l, j).Success?
    ensures FromDict(l, ToDict(l, FromDict(l, j).value)) == FromDict(l, j)
  {
    hide IsSound, IsWorkflow, FromDict, ToDict;
    ReadWorkflowIsAccepted(l, j);
    StoredWorkflowIsReadBack(l, FromDict(l, j).value);
  }
}
