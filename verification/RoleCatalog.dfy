/** The organization catalog and the bounded-autonomy gate evaluated against it. */
module RoleCatalog {
  import opened Wrappers
  import opened WorkflowStates
  import opened Strings

  const CLASSIFICATIONS: set<string> :=
    {"public", "internal", "client_confidential", "personnel_sensitive", "financial", "regulated_high_risk"}
  const MIN_AUTONOMY_CONFIDENCE: real := 0.75
  const UNRESOLVED := "<unresolved>"
  const ENGINE_ALIASES: map<string, string> := map[
    "wfont" := "wfm", "wf" := "wfm", "cx_engine" := "cx", "crm_engine" := "crm", "b2b_engine" := "b2b",
    "personnel_engine" := "personnel", "runtime" := "control_plane", "control-plane" := "control_plane"]

  /** One seat. Money is in integer cents; no limit means unlimited. */
  datatype RoleSpec = RoleSpec(
    ownedEngines: seq<string>,
    classifications: seq<string>,
    limit: Option<int>,
    oversightOnly: bool)

  /** Seats by canonical id, and crew names that stand for a seat. */
  datatype Organization = Organization(seats: map<string, RoleSpec>, actorAliases: map<string, string>)

  datatype Resolution = Blank | Unresolved | Role(id: string)

  function UnderscoreChar(c: char): char {
    if c == '-' || c == ' ' then '_' else c
  }

  function Underscored(s: string): (r: string)
    ensures |r| == |s|
    ensures forall i :: 0 <= i < |s| ==> r[i] == UnderscoreChar(s[i])
  {
    seq(|s|, i requires 0 <= i < |s| => UnderscoreChar(s[i]))
  }

  /** None stands for the error raised on a blank name. */
  function NormalizeEngine(engine: string): Option<string> {
    if Strip(engine) == "" then None
    else
      var e := Underscored(Strip(Lower(Strip(engine))));
      Some(if e in ENGINE_ALIASES then ENGINE_ALIASES[e] else e)
  }

  /** A name no normalisation step changes. */
  predicate IsPlain(e: string) {
    && e != "" && IsStripped(e)
    && forall i :: 0 <= i < |e| ==> LowerChar(e[i]) == e[i] && UnderscoreChar(e[i]) == e[i]
  }

  lemma PlainIsFixed(e: string)
    requires IsPlain(e)
    ensures NormalizeEngine(e) == Some(if e in ENGINE_ALIASES then ENGINE_ALIASES[e] else e)
  {
    StripIsStripped(e);
    assert Lower(e) == e;
    assert Underscored(e) == e;
  }

  lemma AliasTargetsArePlain(e: string)
    requires e in ENGINE_ALIASES
    ensures IsPlain(ENGINE_ALIASES[e]) && ENGINE_ALIASES[e] !in ENGINE_ALIASES
  {
    var a := ENGINE_ALIASES[e];
    if a == "wfm" || a == "cx" || a == "crm" || a == "b2b" {
    } else if a == "personnel" {
    } else {
      assert a == "control_plane";
    }
  }

  /** The spelling an engine name is looked up under. */
  function Spelling(engine: string): string {
    Underscored(Strip(Lower(Strip(engine))))
  }

  lemma CharIsPlain(c: char)
    ensures LowerChar(UnderscoreChar(LowerChar(c))) == UnderscoreChar(LowerChar(c))
    ensures UnderscoreChar(UnderscoreChar(LowerChar(c))) == UnderscoreChar(LowerChar(c))
    ensures !IsSpace(c) ==> !IsSpace(UnderscoreChar(LowerChar(c)))
  {
  }

  lemma SpellingIsPlain(engine: string)
    requires Strip(engine) != ""
    ensures IsPlain(Spelling(engine))
  {
    var s := Strip(engine);
    StripIsStripped(engine);
    LowerIsIdempotent(s);
    StripIsStripped(Lower(s));
    hide Strip, LowerChar, UnderscoreChar, IsSpace;
    var e := Underscored(Lower(s));
    forall i | 0 <= i < |e|
      ensures LowerChar(e[i]) == e[i] && UnderscoreChar(e[i]) == e[i]
      ensures !IsSpace(s[i]) ==> !IsSpace(e[i])
    {
      CharIsPlain(s[i]);
    }
    hide Lower, Underscored;
    assert Spelling(engine) == e;
  }

  /** Normalising twice, as the submission path does, is harmless. */
  lemma NormalizeEngineIsIdempotent(engine: string)
    requires NormalizeEngine(engine).Some?
    ensures NormalizeEngine(NormalizeEngine(engine).value) == NormalizeEngine(engine)
  {
    SpellingIsPlain(engine);
    var e := Spelling(engine);
    if e in ENGINE_ALIASES {
      AliasTargetsArePlain(e);
      PlainIsFixed(ENGINE_ALIASES[e]);
    } else {
      PlainIsFixed(e);
    }
  }

  function Names(engines: seq<string>): set<Option<string>> {
    set e | e in engines :: NormalizeEngine(e)
  }

  /** None stands for the error raised on a blank engine name. */
  function OwnsEngine(spec: RoleSpec, engine: Option<string>): Option<bool> {
    match engine
    case None => Some(spec.ownedEngines != [])
    case Some(e) =>
      var name := NormalizeEngine(e);
      if name.None? then None else Some(name in Names(spec.ownedEngines))
  }

  function ResolveActorRole(org: Organization, actor: string, fallback: Option<string>): Resolution {
    var key := Strip(Lower(Strip(actor)));
    if Strip(actor) == "" then Blank
    else if key in org.seats then Role(key)
    else if key in org.actorAliases then Role(org.actorAliases[key])
    else if fallback.Some? && fallback.value != "" && Canonical(fallback.value) in org.seats then
      Role(Canonical(fallback.value))
    else Unresolved
  }

  function GetRole(org: Organization, role: string): Option<RoleSpec> {
    var key := Strip(Lower(Strip(role)));
    if Strip(role) == "" || key !in org.seats then None else Some(org.seats[key])
  }

  /** A seat's own id goes before a crew name, a crew name before the fallback. */
  lemma SeatsGoBeforeNames(org: Organization, actor: string, fallback: Option<string>)
    ensures var r, key := ResolveActorRole(org, actor, fallback), Strip(Lower(Strip(actor)));
      && (r.Blank? <==> Strip(actor) == "")
      && (Strip(actor) != "" && key in org.seats ==> r == Role(key))
      && (Strip(actor) != "" && key !in org.seats && key in org.actorAliases ==> r == Role(org.actorAliases[key]))
      && (Strip(actor) != "" && key !in org.seats && key !in org.actorAliases ==>
            && (r.Role? ==> fallback.Some? && r.id == Canonical(fallback.value) && r.id in org.seats)
            && (fallback.Some? && fallback.value != "" && Canonical(fallback.value) in org.seats ==> r.Role?))
  {
    hide Strip, Lower, Canonical;
  }

  predicate IsLower(s: string) {
    forall i :: 0 <= i < |s| ==> LowerChar(s[i]) == s[i]
  }

  lemma {:induction false} StrippedLeftIsLower(s: string)
    requires IsLower(s)
    ensures IsLower(StripLeft(s))
  {
    if s != "" && IsSpace(s[0]) {
      StrippedLeftIsLower(s[1..]);
    }
  }

  lemma {:induction false} StrippedRightIsLower(s: string)
    requires IsLower(s)
    ensures IsLower(StripRight(s))
  {
    if s != "" && IsSpace(s[|s| - 1]) {
      StrippedRightIsLower(s[..|s| - 1]);
    }
  }

  /** A canonical name is its own canonical form, as the catalog looks it up. */
  lemma CanonicalIsFound(s: string)
    ensures var key := Strip(Lower(s)); Strip(key) == key && Lower(key) == key
  {
    assert IsLower(Lower(s));
    StrippedLeftIsLower(Lower(s));
    StrippedRightIsLower(StripLeft(Lower(s)));
    StripIsStripped(Lower(s));
    var key := Strip(Lower(s));
    hide Strip, StripLeft, StripRight, LowerChar;
    StripIsStripped(key);
    assert Lower(key) == key;
  }

  /** Whoever resolves to a role resolves to one the catalog has, as long as no crew name stands for an unknown seat. */
  lemma ResolvedRoleIsFound(org: Organization, actor: string, fallback: Option<string>)
    requires "" !in org.seats
    requires forall name :: name in org.actorAliases ==> GetRole(org, org.actorAliases[name]).Some?
    requires ResolveActorRole(org, actor, fallback).Role?
    ensures GetRole(org, ResolveActorRole(org, actor, fallback).id).Some?
  {
    hide Strip, Lower;
    CanonicalIsFound(Strip(actor));
    if fallback.Some? {
      CanonicalIsFound(fallback.value);
    }
  }

  datatype ReasonCode =
    | UnknownRole
    | UnknownClassification
    | ClassificationNotPermitted
    | AccessDenied
    | FinancialLimitExceeded
    | LowConfidence
    | ApprovalRequested
    | OversightOnly
    | WithinBounds

  datatype Decision = Decision(
    allowed: bool,
    requiresHumanApproval: bool,
    code: ReasonCode,
    state: State,
    cost: int,
    limit: Option<int>)

  /** What a task puts before the gate. A value that is no amount, or no confidence, is None. */
  datatype Proposal = Proposal(
    role: string,
    cost: Option<int>,
    confidence: Option<real>,
    classification: string,
    engine: Option<string>,
    requiresApproval: bool)

  datatype Verdict = Raised | Decided(decision: Decision)

  function Deny(code: ReasonCode, cost: int, limit: Option<int>): Verdict {
    Decided(Decision(false, false, code, DeadLetter, cost, limit))
  }

  function Hold(code: ReasonCode, cost: int, limit: Option<int>): Verdict {
    Decided(Decision(true, true, code, AwaitingApproval, cost, limit))
  }

  function EvaluateGate(org: Organization, p: Proposal): Verdict {
    if p.cost.None? || p.cost.value < 0 then Raised
    else if p.confidence.None? || !(0.0 <= p.confidence.value <= 1.0) then Raised
    else
      var cost := p.cost.value;
      match GetRole(org, p.role)
      case None => Deny(UnknownRole, cost, None)
      case Some(spec) =>
        if p.classification !in CLASSIFICATIONS then Deny(UnknownClassification, cost, spec.limit)
        else if p.classification !in spec.classifications then Deny(ClassificationNotPermitted, cost, spec.limit)
        else if p.engine.Some? && OwnsEngine(spec, p.engine).None? then Raised
        else if p.engine.Some? && !OwnsEngine(spec, p.engine).value then Deny(AccessDenied, cost, spec.limit)
        else if spec.limit.Some? && cost > spec.limit.value then Hold(FinancialLimitExceeded, cost, spec.limit)
        else if p.confidence.value < MIN_AUTONOMY_CONFIDENCE then Hold(LowConfidence, cost, spec.limit)
        else if p.requiresApproval then Hold(ApprovalRequested, cost, spec.limit)
        else if spec.oversightOnly then Deny(OversightOnly, cost, spec.limit)
        else Decided(Decision(true, false, WithinBounds, Executing, cost, spec.limit))
  }

  /** The gate lets the task run without a human. */
  predicate RunsAlone(org: Organization, p: Proposal) {
    var v := EvaluateGate(org, p);
    v.Decided? && v.decision.state == Executing
  }

  /** The three verdicts are told apart by the flags the callers look at. */
  lemma VerdictFlags(org: Organization, p: Proposal)
    requires EvaluateGate(org, p).Decided?
    ensures var d := EvaluateGate(org, p).decision;
      && (d.state == DeadLetter <==> !d.allowed)
      && (d.state == AwaitingApproval <==> d.requiresHumanApproval)
      && (d.state == Executing <==> d.allowed && !d.requiresHumanApproval)
      && (d.state == Executing ==> !p.requiresApproval)
  {
  }

  /** Some owned engine has the same name once both are normalised. */
  predicate OwnsByName(spec: RoleSpec, engine: string) {
    exists i :: 0 <= i < |spec.ownedEngines| && NormalizeEngine(spec.ownedEngines[i]) == NormalizeEngine(engine)
  }

  /** Ownership goes by the normalised name, and a blank name is owned by nobody. */
  lemma OwnershipIsByName(spec: RoleSpec, engine: string)
    ensures OwnsEngine(spec, Some(engine)) == Some(true) <==> Strip(engine) != "" && OwnsByName(spec, engine)
    ensures OwnsEngine(spec, Some(engine)).None? <==> Strip(engine) == ""
  {
    hide Strip, Underscored;
    if OwnsByName(spec, engine) && Strip(engine) != "" {
      var i :| 0 <= i < |spec.ownedEngines| && NormalizeEngine(spec.ownedEngines[i]) == NormalizeEngine(engine);
      assert spec.ownedEngines[i] in spec.ownedEngines;
    }
  }

  /** A known seat, cleared for the data and owning the engine, if one is named. */
  predicate IsCleared(org: Organization, p: Proposal) {
    var spec := GetRole(org, p.role);
    && spec.Some?
    && p.classification in CLASSIFICATIONS && p.classification in spec.value.classifications
    && (p.engine.Some? ==> OwnsByName(spec.value, p.engine.value))
  }

  lemma ClearedIsSeated(org: Organization, p: Proposal)
    requires IsCleared(org, p)
    ensures GetRole(org, p.role).Some?
  {
  }

  /** Too costly for the seat, too unsure, or submitted for approval. */
  predicate CrossesBoundary(org: Organization, p: Proposal)
    requires p.cost.Some? && p.confidence.Some? && GetRole(org, p.role).Some?
  {
    var limit := GetRole(org, p.role).value.limit;
    || (limit.Some? && p.cost.value > limit.value)
    || p.confidence.value < MIN_AUTONOMY_CONFIDENCE
    || p.requiresApproval
  }

  /**
    * The verdict by what is true of the task. Holds come before the oversight denial, so an oversight-only seat's
    * task that crosses a boundary waits for a human like anybody's.
    */
  lemma GateDecidesExactly(org: Organization, p: Proposal)
    requires EvaluateGate(org, p).Decided?
    ensures p.cost.Some? && p.confidence.Some?
    ensures var state := EvaluateGate(org, p).decision.state;
      if !IsCleared(org, p) then state == DeadLetter
      else if CrossesBoundary(org, p) then state == AwaitingApproval
      else state == if GetRole(org, p.role).value.oversightOnly then DeadLetter else Executing
  {
    hide GetRole, OwnsEngine, OwnsByName, Strip;
    var spec := GetRole(org, p.role);
    if spec.Some? && p.engine.Some? {
      OwnershipIsByName(spec.value, p.engine.value);
    }
  }

  /** Why the gate decided as it did: the first of its rules that the task meets, and the seat's own limit. */
  lemma GateSaysWhy(org: Organization, p: Proposal)
    requires EvaluateGate(org, p).Decided?
    ensures p.cost.Some? && p.confidence.Some?
    ensures var d, seat := EvaluateGate(org, p).decision, GetRole(org, p.role);
      && d.cost == p.cost.value
      && (seat.None? <==> d.code == UnknownRole)
      && (seat.Some? ==>
            && d.limit == seat.value.limit
            && (d.code == UnknownClassification <==> p.classification !in CLASSIFICATIONS)
            && (d.code == ClassificationNotPermitted <==>
                  p.classification in CLASSIFICATIONS && p.classification !in seat.value.classifications)
            && (d.code == AccessDenied ==> p.engine.Some? && !OwnsByName(seat.value, p.engine.value))
            && (IsCleared(org, p) ==>
                  var over := seat.value.limit.Some? && p.cost.value > seat.value.limit.value;
                  && (d.code == FinancialLimitExceeded <==> over)
                  && (d.code == LowConfidence <==> !over && p.confidence.value < 0.75)
                  && (d.code == ApprovalRequested <==> !over && p.confidence.value >= 0.75 && p.requiresApproval)
                  && (d.code == OversightOnly <==> !CrossesBoundary(org, p) && seat.value.oversightOnly)
                  && (d.code == WithinBounds <==> !CrossesBoundary(org, p) && !seat.value.oversightOnly)))
  {
    hide GetRole, OwnsEngine, OwnsByName, Strip;
    var spec := GetRole(org, p.role);
    if spec.Some? && p.engine.Some? {
      OwnershipIsByName(spec.value, p.engine.value);
    }
  }

  /** An engine that none of the seat's normalises to is denied, whatever else is true of the task. */
  lemma ForeignEngineIsDenied(org: Organization, p: Proposal)
    requires EvaluateGate(org, p).Decided? && p.engine.Some? && GetRole(org, p.role).Some?
    requires var owned := GetRole(org, p.role).value.ownedEngines;
      forall i :: 0 <= i < |owned| ==> NormalizeEngine(owned[i]) != NormalizeEngine(p.engine.value)
    ensures EvaluateGate(org, p).decision.state == DeadLetter && !EvaluateGate(org, p).decision.allowed
  {
    hide EvaluateGate, GetRole, NormalizeEngine;
    GateDecidesExactly(org, p);
    VerdictFlags(org, p);
  }

  /** Autonomy is lost, never gained, by costing more, being less sure or asking for a human. */
  lemma AutonomyIsMonotone(org: Organization, p: Proposal, safer: Proposal)
    requires RunsAlone(org, p)
    requires safer.role == p.role && safer.classification == p.classification && safer.engine == p.engine
    requires safer.cost.Some? && 0 <= safer.cost.value <= p.cost.value
    requires safer.confidence.Some? && p.confidence.value <= safer.confidence.value <= 1.0
    requires !safer.requiresApproval
    ensures RunsAlone(org, safer)
  {
  }

  /** An oversight-only seat is never handed a task to run, whatever the task looks like. */
  lemma OversightNeverRunsAlone(org: Organization, p: Proposal)
    requires GetRole(org, p.role).Some? && GetRole(org, p.role).value.oversightOnly
    ensures !RunsAlone(org, p)
  {
  }
}
