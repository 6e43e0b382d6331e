/** The persisted halt flag: what engaging and releasing it do to the halt table and the audit trail. */
module KillSwitch {
  import opened Wrappers
  import opened Strings

  const GLOBAL_SCOPE := "*"

  datatype Halt = Halt(reason: string, actor: string, engagedAt: string)

  /** The trail records that matter here; every other record is Foreign. */
  datatype TrailEntry =
    | Engaged(tenant: Option<string>, reason: string, actor: string)
    | Released(tenant: Option<string>, wasEngaged: bool, actor: string)
    | Foreign(body: string)

  datatype Switch = Switch(halts: map<string, Halt>, trail: seq<TrailEntry>)

  /** None stands for the error raised on a blank or reserved tenant id. */
  function ScopeFor(tenant: Option<string>): Option<string> {
    match tenant
    case None => Some(GLOBAL_SCOPE)
    case Some(t) => if Strip(t) == "" || Strip(t) == GLOBAL_SCOPE then None else Some(Strip(t))
  }

  /** Whether committal work for the tenant is refused; an unreadable flag reads as halted. */
  predicate IsHalted(halts: map<string, Halt>, tenant: Option<string>) {
    || (tenant.Some? && Strip(tenant.value) == "")
    || GLOBAL_SCOPE in halts
    || (tenant.Some? && Strip(tenant.value) in halts)
  }

  predicate CanEngage(reason: string, actor: string, tenant: Option<string>) {
    Strip(reason) != "" && Strip(actor) != "" && ScopeFor(tenant).Some?
  }

  /** The record is written first; without it there is no halt. */
  function Engage(s: Switch, reason: string, actor: string, tenant: Option<string>, at: string,
                  auditLands: bool): Switch {
    if !CanEngage(reason, actor, tenant) || !auditLands then s
    else Switch(s.halts[ScopeFor(tenant).value := Halt(Strip(reason), Strip(actor), at)],
                s.trail + [Engaged(tenant, Strip(reason), Strip(actor))])
  }

  predicate CanRelease(actor: string, tenant: Option<string>) {
    Strip(actor) != "" && ScopeFor(tenant).Some?
  }

  /** The halt is lifted first; the record follows if it can. */
  function Release(s: Switch, actor: string, tenant: Option<string>, auditLands: bool): Switch {
    if !CanRelease(actor, tenant) then s
    else
      var scope := ScopeFor(tenant).value;
      Switch(s.halts - {scope},
             if auditLands then s.trail + [Released(tenant, scope in s.halts, Strip(actor))] else s.trail)
  }

  /** Every halt in force was put on the trail, with its reason and actor, before it took effect. */
  ghost predicate EveryHaltRecorded(s: Switch) {
    forall scope :: scope in s.halts ==>
      exists i :: 0 <= i < |s.trail| && Records(s.trail[i], scope, s.halts[scope])
  }

  predicate Records(e: TrailEntry, scope: string, h: Halt) {
    e.Engaged? && ScopeFor(e.tenant) == Some(scope) && e.reason == h.reason && e.actor == h.actor
  }

  lemma TrailGrowthKeepsRecords(s: Switch, trail: seq<TrailEntry>)
    requires EveryHaltRecorded(s)
    requires s.trail <= trail
    ensures EveryHaltRecorded(s.(trail := trail))
  {
    forall scope | scope in s.halts
      ensures exists i :: 0 <= i < |trail| && Records(trail[i], scope, s.halts[scope])
    {
      var i :| 0 <= i < |s.trail| && Records(s.trail[i], scope, s.halts[scope]);
      assert trail[i] == s.trail[i];
    }
  }

  lemma EngageKeepsRecords(s: Switch, reason: string, actor: string, tenant: Option<string>, at: string,
                           auditLands: bool)
    requires EveryHaltRecorded(s)
    ensures EveryHaltRecorded(Engage(s, reason, actor, tenant, at, auditLands))
  {
    if CanEngage(reason, actor, tenant) && auditLands {
      var after := Engage(s, reason, actor, tenant, at, auditLands);
      TrailGrowthKeepsRecords(s, after.trail);
      var scope := ScopeFor(tenant).value;
      assert Records(after.trail[|s.trail|], scope, after.halts[scope]);
    }
  }

  lemma ReleaseKeepsRecords(s: Switch, actor: string, tenant: Option<string>, auditLands: bool)
    requires EveryHaltRecorded(s)
    ensures EveryHaltRecorded(Release(s, actor, tenant, auditLands))
  {
    TrailGrowthKeepsRecords(s, Release(s, actor, tenant, auditLands).trail);
  }

  /** An engagement that is recorded halts its tenant, or everybody, and nobody else. */
  lemma EngageHaltsExactly(s: Switch, reason: string, actor: string, tenant: Option<string>, at: string,
                           other: Option<string>)
    requires CanEngage(reason, actor, tenant)
    ensures IsHalted(Engage(s, reason, actor, tenant, at, true).halts, other) <==>
            || IsHalted(s.halts, other)
            || tenant.None?
            || (other.Some? && Strip(other.value) == Strip(tenant.value))
    ensures Engage(s, reason, actor, tenant, at, false) == s
  {
    hide Strip;
  }

  /** A release lifts the one halt it names, whether or not its own record lands. */
  lemma ReleaseLiftsExactly(s: Switch, actor: string, tenant: Option<string>, auditLands: bool, other: Option<string>)
    requires CanRelease(actor, tenant)
    ensures IsHalted(Release(s, actor, tenant, auditLands).halts, other) <==>
            || (other.Some? && Strip(other.value) == "")
            || (tenant.Some? && GLOBAL_SCOPE in s.halts)
            || (other.Some? && Strip(other.value) in s.halts && Some(Strip(other.value)) != ScopeFor(tenant))
  {
    hide Strip;
  }
}
