/** The workflow engine as the object that drives the stored workflows, each call with its counterpart on values. */
module Engine {
  import opened Wrappers
  import opened WorkflowStates
  import opened Records
  import opened RoleCatalog
  import opened EventStore
  import opened ControlPlane
  import E = EngineSpec
  import A = AuditTrail
  import K = KillSwitch
  import Strings

  /** The rows of the table, each with its events and what was done for it. */
  ghost function CasesOf(workflows: map<string, Row>, events: seq<EventRow>, calls: map<string, seq<E.HandlerOutcome>>,
                         requests: map<string, E.TaskRequest>): map<string, E.Case>
  {
    map id | id in workflows && id in calls && id in requests ::
      E.Case(workflows[id], Log(events, id), calls[id], requests[id])
  }

  /** One more event belongs to one workflow's case and to no other. */
  lemma EventGoesToItsCase(workflows: map<string, Row>, events: seq<EventRow>, calls: map<string, seq<E.HandlerOutcome>>,
                           requests: map<string, E.TaskRequest>, e: EventRow)
    requires e.aggregate in workflows && e.aggregate in calls && e.aggregate in requests
    ensures var before := CasesOf(workflows, events, calls, requests);
      var c := before[e.aggregate];
      CasesOf(workflows, events + [e], calls, requests) == before[e.aggregate := c.(log := c.log + [e.event])]
  {
    hide Log;
    var before, after := CasesOf(workflows, events, calls, requests), CasesOf(workflows, events + [e], calls, requests);
    var grown := before[e.aggregate := before[e.aggregate].(log := before[e.aggregate].log + [e.event])];
    forall id | id in after
      ensures id in grown && after[id] == grown[id]
    {
      LogGrows(events, e, id);
    }
    assert after == grown;
  }

  /** A row rewritten, or added with no history, changes that case alone. */
  lemma RowGoesToItsCase(workflows: map<string, Row>, events: seq<EventRow>, calls: map<string, seq<E.HandlerOutcome>>,
                         requests: map<string, E.TaskRequest>, id: string, row: Row)
    requires id in calls && id in requests
    ensures CasesOf(workflows[id := row], events, calls, requests) ==
            CasesOf(workflows, events, calls, requests)[id := E.Case(row, Log(events, id), calls[id], requests[id])]
  {
    hide Log;
  }

  /** A new workflow starts with no history. */
  lemma AdmittedToItsCase(workflows: map<string, Row>, events: seq<EventRow>, calls: map<string, seq<E.HandlerOutcome>>,
                          requests: map<string, E.TaskRequest>, row: Row, req: E.TaskRequest)
    requires row.workflowId !in workflows && Log(events, row.workflowId) == []
    ensures var id := row.workflowId;
      CasesOf(workflows[id := row], events, calls[id := []], requests[id := req]) ==
      CasesOf(workflows, events, calls, requests)[id := E.Case(row, [], [], req)]
  {
    hide Log;
  }

  /** One more handler call, likewise. */
  lemma CallGoesToItsCase(workflows: map<string, Row>, events: seq<EventRow>, calls: map<string, seq<E.HandlerOutcome>>,
                          requests: map<string, E.TaskRequest>, id: string, out: E.HandlerOutcome)
    requires id in workflows && id in calls && id in requests
    ensures var before := CasesOf(workflows, events, calls, requests);
      CasesOf(workflows, events, calls[id := calls[id] + [out]], requests) == before[id := E.Called(before[id], out)]
  {
    hide Log;
    var before := CasesOf(workflows, events, calls, requests);
    var after := CasesOf(workflows, events, calls[id := calls[id] + [out]], requests);
    assert after[id] == E.Called(before[id], out);
  }

  class WorkflowEngine {
    const store: Store
    const trail: Trail
    const killSwitch: HaltSwitch
    const wiring: E.Wiring
    var handlers: set<string>
    /** The tip of the trail as last seen by this engine, once it has looked. */
    var tip: Option<A.Tip>
    ghost var calls: map<string, seq<E.HandlerOutcome>>
    ghost var requests: map<string, E.TaskRequest>

    constructor (store: Store, trail: Trail, killSwitch: HaltSwitch, wiring: E.Wiring)
      requires store.Valid() && store.workflows == map[] && trail.Valid()
      requires killSwitch.store == store && killSwitch.trail == trail
      ensures this.store == store && this.trail == trail
      ensures Valid()
      ensures Cases() == map[]
      ensures handlers == {} && tip == None
    {
      this.store, this.trail, this.killSwitch, this.wiring := store, trail, killSwitch, wiring;
      handlers, tip, calls, requests := {}, None, map[], map[];
    }

    ghost predicate Valid()
      reads this, store, trail
    {
      && store.Valid() && trail.Valid()
      && killSwitch.store == store && killSwitch.trail == trail
      && calls.Keys == store.workflows.Keys && requests.Keys == store.workflows.Keys
    }

    /** Every stored workflow, with its replay and what was done for it. */
    ghost function Cases(): map<string, E.Case>
      reads store, this`calls, this`requests
    {
      CasesOf(store.workflows, store.events, calls, requests)
    }

    ghost function Value(): E.World
      reads store, this`calls, this`requests, this`handlers
    {
      E.World(Cases(), store.byKey, handlers, K.Switch(store.halts, []))
    }

    /** One workflow has come to c while every other is as in base. */
    ghost predicate Holding(base: map<string, E.Case>, c: E.Case)
      reads this, store, trail
    {
      Valid() && c.row.workflowId in store.workflows && Cases() == base[c.row.workflowId := c]
    }

    // -------------------------------------------------------------- building blocks

    /** An event carries the actor's name, and cannot be made without one. */
    method EmitEvent(id: string, kind: E.EventType, actor: string, lost: bool,
                     ghost base: map<string, E.Case>, ghost c: E.Case)
      returns (ok: bool)
      requires Holding(base, c) && id == c.row.workflowId
      modifies store`events, store`nextEventId
      ensures ok <==> Strings.Strip(actor) != ""
      ensures Holding(base, if ok then c.(log := c.log + [E.Event(kind, |c.log|, Strings.Strip(actor), lost)]) else c)
    {
      hide IsDense, Log, CasesOf, IsProper, Strings.Strip;
      CaseIsStored(base, c);
      var sequence := store.GetNextSequence(id);
      var name := Strings.Strip(actor);
      ok := name != "";
      if !ok {
        return;
      }
      var e := EventRow(store.nextEventId, id, E.Event(kind, sequence, name, lost));
      store.nextEventId := store.nextEventId + 1;
      EventGoesToItsCase(store.workflows, store.events, calls, requests, e);
      var r := store.AppendEvent(e);
    }

    /** What the tables say of the workflow at hand. */
    lemma CaseIsStored(base: map<string, E.Case>, c: E.Case)
      requires Holding(base, c)
      ensures var id := c.row.workflowId;
        && id in store.workflows && id in calls && id in requests
        && c == E.Case(store.workflows[id], Log(store.events, id), calls[id], requests[id])
        && Cases()[id] == c
        && IsProper(c.row)
    {
      hide IsDense, Log, IsProper;
      assert Cases()[c.row.workflowId] == c;
    }

    /** The actor and role at hand have names. */
    lemma CaseIsProper(base: map<string, E.Case>, c: E.Case)
      requires Holding(base, c)
      ensures IsProper(c.row)
      ensures Strings.IsName(E.SYSTEM)
    {
      hide IsProper;
      CaseIsStored(base, c);
    }

    /** Store the workflow as the caller holds it. */
    method Save(w: Workflow, ghost base: map<string, E.Case>, ghost c: E.Case)
      requires Holding(base, c) && w.row.workflowId == c.row.workflowId && IsProper(w.row)
      modifies store`workflows
      ensures Holding(base, c.(row := w.row))
    {
      hide IsDense, Log, CasesOf, IsProper;
      CaseIsStored(base, c);
      RowGoesToItsCase(store.workflows, store.events, calls, requests, w.row.workflowId, w.row);
      var ok := store.UpdateWorkflow(w);
    }

    /** A checked transition, stored and announced. */
    method MoveTo(w: Workflow, to: State, actor: string, now: string, ghost base: map<string, E.Case>, ghost c: E.Case)
      requires Holding(base, c) && w.row == c.row && IsValidTransition(c.row.state, to) && Strings.IsName(actor)
      modifies w, store`workflows, store`events, store`nextEventId
      ensures Holding(base, E.Enter(c, to, actor, now)) && w.row == E.Enter(c, to, actor, now).row
    {
      hide Holding, Strings.Strip;
      CaseIsProper(base, c);
      var ok := w.Transition(to, now);
      Save(w, base, c);
      ok := EmitEvent(w.row.workflowId, E.Entered(to), actor, false, base, c.(row := w.row));
    }

    /** The same with an error on the record, where there is one, and an event telling why. */
    method MoveAfter(w: Workflow, to: State, error: Option<AgentError>, why: E.EventType, actor: string, now: string,
                     ghost base: map<string, E.Case>, ghost c: E.Case, ghost noted: E.Case)
      requires Holding(base, c) && w.row == c.row && IsValidTransition(c.row.state, to) && Strings.IsName(actor)
      requires noted == if error.Some? then c.(row := c.row.(error := error)) else c
      modifies w, store`workflows, store`events, store`nextEventId
      ensures Holding(base, E.EnterAfter(noted, to, why, actor, now))
      ensures w.row == E.EnterAfter(noted, to, why, actor, now).row
    {
      hide Holding, Strings.Strip;
      CaseIsProper(base, c);
      var ok := w.Transition(to, now);
      if error.Some? {
        w.row := w.row.(error := error);
      }
      Save(w, base, c);
      ghost var moved := c.(row := w.row);
      ok := EmitEvent(w.row.workflowId, why, actor, false, base, moved);
      ok := EmitEvent(w.row.workflowId, E.Entered(to), actor, false, base, E.Emit(moved, why, actor));
    }

    /** Read the tip at most once; after that it is remembered from the last record written. */
    method ChainTip() returns (t: A.Tip)
      modifies this`tip
      ensures tip == Some(t)
      ensures old(tip).Some? ==> tip == old(tip)
      ensures old(tip).None? ==> t == A.TipOf(trail.records)
    {
      if tip.None? {
        t := trail.LastHash();
        tip := Some(t);
      }
      t := tip.value;
    }

    /**
      * Append one audit record, retrying once on a stale tip; the trail may also be out of reach altogether. The
      * record of a write that failed is not on the trail.
      */
    method Audit(body: string) returns (ok: bool, ghost operation: nat)
      requires Valid()
      modifies trail, this`tip
      ensures Valid()
      ensures old(trail.records) <= trail.records
      ensures ok <==> A.IsOn(trail.records, operation)
      ensures !A.IsOn(old(trail.records), operation)
      ensures ok ==> trail.records != [] && trail.records[|trail.records| - 1].entry == K.Foreign(body)
      ensures ok ==> tip == Some(A.TipOf(trail.records))
    {
      hide Trail.Valid, Store.Valid, A.IsOn, A.TipOf;
      var reachable: bool := *;
      if !reachable {
        operation := trail.Draw();
        return false, operation;
      }
      var remembered := ChainTip();
      var current := "";
      ghost var before, during;
      ok, current, operation, before, during := trail.Write(K.Foreign(body), remembered);
      if ok {
        tip := Some(Some(current));
      }
    }

    /** A lost consequential audit write: dead-letter, from wherever the workflow is. */
    method FailClosed(w: Workflow, now: string, ghost base: map<string, E.Case>, ghost c: E.Case)
      requires Holding(base, c) && w.row == c.row
      modifies w, store`workflows, store`events, store`nextEventId
      ensures Holding(base, E.FailClosed(c, now)) && w.row == E.FailClosed(c, now).row
    {
      hide Holding, Strings.Strip;
      CaseIsProper(base, c);
      w.row := w.row.(error := Some(E.ErrorFor(w.row, DependencyUnavailable, E.AUDIT_LOST, now)));
      w.row := w.row.(state := DeadLetter);
      Save(w, base, c);
      var emitted := EmitEvent(w.row.workflowId, E.Entered(DeadLetter), E.SYSTEM, true, base, c.(row := w.row));
    }

    /** A consequential audit write, failing the workflow closed if it is lost. */
    method AuditOrFail(w: Workflow, p: E.AuditPoint, now: string, ghost base: map<string, E.Case>, ghost c: E.Case)
      returns (ok: bool)
      requires Holding(base, c) && w.row == c.row
      modifies w, store`workflows, store`events, store`nextEventId, trail, this`tip
      ensures var after := E.Audited(c, p, if ok then {p} else {}, now);
        Holding(base, after) && w.row == after.row
    {
      hide E.FailClosed, A.IsOn, A.IsTree, A.IsHashed, A.IsHash;
      ghost var operation;
      ok, operation := Audit(w.row.workflowId);
      assert Holding(base, c);
      hide Holding;
      if !ok {
        FailClosed(w, now, base, c);
      }
    }

    /** Whether committal work is refused; the refusal itself is put on the trail. */
    method EnforceNotHalted(tenant: Option<string>) returns (halted: bool)
      requires Valid()
      modifies trail, this`tip
      ensures Valid()
      ensures halted == K.IsHalted(store.halts, tenant)
    {
      hide K.IsHalted, Store.Valid, Trail.Valid, A.IsOn;
      halted := killSwitch.IsHalted(tenant);
      if halted {
        var recorded, operation := Audit("");
      }
    }

    // -------------------------------------------------------------- submit

    /** The checked part of a submission, from the created workflow to the end of the call. */
    method Launch(w: Workflow, req: E.TaskRequest, now: string, late: bool, ghost base: map<string, E.Case>)
      returns (answer: E.Answer, ghost landed: set<E.AuditPoint>)
      requires Holding(base, E.Case(w.row, [], [], req)) && w.row.state == Proposed
      requires w.row.requestingActor == req.requestingActor
      modifies w, store`workflows, store`events, store`nextEventId, trail, this`tip
      ensures var t := E.Launch(wiring, req, old(w.row), now, late, landed);
        Holding(base, t.after) && answer == t.answer
    {
      hide Holding, E.PassGate, Strings.Strip;
      ghost var c := E.Case(w.row, [], [], req);
      CaseIsProper(base, c);
      var actor := req.requestingActor;
      var ok := EmitEvent(w.row.workflowId, E.Entered(Proposed), actor, false, base, c);
      c := E.Emit(c, E.Entered(Proposed), actor);
      ok := AuditOrFail(w, E.OnCreated, now, base, c);
      if !ok {
        return E.Returned, {};
      }
      MoveTo(w, Validated, actor, now, base, c);
      c := E.Enter(c, Validated, actor, now);
      ok := AuditOrFail(w, E.OnValidated, now, base, c);
      if !ok {
        return E.Returned, {E.OnCreated};
      }
      ghost var more;
      answer, more := PassGate(w, req, now, late, base, c);
      landed := {E.OnCreated, E.OnValidated} + more;
      GateAsksOnlyOfStarting(wiring, c, now, late, more, landed);
    }

    /** The gate, the deadline, and the start of work or the wait for an approval. */
    method PassGate(w: Workflow, req: E.TaskRequest, now: string, late: bool, ghost base: map<string, E.Case>,
                    ghost c: E.Case)
      returns (answer: E.Answer, ghost landed: set<E.AuditPoint>)
      requires Holding(base, c) && w.row == c.row && w.row.state == Validated
      requires req == c.request && w.row.requestingActor == req.requestingActor
      modifies w, store`workflows, store`events, store`nextEventId, trail, this`tip
      ensures var t := E.PassGate(wiring, c, now, late, landed); Holding(base, t.after) && answer == t.answer
      ensures landed <= {E.OnExecuting}
    {
      hide Holding, E.ProposalFor, E.Emit, Strings.Strip;
      CaseIsProper(base, c);
      var actor := w.row.requestingActor;
      landed := {};
      answer := E.Returned;
      var v := wiring.gate(E.ProposalFor(wiring, req));
      if v.Raised? {
        return E.Raised(E.GateRaised), {};
      }
      var d := v.decision;
      if !d.allowed {
        w.row := w.row.(error := Some(E.ErrorFor(w.row, PolicyDenied, E.GATE_REFUSED, now)));
        ghost var e := E.WithError(c, PolicyDenied, E.GATE_REFUSED, now);
        MoveNoted(w, Failed, actor, now, base, c, e);
        EnteredRow(e, Failed, actor, now);
        MoveTo(w, DeadLetter, E.SYSTEM, now, base, E.Enter(e, Failed, actor, now));
        return;
      }
      if d.requiresHumanApproval {
        w.row := w.row.(requiresApproval := true);
        MoveNoted(w, AwaitingApproval, actor, now, base, c, c.(row := c.row.(requiresApproval := true)));
        return;
      }
      if E.IsPastDeadline(w.row, late) {
        MoveAfter(w, DeadLetter, Some(E.ErrorFor(w.row, Timeout, E.LATE_BEFORE, now)), E.TimedOut, E.SYSTEM, now,
                  base, c, E.WithError(c, Timeout, E.LATE_BEFORE, now));
        return;
      }
      if w.row.requiresApproval {
        MoveTo(w, AwaitingApproval, actor, now, base, c);
        return;
      }
      MoveTo(w, Executing, actor, now, base, c);
      var ok := AuditOrFail(w, E.OnExecuting, now, base, E.Enter(c, Executing, actor, now));
      landed := if ok then {E.OnExecuting} else {};
    }

    /** A transition of a workflow on which something else has just been noted, stored together with it. */
    method MoveNoted(w: Workflow, to: State, actor: string, now: string, ghost base: map<string, E.Case>,
                     ghost c: E.Case, ghost noted: E.Case)
      requires Holding(base, c) && w.row == noted.row && IsValidTransition(noted.row.state, to)
      requires noted == c.(row := noted.row) && noted.row.workflowId == c.row.workflowId
      requires IsProper(noted.row) && Strings.IsName(actor)
      modifies w, store`workflows, store`events, store`nextEventId
      ensures Holding(base, E.Enter(noted, to, actor, now)) && w.row == E.Enter(noted, to, actor, now).row
    {
      hide Holding, Strings.Strip;
      var ok := w.Transition(to, now);
      Save(w, base, c);
      ok := EmitEvent(w.row.workflowId, E.Entered(to), actor, false, base, c.(row := w.row));
    }

    // -------------------------------------------------------------- approve

    method Grant(w: Workflow, approver: string, now: string, ghost base: map<string, E.Case>, ghost c: E.Case,
                 ghost signed: E.Case)
      returns (ghost landed: set<E.AuditPoint>)
      requires Holding(base, c) && w.row == signed.row && signed.row.state == AwaitingApproval
      requires signed == c.(row := signed.row) && signed.row.workflowId == c.row.workflowId
      requires IsProper(signed.row) && Strings.IsName(approver)
      modifies w, store`workflows, store`events, store`nextEventId, trail, this`tip
      ensures Holding(base, E.Grant(signed, approver, now, landed))
    {
      hide Holding, E.Emit, Strings.Strip;
      var ok := w.Transition(WorkflowStates.Approved, now);
      Save(w, base, c);
      ghost var moved := c.(row := w.row);
      ok := EmitEvent(w.row.workflowId, E.ApprovalGranted, approver, false, base, moved);
      Emitted(moved, E.ApprovalGranted, approver);
      ok := EmitEvent(w.row.workflowId, E.Entered(WorkflowStates.Approved), approver, false, base,
                E.Emit(moved, E.ApprovalGranted, approver));
      Emitted(E.Emit(moved, E.ApprovalGranted, approver), E.Entered(WorkflowStates.Approved), approver);
      ghost var approved := E.EnterAfter(signed, WorkflowStates.Approved, E.ApprovalGranted, approver, now);
      ok := AuditOrFail(w, E.OnGranted, now, base, approved);
      if !ok {
        return {};
      }
      MoveTo(w, Executing, approver, now, base, approved);
      ok := AuditOrFail(w, E.OnExecuting, now, base, E.Enter(approved, Executing, approver, now));
      landed := if ok then {E.OnGranted, E.OnExecuting} else {E.OnGranted};
    }

    method Decline(w: Workflow, a: Approval, now: string, ghost base: map<string, E.Case>, ghost c: E.Case,
                   ghost signed: E.Case)
      returns (ghost landed: set<E.AuditPoint>)
      requires Holding(base, c) && w.row == signed.row && signed.row.state == AwaitingApproval
      requires signed == c.(row := signed.row) && signed.row.workflowId == c.row.workflowId
      requires IsProper(signed.row) && Strings.IsName(a.approverActor)
      modifies w, store`workflows, store`events, store`nextEventId, trail, this`tip
      ensures Holding(base, E.Decline(signed, a, now, landed))
    {
      hide Holding, E.Emit, Strings.Strip;
      var ok := w.Transition(DeadLetter, now);
      w.row := w.row.(error := Some(E.ErrorFor(w.row, ErrorCode.ApprovalDenied, E.DECLINED + a.reason, now)));
      Save(w, base, c);
      ghost var moved := c.(row := w.row);
      ok := EmitEvent(w.row.workflowId, E.ApprovalRefused, a.approverActor, false, base, moved);
      Emitted(moved, E.ApprovalRefused, a.approverActor);
      ghost var told := E.Emit(moved, E.ApprovalRefused, a.approverActor);
      ok := EmitEvent(w.row.workflowId, E.Entered(DeadLetter), a.approverActor, false, base, told);
      Emitted(told, E.Entered(DeadLetter), a.approverActor);
      ok := AuditOrFail(w, E.OnDeclined, now, base, E.Emit(told, E.Entered(DeadLetter), a.approverActor));
      landed := if ok then {E.OnDeclined} else {};
    }

    lemma EnteredRow(c: E.Case, to: State, actor: string, now: string)
      requires IsValidTransition(c.row.state, to)
      ensures E.Enter(c, to, actor, now).row == c.row.(state := to, updatedAt := now)
    {
    }

    lemma Emitted(c: E.Case, kind: E.EventType, actor: string)
      ensures E.Emit(c, kind, actor) == c.(log := c.log + [E.Event(kind, |c.log|, actor, false)])
    {
    }

    // -------------------------------------------------------------- execute

    /** The handler's dict is stored and announced. */
    method Accept(w: Workflow, payload: map<string, Json>, now: string, ghost base: map<string, E.Case>, ghost c: E.Case)
      requires Holding(base, c) && w.row == c.row && c.row.state == Executing
      modifies w, store`workflows, store`events, store`nextEventId
      ensures Holding(base, E.Accept(c, payload, now)) && w.row == E.Accept(c, payload, now).row
    {
      hide Holding, E.Emit, Strings.Strip;
      CaseIsProper(base, c);
      var role := w.row.owningRole;
      w.row := w.row.(output := Some(payload));
      var ok := w.Transition(Succeeded, now);
      Save(w, base, c);
      ghost var moved := c.(row := w.row);
      ok := EmitEvent(w.row.workflowId, E.HandlerSucceeded, role, false, base, moved);
      Emitted(moved, E.HandlerSucceeded, role);
      ghost var told := E.Emit(moved, E.HandlerSucceeded, role);
      ok := EmitEvent(w.row.workflowId, E.Entered(Succeeded), role, false, base, told);
      Emitted(told, E.Entered(Succeeded), role);
    }

    /** Stored and announced, it is put on the trail and the workflow closed. */
    method Succeed(w: Workflow, payload: map<string, Json>, now: string, ghost base: map<string, E.Case>, ghost c: E.Case)
      returns (ghost landed: set<E.AuditPoint>)
      requires Holding(base, c) && w.row == c.row && c.row.state == Executing
      modifies w, store`workflows, store`events, store`nextEventId, trail, this`tip
      ensures Holding(base, E.Succeed(c, payload, now, landed))
    {
      hide Holding, E.Emit, Strings.Strip;
      CaseIsProper(base, c);
      var role := w.row.owningRole;
      Accept(w, payload, now, base, c);
      ghost var done := E.Accept(c, payload, now);
      AcceptedRow(c, payload, now);
      var ok := AuditOrFail(w, E.OnSucceeded, now, base, done);
      if !ok {
        return {};
      }
      MoveTo(w, Closed, role, now, base, done);
      ok := AuditOrFail(w, E.OnClosed, now, base, E.Enter(done, Closed, role, now));
      landed := if ok then {E.OnSucceeded, E.OnClosed} else {E.OnSucceeded};
    }

    lemma AcceptedRow(c: E.Case, payload: map<string, Json>, now: string)
      requires c.row.state == Executing
      ensures E.Accept(c, payload, now).row == c.row.(output := Some(payload), state := Succeeded, updatedAt := now)
    {
    }

    /** A failed attempt is counted and announced; whatever output it left on the workflow is stored with it. */
    method CountFailure(w: Workflow, attempt: nat, ghost base: map<string, E.Case>, ghost c: E.Case, ghost noted: E.Case)
      requires Holding(base, c) && w.row == noted.row
      requires noted == c.(row := noted.row) && noted.row.workflowId == c.row.workflowId && IsProper(noted.row)
      modifies w, store`workflows, store`events, store`nextEventId
      ensures Holding(base, E.CountFailure(noted, attempt)) && w.row == E.CountFailure(noted, attempt).row
    {
      hide Holding, E.Emit, Strings.Strip;
      var role := w.row.owningRole;
      w.row := w.row.(retryCount := attempt + 1);
      Save(w, base, c);
      ghost var counted := c.(row := w.row);
      var ok := EmitEvent(w.row.workflowId, E.HandlerFailed(Some(attempt)), role, false, base, counted);
      Emitted(counted, E.HandlerFailed(Some(attempt)), role);
      ghost var told := E.Emit(counted, E.HandlerFailed(Some(attempt)), role);
      ok := EmitEvent(w.row.workflowId, E.RetryScheduled(attempt), role, false, base, told);
      Emitted(told, E.RetryScheduled(attempt), role);
    }

    /** Out of retries: failed, then dead-letter, unless the error text is blank, which itself raises. */
    method Exhaust(w: Workflow, text: string, now: string, ghost base: map<string, E.Case>, ghost c: E.Case)
      returns (answer: E.Answer, ghost landed: set<E.AuditPoint>)
      requires Holding(base, c) && w.row == c.row && c.row.state == Executing
      modifies w, store`workflows, store`events, store`nextEventId, trail, this`tip
      ensures var t := E.Exhaust(c, text, now, landed); Holding(base, t.after) && answer == t.answer
    {
      hide Holding, E.Emit, Strings.Strip;
      CaseIsProper(base, c);
      var role := w.row.owningRole;
      MoveTo(w, Failed, role, now, base, c);
      ghost var failed := E.Enter(c, Failed, role, now);
      EnteredRow(c, Failed, role, now);
      var ok := AuditOrFail(w, E.OnFailed, now, base, failed);
      if !ok {
        return E.Returned, {};
      }
      landed := {E.OnFailed};
      var message := Strings.Strip(text);
      if message == "" {
        return E.Raised(E.BlankError), landed;
      }
      w.row := w.row.(error := Some(E.ErrorFor(w.row, EngineError, message, now)));
      MoveNoted(w, DeadLetter, role, now, base, failed, E.WithError(failed, EngineError, message, now));
      answer := E.Returned;
    }

    /** Note down, for the proof, that the handler was called and what it answered. */
    ghost method NoteCall(out: E.HandlerOutcome, base: map<string, E.Case>, c: E.Case)
      requires Holding(base, c)
      modifies this`calls
      ensures Holding(base, E.Called(c, out))
    {
      hide IsDense, Log, CasesOf;
      CaseIsStored(base, c);
      CallGoesToItsCase(store.workflows, store.events, calls, requests, c.row.workflowId, out);
      calls := calls[c.row.workflowId := calls[c.row.workflowId] + [out]];
    }

    /** What the loop will do from here on. */
    ghost function Ahead(c: E.Case, attempt: nat, h: E.Handler, now: string, landed: set<E.AuditPoint>): E.Turn
      requires attempt <= c.row.maxRetries && (c.row.state == Executing || c.row.state == Succeeded)
    {
      if c.row.state == Executing then E.Attempts(c, attempt, h, now, landed) else E.Redo(c, attempt, h)
    }

    /** The workflow with what a failed attempt left on it. */
    ghost function Noted(c: E.Case, out: E.HandlerOutcome, now: string): E.Case {
      if c.row.state != Executing then E.WithOutput(E.Called(c, out), out)
      else if out.Unprintable? then E.Accept(E.Called(c, out), out.payload, now)
      else E.Called(c, out)
    }

    lemma NotedRow(c: E.Case, out: E.HandlerOutcome, now: string)
      requires c.row.state == Executing || c.row.state == Succeeded
      ensures var row := Noted(c, out, now).row;
        && row.state == (if out.Unprintable? then Succeeded else c.row.state)
        && row.workflowId == c.row.workflowId && row.maxRetries == c.row.maxRetries
        && row.requestingActor == c.row.requestingActor && row.owningRole == c.row.owningRole
    {
    }

    /** One turn of the loop. */
    lemma AheadStep(c: E.Case, attempt: nat, h: E.Handler, now: string, landed: set<E.AuditPoint>)
      requires attempt <= c.row.maxRetries && (c.row.state == Executing || c.row.state == Succeeded)
      ensures var out, next := h(attempt), E.CountFailure(Noted(c, h(attempt), now), attempt);
        && next.row.maxRetries == c.row.maxRetries && (next.row.state == Executing || next.row.state == Succeeded)
        && Ahead(c, attempt, h, now, landed) ==
           if out == E.Unserialisable then E.Turn(E.Called(c, out), E.Raised(E.PayloadUnwritable))
           else if c.row.state == Executing && out.Output? then
             E.Turn(E.Succeed(E.Called(c, out), out.payload, now, landed), E.Returned)
           else if attempt < c.row.maxRetries then Ahead(next, attempt + 1, h, now, landed)
           else if next.row.state == Executing then E.Exhaust(next, E.ErrorText(out), now, landed)
           else E.Turn(next, E.Raised(E.WrongState))
    {
      hide E.Succeed, E.Exhaust, E.CountFailure, E.Called, E.Accept, E.SameIdentity;
      var out := h(attempt);
      CalledRow(c, out);
      if c.row.state == Executing && out.Unprintable? {
        AcceptedRow(E.Called(c, out), out.payload, now);
      }
      var next := E.CountFailure(Noted(c, out, now), attempt);
      CountedRow(Noted(c, out, now), attempt);
      if attempt == c.row.maxRetries && next.row.state == Succeeded {
        assert E.Redo(next, attempt + 1, h) == E.Turn(next, E.Raised(E.WrongState));
      }
    }

    /** The output of an attempt that is going to fail: stored and announced, or left on the workflow at hand. */
    method TakeOutput(w: Workflow, out: E.HandlerOutcome, now: string, ghost base: map<string, E.Case>, ghost c: E.Case)
      returns (ghost stored: E.Case)
      requires Holding(base, E.Called(c, out)) && w.row == c.row && (c.row.state == Executing || c.row.state == Succeeded)
      requires c.row.state == Executing ==> !out.Output?
      modifies w, store`workflows, store`events, store`nextEventId
      ensures Holding(base, stored) && stored.row.workflowId == c.row.workflowId
      ensures w.row == Noted(c, out, now).row && Noted(c, out, now) == stored.(row := w.row)
    {
      hide Holding, E.Accept, Strings.Strip;
      stored := E.Called(c, out);
      if w.row.state != Executing {
        // The output is on the workflow before its second transition to succeeded is refused.
        if out.Output? || out.Unprintable? {
          w.row := w.row.(output := Some(out.payload));
        }
      } else if out.Unprintable? {
        Accept(w, out.payload, now, base, E.Called(c, out));
        AcceptedRow(E.Called(c, out), out.payload, now);
        stored := E.Accept(E.Called(c, out), out.payload, now);
      }
    }

    /** Up to maxRetries + 1 calls of the handler, until it gives a dict that can be stored and told. */
    method RunAttempts(w: Workflow, h: E.Handler, now: string, ghost base: map<string, E.Case>, ghost start: E.Case)
      returns (answer: E.Answer, ghost landed: set<E.AuditPoint>)
      requires Holding(base, start) && w.row == start.row && start.row.state == Executing
      modifies w, store`workflows, store`events, store`nextEventId, trail, this`tip, this`calls
      ensures var t := E.Attempts(start, 0, h, now, landed); Holding(base, t.after) && answer == t.answer
    {
      hide Holding, E.Succeed, E.Exhaust, E.CountFailure, E.Called, E.Accept, Strings.Strip, E.Attempts, E.Redo, Noted,
           E.SameIdentity;
      ghost var c := start;
      var attempt := 0;
      while true
        invariant attempt <= c.row.maxRetries == start.row.maxRetries
        invariant c.row.state == Executing || c.row.state == Succeeded
        invariant Holding(base, c) && w.row == c.row
        invariant forall l: set<E.AuditPoint> :: E.Attempts(start, 0, h, now, l) == Ahead(c, attempt, h, now, l)
        decreases w.row.maxRetries - attempt
      {
        CaseIsProper(base, c);
        var out := h(attempt);
        NoteCall(out, base, c);
        forall l: set<E.AuditPoint> {
          AheadStep(c, attempt, h, now, l);
        }
        CalledRow(c, out);
        if out == E.Unserialisable {
          return E.Raised(E.PayloadUnwritable), {};
        }
        if w.row.state == Executing && out.Output? {
          landed := Succeed(w, out.payload, now, base, E.Called(c, out));
          return E.Returned, landed;
        }
        NotedRow(c, out, now);
        ghost var stored := TakeOutput(w, out, now, base, c);
        CountFailure(w, attempt, base, stored, Noted(c, out, now));
        CountedRow(Noted(c, out, now), attempt);
        c := E.CountFailure(Noted(c, out, now), attempt);
        if w.row.retryCount > w.row.maxRetries {
          if !IsValidTransition(w.row.state, Failed) {
            return E.Raised(E.WrongState), {};
          }
          answer, landed := Exhaust(w, E.ErrorText(out), now, base, c);
          return;
        }
        attempt := attempt + 1;
      }
    }

    lemma CalledRow(c: E.Case, out: E.HandlerOutcome)
      ensures E.Called(c, out).row == c.row
    {
    }

    lemma CountedRow(c: E.Case, attempt: nat)
      ensures E.CountFailure(c, attempt).row == c.row.(retryCount := attempt + 1)
    {
    }

    /** A stored workflow, taken up as it is. */
    lemma TakenUp(id: string)
      requires Valid() && id in store.workflows
      ensures id in Cases()
      ensures Cases()[id].row == store.workflows[id] && Cases()[id].row.workflowId == id
      ensures Holding(Cases(), Cases()[id])
    {
      hide IsDense, Log;
      assert Cases()[id].row == store.workflows[id];
    }

    // -------------------------------------------------------------- the calls

    method CancelTaken(w: Workflow, actor: string, now: string, ghost base: map<string, E.Case>, ghost c: E.Case)
      returns (answer: E.Answer)
      requires Holding(base, c) && w.row == c.row
      modifies w, store`workflows, store`events, store`nextEventId
      ensures var t := E.Cancel(c, actor, now); Holding(base, t.after) && answer == t.answer
    {
      hide Holding, Strings.Strip;
      CaseIsProper(base, c);
      var state := w.row.state;
      if state == Closed || state == Cancelled || state == DeadLetter || !IsValidTransition(state, Cancelled) {
        return E.Raised(E.WrongState);
      }
      var ok := w.Transition(Cancelled, now);
      Save(w, base, c);
      ok := EmitEvent(w.row.workflowId, E.Entered(Cancelled), actor, false, base, c.(row := w.row));
      if !ok {
        return E.Raised(E.BlankActor);
      }
      ghost var cancelled := E.Enter(c, Cancelled, Strings.Strip(actor), now);
      ok := w.Transition(Closed, now);
      Save(w, base, cancelled);
      ok := EmitEvent(w.row.workflowId, E.Entered(Closed), actor, false, base, cancelled.(row := w.row));
      answer := E.Returned;
    }

    method Cancel(id: string, actor: string, now: string) returns (answer: E.Answer)
      requires Valid()
      modifies store`workflows, store`events, store`nextEventId
      ensures Valid()
      ensures var r := E.Step(wiring, old(Value()), E.CancelOp(id, actor, now));
        Value() == r.after && answer == r.answer
    {
      hide IsDense, Log, CasesOf, E.Cancel, Store.Valid, Trail.Valid;
      var row := store.GetWorkflow(id);
      KnownCases();
      if row.None? {
        return E.Raised(E.UnknownWorkflow);
      }
      TakenUp(id);
      var w := new Workflow(row.value);
      answer := CancelTaken(w, actor, now, Cases(), Cases()[id]);
    }

    lemma KnownCases()
      requires Valid()
      ensures Cases().Keys == store.workflows.Keys
    {
      hide IsDense, Log;
    }

    method ApproveTaken(w: Workflow, a: Approval, now: string, ghost base: map<string, E.Case>, ghost c: E.Case)
      returns (answer: E.Answer, ghost landed: set<E.AuditPoint>)
      requires Holding(base, c) && w.row == c.row && Strings.IsName(a.approverActor)
      modifies w, store`workflows, store`events, store`nextEventId, trail, this`tip
      ensures var t := E.Approve(wiring, c, a, now, landed); Holding(base, t.after) && answer == t.answer
    {
      hide Holding, E.Grant, E.Decline, Strings.Strip;
      CaseIsProper(base, c);
      if w.row.state != AwaitingApproval {
        return E.Raised(E.WrongState), {};
      }
      if a.correlationId != w.row.correlation.correlationId {
        return E.Raised(E.WrongCorrelation), {};
      }
      if wiring.sod(w.row.requestingActor, a.approverActor, w.row.owningRole, a.approverRole).Some? {
        return E.Raised(E.NotEntitled), {};
      }
      w.row := w.row.(approval := Some(a));
      ghost var signed := c.(row := c.row.(approval := Some(a)));
      match a.decision {
        case Granted => landed := Grant(w, a.approverActor, now, base, c, signed);
        case Declined => landed := Decline(w, a, now, base, c, signed);
      }
      answer := E.Returned;
    }

    /** The approval is one its constructor accepts, so the approver has a name. */
    method Approve(id: string, a: Approval, now: string) returns (answer: E.Answer, ghost landed: set<E.AuditPoint>)
      requires Valid() && Strings.IsName(a.approverActor)
      modifies store`workflows, store`events, store`nextEventId, trail, this`tip
      ensures Valid()
      ensures var r := E.Step(wiring, old(Value()), E.ApproveOp(id, a, now, landed));
        Value() == r.after && answer == r.answer
    {
      hide IsDense, Log, CasesOf, E.Approve, K.IsHalted, Store.Valid, Trail.Valid;
      var row := store.GetWorkflow(id);
      KnownCases();
      if row.None? {
        return E.Raised(E.UnknownWorkflow), {};
      }
      var halted := EnforceNotHalted(row.value.tenantId);
      TakenUp(id);
      if halted {
        return E.Raised(E.SwitchEngaged), {};
      }
      var w := new Workflow(row.value);
      answer, landed := ApproveTaken(w, a, now, Cases(), Cases()[id]);
    }

    method ExecuteTaken(w: Workflow, h: E.Handler, now: string, late: bool, ghost base: map<string, E.Case>,
                        ghost c: E.Case)
      returns (answer: E.Answer, ghost landed: set<E.AuditPoint>)
      requires Holding(base, c) && w.row == c.row
      modifies w, store`workflows, store`events, store`nextEventId, trail, this`tip, this`calls
      ensures var t := E.Execute(c, c.row.capability in handlers, h, now, late, landed);
        Holding(base, t.after) && answer == t.answer
    {
      hide Holding, E.Attempts, E.Emit, Strings.Strip;
      CaseIsProper(base, c);
      landed := {};
      answer := E.Returned;
      if w.row.state != Executing {
        return E.Raised(E.WrongState), {};
      }
      if E.IsPastDeadline(w.row, late) {
        MoveAfter(w, DeadLetter, Some(E.ErrorFor(w.row, Timeout, E.LATE_DURING, now)), E.TimedOut, E.SYSTEM, now,
                  base, c, E.WithError(c, Timeout, E.LATE_DURING, now));
        return;
      }
      if w.row.capability !in handlers {
        MoveAfter(w, DeadLetter, Some(E.ErrorFor(w.row, ErrorCode.NotFound, E.NO_HANDLER + w.row.capability, now)),
                  E.HandlerFailed(None), E.SYSTEM, now, base, c,
                  E.WithError(c, ErrorCode.NotFound, E.NO_HANDLER + c.row.capability, now));
        return;
      }
      answer, landed := RunAttempts(w, h, now, base, c);
    }

    method Execute(id: string, h: E.Handler, now: string, late: bool)
      returns (answer: E.Answer, ghost landed: set<E.AuditPoint>)
      requires Valid()
      modifies store`workflows, store`events, store`nextEventId, trail, this`tip, this`calls
      ensures Valid()
      ensures var r := E.Step(wiring, old(Value()), E.ExecuteOp(id, h, now, late, landed));
        Value() == r.after && answer == r.answer
    {
      hide IsDense, Log, CasesOf, E.Execute, K.IsHalted, Store.Valid, Trail.Valid;
      var row := store.GetWorkflow(id);
      KnownCases();
      if row.None? {
        return E.Raised(E.UnknownWorkflow), {};
      }
      var halted := EnforceNotHalted(row.value.tenantId);
      TakenUp(id);
      if halted {
        return E.Raised(E.SwitchEngaged), {};
      }
      var w := new Workflow(row.value);
      answer, landed := ExecuteTaken(w, h, now, late, Cases(), Cases()[id]);
    }

    /** Store a new workflow under its key, with nothing done for it yet. */
    method Admit(w: Workflow, req: E.TaskRequest) returns (taken: bool)
      requires Valid() && w.row.idempotencyKey !in store.byKey && IsProper(w.row)
      modifies store`workflows, store`byKey, this`calls, this`requests
      ensures Valid()
      ensures taken <==> w.row.workflowId in old(Cases())
      ensures taken ==> Value() == old(Value())
      ensures !taken ==> Holding(old(Cases()), E.Case(w.row, [], [], req))
      ensures !taken ==> store.byKey == old(store.byKey)[w.row.idempotencyKey := w.row.workflowId]
    {
      hide IsDense, Log, CasesOf, IsProper;
      KnownCases();
      var id := w.row.workflowId;
      ghost var before := store.workflows;
      var r := store.CreateWorkflow(w);
      taken := r.Taken?;
      if !taken {
        AdmittedToItsCase(before, store.events, calls, requests, w.row, req);
        calls := calls[id := []];
        requests := requests[id := req];
      }
    }

    /** The request is one its constructor accepts, so its actor and its owning role have names. */
    method Submit(req: E.TaskRequest, id: string, taskId: string, deadline: string, now: string,
                  screening: E.Screening, late: bool)
      returns (answer: E.Answer, ghost landed: set<E.AuditPoint>)
      requires Valid() && Strings.IsName(req.requestingActor) && Strings.IsName(req.owningRole)
      modifies store`workflows, store`byKey, store`events, store`nextEventId, trail, this`tip, this`calls,
               this`requests
      ensures Valid()
      ensures var r := E.Step(wiring, old(Value()),
                              E.SubmitOp(req, id, taskId, deadline, now, screening, late, landed));
        Value() == r.after && answer == r.answer
    {
      hide IsDense, Log, CasesOf, K.IsHalted, E.Launch, Strings.Strip, E.Isolate, E.NewRow, E.Fresh,
           E.RefusalCode, E.RefusalText, Store.Valid, Trail.Valid, Holding;
      landed := {};
      var halted := EnforceNotHalted(E.TenantOfRequest(req));
      if halted {
        return E.Raised(E.SwitchEngaged), {};
      }
      var existing := store.GetWorkflowByIdempotency(req.correlation.idempotencyKey);
      if existing.Some? {
        return E.Returned, {};
      }
      if screening.Broke? || (screening.Refused? && Strings.Strip(screening.message) == "") {
        return E.Raised(E.ChecksBroke), {};
      }
      var w := new Workflow(E.NewRow(req, id, taskId, now));
      RowOf(req, id, taskId, deadline, now, screening, late, {});
      if screening.Refused? || screening.Denied? {
        answer := Refuse(w, req, E.RefusalCode(screening), E.RefusalText(screening), now);
        return;
      }
      if req.hasTimeout {
        w.row := w.row.(deadline := Some(deadline), updatedAt := deadline);
      }
      answer, landed := Begin(w, req, now, late);
      RowOf(req, id, taskId, deadline, now, screening, late, landed);
    }

    /** What a submission's row carries over from the request. */
    lemma RowOf(req: E.TaskRequest, id: string, taskId: string, deadline: string, now: string, screening: E.Screening,
                late: bool, landed: set<E.AuditPoint>)
      ensures var row := E.NewRow(req, id, taskId, now);
        && row.workflowId == id && row.idempotencyKey == req.correlation.idempotencyKey && row.state == Proposed
        && row.requestingActor == req.requestingActor && row.owningRole == req.owningRole
        && E.Fresh(E.SubmitOp(req, id, taskId, deadline, now, screening, late, landed)) ==
           if req.hasTimeout then row.(deadline := Some(deadline), updatedAt := deadline) else row
    {
    }

    /** Store a screened workflow and take it as far as it goes. */
    method Begin(w: Workflow, req: E.TaskRequest, now: string, late: bool)
      returns (answer: E.Answer, ghost landed: set<E.AuditPoint>)
      requires Valid() && w.row.idempotencyKey !in store.byKey && IsProper(w.row)
      requires w.row.state == Proposed && w.row.requestingActor == req.requestingActor
      modifies w, store`workflows, store`byKey, store`events, store`nextEventId, trail, this`tip, this`calls,
               this`requests
      ensures Valid()
      ensures var id, t := old(w.row).workflowId, E.Launch(wiring, req, old(w.row), now, late, landed);
        if id in old(Cases()) then answer == E.Raised(E.IdTaken) && Value() == old(Value())
        else
          && answer == t.answer
          && Value() == old(Value()).(cases := old(Cases())[id := t.after],
                                      byKey := old(store.byKey)[old(w.row).idempotencyKey := id])
    {
      hide IsDense, Log, CasesOf, E.Launch, Store.Valid, Trail.Valid;
      ghost var base := Cases();
      var taken := Admit(w, req);
      if taken {
        return E.Raised(E.IdTaken), {};
      }
      answer, landed := Launch(w, req, now, late, base);
    }

    /** A refused request is stored dead on arrival. */
    method Refuse(w: Workflow, req: E.TaskRequest, code: ErrorCode, message: string, now: string)
      returns (answer: E.Answer)
      requires Valid() && w.row.idempotencyKey !in store.byKey && IsProper(w.row)
      requires w.row.requestingActor == req.requestingActor
      modifies w, store`workflows, store`byKey, store`events, store`nextEventId, this`calls, this`requests
      ensures Valid()
      ensures var id := old(w.row).workflowId;
        if id in old(Cases()) then answer == E.Raised(E.IdTaken) && Value() == old(Value())
        else
          && answer == E.Returned
          && Value() == old(Value()).(
               cases := old(Cases())[id := E.Isolate(req, old(w.row), code, message, now)],
               byKey := old(store.byKey)[old(w.row).idempotencyKey := id])
    {
      hide IsDense, Log, CasesOf, E.Isolate, E.ErrorFor, Store.Valid, Trail.Valid, Strings.Strip;
      IsolatedCase(req, w.row, code, message, now);
      w.row := w.row.(state := DeadLetter);
      w.row := w.row.(error := Some(E.ErrorFor(w.row, code, message, now)));
      ghost var base := Cases();
      var taken := Admit(w, req);
      if taken {
        return E.Raised(E.IdTaken);
      }
      ghost var c := E.Case(w.row, [], [], req);
      var emitted := EmitEvent(w.row.workflowId, E.Entered(DeadLetter), req.requestingActor, false, base, c);
      ghost var e := E.Event(E.Entered(DeadLetter), 0, req.requestingActor, false);
      assert c.log + [e] == [e];
      answer := E.Returned;
    }

    lemma IsolatedCase(req: E.TaskRequest, row: Row, code: ErrorCode, message: string, now: string)
      ensures var dead := row.(state := DeadLetter);
        var r := dead.(error := Some(E.ErrorFor(dead, code, message, now)));
        E.Isolate(req, row, code, message, now) ==
        E.Case(r, [E.Event(E.Entered(DeadLetter), 0, req.requestingActor, false)], [], req)
    {
    }

    method RegisterHandler(capability: string) returns (answer: E.Answer)
      modifies this`handlers
      ensures var r := E.Step(wiring, old(Value()), E.RegisterOp(capability));
        Value() == r.after && answer == r.answer
    {
      hide Strings.Strip;
      var name := Strings.Strip(capability);
      if name == "" {
        return E.Raised(E.BadCapability);
      }
      handlers := handlers + {name};
      answer := E.Returned;
    }
  }

  /** The gate's part of a submission depends on no audit write but the last. */
  lemma GateAsksOnlyOfStarting(g: E.Wiring, c: E.Case, now: string, late: bool, some: set<E.AuditPoint>,
                               all: set<E.AuditPoint>)
    requires c.row.state == Validated && (E.OnExecuting in some <==> E.OnExecuting in all)
    ensures E.PassGate(g, c, now, late, some) == E.PassGate(g, c, now, late, all)
  {
    hide E.FailClosed, E.Enter, E.EnterAfter, E.WithError;
  }
}
