/** The promises of the engine over whole runs, from an empty runtime under any catalogs. */
module EngineTheorems {
  import opened Wrappers
  import opened WorkflowStates
  import opened Records
  import opened RoleCatalog
  import opened SegregationOfDuties
  import opened EngineSpec
  import opened EngineProofs
  import KillSwitch
  import Strings

  function Reached(org: Organization, catalog: Catalog, ops: seq<Op>): World {
    Run(WiringOf(org, catalog), EMPTY_WORLD, ops)
  }

  lemma EmptyIsKept(g: Wiring)
    ensures WorldKept(g, EMPTY_WORLD)
  {
  }

  lemma ReachedIsKept(org: Organization, catalog: Catalog, ops: seq<Op>)
    ensures WorldKept(WiringOf(org, catalog), Reached(org, catalog, ops))
  {
    RunKeepsWorld(WiringOf(org, catalog), EMPTY_WORLD, ops);
  }

  // ---------------------------------------------------------------- the replay and the stored state

  /** The call cancels the workflow and names no actor: the row is stored before its event fails. */
  predicate Strands(w: World, op: Op, id: string) {
    && op.CancelOp? && op.id == id && Strings.Strip(op.actor) == ""
    && id in w.cases && IsCancellable(w.cases[id])
  }

  /** Some call of the run did. */
  predicate WasStranded(g: Wiring, w: World, ops: seq<Op>, id: string)
    decreases |ops|
  {
    ops != [] && (Strands(w, ops[0], id) || WasStranded(g, Step(g, w, ops[0]).after, ops[1..], id))
  }

  predicate IsCancelled(w: World, id: string) {
    id in w.cases && w.cases[id].row.state == Cancelled
  }

  lemma StepStrandsExactly(g: Wiring, w: World, op: Op, id: string)
    requires WorldKept(g, w)
    ensures IsCancelled(Step(g, w, op).after, id) <==> IsCancelled(w, id) || Strands(w, op, id)
  {
    hide CaseKept, IsStranded, Submit, Approve, Execute, Cancel, Strings.Strip, KillSwitch.EveryHaltRecorded;
    if id in w.cases {
      assert IdKept(g, w, id);
    }
    match op
    case SubmitOp(_, _, _, _, _, _, _, _) => SubmitCancelsNothing(g, w, op, id);
    case ApproveOp(on, a, now, landed) =>
      if on == id && id in w.cases {
        if IsCancelled(w, id) {
          CancelledStays(g, w.cases[id], a, now, landed);
        } else {
          ApproveRests(g, w.cases[id], a, now, landed);
        }
      }
    case ExecuteOp(on, h, now, late, landed) =>
      if on == id && id in w.cases {
        ExecuteCancelsNothing(g, w.cases[id], w.cases[id].row.capability in w.handlers, h, now, late, landed);
      }
    case CancelOp(on, actor, now) =>
      if on == id && id in w.cases {
        CancelStrandsExactly(w.cases[id], actor, now);
      }
    case _ =>
  }

  lemma SubmitCancelsNothing(g: Wiring, w: World, op: Op, id: string)
    requires WorldKept(g, w) && op.SubmitOp?
    ensures IsCancelled(Submit(g, w, op).after, id) <==> IsCancelled(w, id)
  {
    hide CaseKept, Launch, Isolate, IsStranded, Strings.Strip;
    if Submit(g, w, op).after != w && id == op.id {
      LaunchRests(g, op.req, Fresh(op), op.now, op.late, op.landed);
      if op.screening.Refused? || op.screening.Denied? {
        IsolateRests(g, op.req, NewRow(op.req, op.id, op.taskId, op.now), RefusalCode(op.screening),
                     RefusalText(op.screening), op.now);
      }
    }
  }

  lemma ExecuteCancelsNothing(g: Wiring, c: Case, registered: bool, h: Handler, now: string, late: bool,
                              landed: set<AuditPoint>)
    requires CaseSound(g, c)
    ensures Execute(c, registered, h, now, late, landed).after.row.state == Cancelled <==> c.row.state == Cancelled
  {
    hide CaseKept, Execute;
    if c.row.state == Executing {
      ExecuteKeeps(g, c, registered, h, now, late, landed);
    } else {
      NotExecutingStays(c, registered, h, now, late, landed);
    }
  }

  lemma CancelStrandsExactly(c: Case, actor: string, now: string)
    ensures Cancel(c, actor, now).after.row.state == Cancelled <==>
            c.row.state == Cancelled || (IsCancellable(c) && Strings.Strip(actor) == "")
  {
    hide Strings.Strip, SameIdentity;
  }

  lemma {:induction false} RunStrandsExactly(g: Wiring, w: World, ops: seq<Op>, id: string)
    requires WorldKept(g, w)
    ensures IsCancelled(Run(g, w, ops), id) <==> IsCancelled(w, id) || WasStranded(g, w, ops, id)
    decreases |ops|
  {
    hide WorldKept, Step, Strands, IsCancelled;
    if ops != [] {
      StepStrandsExactly(g, w, ops[0], id);
      StepKeepsWorld(g, w, ops[0]);
      RunStrandsExactly(g, Step(g, w, ops[0]).after, ops[1..], id);
    }
  }

  /**
    * A workflow's events are numbered from zero and move legally; replaying them gives the stored state if and
    * only if no call cancelled the workflow without naming an actor.
    */
  lemma ReplayTellsState(org: Organization, catalog: Catalog, ops: seq<Op>, id: string)
    requires id in Reached(org, catalog, ops).cases
    ensures var c := Reached(org, catalog, ops).cases[id];
      && IsLegalLog(c.log)
      && (forall k :: 0 <= k < |c.log| ==> c.log[k].sequence == k)
      && (LastState(c.log) == Some(c.row.state) <==> !WasStranded(WiringOf(org, catalog), EMPTY_WORLD, ops, id))
      && (LastState(c.log) != Some(c.row.state) ==>
            c.row.state == Cancelled && LastState(c.log).Some? && IsValidTransition(LastState(c.log).value, Cancelled))
  {
    hide IsAuthorised, CallsKept, KillSwitch.EveryHaltRecorded, Step;
    ReachedIsKept(org, catalog, ops);
    EmptyIsKept(WiringOf(org, catalog));
    RunStrandsExactly(WiringOf(org, catalog), EMPTY_WORLD, ops, id);
    var c := Reached(org, catalog, ops).cases[id];
    assert IdKept(WiringOf(org, catalog), Reached(org, catalog, ops), id);
    forall k | 0 <= k < |c.log|
      ensures c.log[k].sequence == k
    {
      LegalLogIsNumbered(c.log, k);
    }
  }

  /** The replay does fail for a blank actor, and no later cancellation repairs it. */
  lemma BlankActorStrands(g: Wiring, w: World, id: string, now: string, again: string)
    requires id in w.cases && IsCancellable(w.cases[id]) && LastState(w.cases[id].log) == Some(w.cases[id].row.state)
    ensures var r := Step(g, w, CancelOp(id, "", now));
      && r.answer == Answer.Raised(BlankActor)
      && r.after.cases[id].row.state == Cancelled
      && r.after.cases[id].log == w.cases[id].log
      && LastState(r.after.cases[id].log) != Some(r.after.cases[id].row.state)
      && Step(g, r.after, CancelOp(id, again, now)) == Reply(r.after, Answer.Raised(WrongState))
  {
    hide LastState, SameIdentity;
    assert Strings.Strip("") == "";
    var r := Step(g, w, CancelOp(id, "", now));
    assert r.after.cases[id := r.after.cases[id]] == r.after.cases;
  }

  /** Work that was ever started was started once, and on proper authority. */
  lemma ExecutionIsAuthorised(org: Organization, catalog: Catalog, ops: seq<Op>, id: string)
    requires id in Reached(org, catalog, ops).cases
    requires Starts(Reached(org, catalog, ops).cases[id].log) > 0
    ensures var c := Reached(org, catalog, ops).cases[id];
      && Starts(c.log) == 1
      && (c.row.requiresApproval ==>
            && c.row.approval.Some?
            && var a := c.row.approval.value;
            && a.decision == Granted
            && a.correlationId == c.row.correlation.correlationId
            && a.approverActor != c.row.requestingActor
            && a.approverRole != c.row.owningRole
            && !ReviewerAuthorityViolation(catalog, c.row.owningRole, a.approverRole))
      && (!c.row.requiresApproval ==>
            && !c.request.requiresApproval
            && RunsAlone(org, ProposalFor(WiringOf(org, catalog), c.request)))
  {
    ReachedIsKept(org, catalog, ops);
    var c := Reached(org, catalog, ops).cases[id];
    assert IdKept(WiringOf(org, catalog), Reached(org, catalog, ops), id);
    LegalLogStartsOnce(c.log);
    if !c.row.requiresApproval {
      VerdictFlags(org, ProposalFor(WiringOf(org, catalog), c.request));
    }
  }

  /** Whatever approvals are given, work the gate denied, or could not judge, is never started. */
  lemma DeniedWorkNeverStarts(org: Organization, catalog: Catalog, ops: seq<Op>, id: string)
    requires id in Reached(org, catalog, ops).cases
    requires var v := EvaluateGate(org, ProposalFor(WiringOf(org, catalog), Reached(org, catalog, ops).cases[id].request));
      v.Raised? || !v.decision.allowed
    ensures Starts(Reached(org, catalog, ops).cases[id].log) == 0
  {
    hide EvaluateGate, ProposalFor;
    ReachedIsKept(org, catalog, ops);
    assert IdKept(WiringOf(org, catalog), Reached(org, catalog, ops), id);
  }

  /** The figures of a request are put before the gate as they stand, for the seat its actor resolves to. */
  lemma ProposalIsTheRequest(org: Organization, catalog: Catalog, req: TaskRequest)
    ensures var p := ProposalFor(WiringOf(org, catalog), req);
      && p.cost == req.cost && p.confidence == req.confidence && p.classification == req.classification
      && p.engine == req.engine && p.requiresApproval == req.requiresApproval
      && (p.role == req.owningRole || ResolveActorRole(org, req.requestingActor, Some(req.owningRole)) == Role(p.role))
      && (forall role :: ResolveActorRole(org, req.requestingActor, Some(req.owningRole)) == Role(role) && role != "" ==>
            p.role == role)
  {
  }

  /**
    * Autonomy is bounded: work that was ever started is cleared for its data and engine, and what started without
    * an approval cost no more than its seat may spend, was sure enough, and was not an oversight-only seat's.
    */
  lemma StartedWorkIsInBounds(org: Organization, catalog: Catalog, ops: seq<Op>, id: string)
    requires id in Reached(org, catalog, ops).cases
    requires Starts(Reached(org, catalog, ops).cases[id].log) > 0
    ensures var c := Reached(org, catalog, ops).cases[id];
      var p := ProposalFor(WiringOf(org, catalog), c.request);
      && IsCleared(org, p)
      && (!c.row.requiresApproval ==>
            && var seat := GetRole(org, p.role).value;
            && !seat.oversightOnly && !c.request.requiresApproval
            && c.request.cost.Some? && (seat.limit.Some? ==> c.request.cost.value <= seat.limit.value)
            && c.request.confidence.Some? && c.request.confidence.value >= MIN_AUTONOMY_CONFIDENCE)
  {
    hide EvaluateGate, IsCleared, GetRole;
    ReachedIsKept(org, catalog, ops);
    var g, c := WiringOf(org, catalog), Reached(org, catalog, ops).cases[id];
    assert IdKept(g, Reached(org, catalog, ops), id);
    var p := ProposalFor(g, c.request);
    assert g.gate(p) == EvaluateGate(org, p);
    GateDecidesExactly(org, p);
    VerdictFlags(org, p);
    ClearedIsSeated(org, p);
    hide Reached, CaseSound;
  }

  /** Each key has one workflow, and submitting the key again changes nothing. */
  lemma KeysAreIdempotent(org: Organization, catalog: Catalog, ops: seq<Op>, again: Op)
    requires again.SubmitOp?
    requires again.req.correlation.idempotencyKey in Reached(org, catalog, ops).byKey
    ensures var w := Reached(org, catalog, ops);
      var key := again.req.correlation.idempotencyKey;
      && w.byKey[key] in w.cases
      && (forall id :: id in w.cases && w.cases[id].row.idempotencyKey == key ==> id == w.byKey[key])
      && Step(WiringOf(org, catalog), w, again).after == w
  {
    ReachedIsKept(org, catalog, ops);
    var w := Reached(org, catalog, ops);
    forall id | id in w.cases && w.cases[id].row.idempotencyKey == again.req.correlation.idempotencyKey
      ensures id == w.byKey[again.req.correlation.idempotencyKey]
    {
      assert IdKept(WiringOf(org, catalog), w, id);
    }
  }

  /**
    * As long as no call returned a payload the store cannot write, there are at most maxRetries + 1 of them. As
    * long as none returned one that cannot be put into text, the accepted call is the last, and retryCount is the
    * number that failed.
    */
  lemma HandlerCallsAreBounded(org: Organization, catalog: Catalog, ops: seq<Op>, id: string)
    requires id in Reached(org, catalog, ops).cases
    ensures var c := Reached(org, catalog, ops).cases[id];
      && (IsPrintable(c.calls) ==> forall i :: 0 <= i < |c.calls| && c.calls[i].Output? ==> i == |c.calls| - 1)
      && (IsClean(c.calls) ==> |c.calls| <= c.row.maxRetries + 1)
      && (IsClean(c.calls) && IsPrintable(c.calls) ==> c.row.retryCount == FailedCalls(c.calls))
      && (IsClean(c.calls) && !IsPrintable(c.calls) ==> c.row.retryCount == |c.calls|)
      && (c.calls != [] && IsClean(c.calls) ==> c.row.state != Executing)
  {
    ReachedIsKept(org, catalog, ops);
    assert IdKept(WiringOf(org, catalog), Reached(org, catalog, ops), id);
  }

  /** Every halt in force has its own engage record on the trail, however many audit writes failed. */
  lemma EveryHaltIsRecorded(org: Organization, catalog: Catalog, ops: seq<Op>)
    ensures KillSwitch.EveryHaltRecorded(Reached(org, catalog, ops).switch)
  {
    ReachedIsKept(org, catalog, ops);
  }

  // ---------------------------------------------------------------- the retry loop, exactly

  /** The attempt that decides the loop: the first dict, writable or not, or the last attempt there is. */
  function StopsAt(h: Handler, attempt: nat, last: nat): (k: nat)
    requires attempt <= last
    ensures attempt <= k <= last
    ensures forall j :: attempt <= j < k ==> !IsDict(h(j)) && h(j) != Unserialisable
    ensures k < last ==> IsDict(h(k)) || h(k) == Unserialisable
    decreases last - attempt
  {
    if attempt == last || IsDict(h(attempt)) || h(attempt) == Unserialisable then attempt
    else StopsAt(h, attempt + 1, last)
  }

  /** The last attempt made after a success that could not be reported. */
  function RedoStopsAt(h: Handler, attempt: nat, last: nat): (k: nat)
    requires attempt <= last
    ensures attempt <= k <= last
    ensures forall j :: attempt <= j < k ==> h(j) != Unserialisable
    ensures k < last ==> h(k) == Unserialisable
    decreases last - attempt
  {
    if attempt == last || h(attempt) == Unserialisable then attempt else RedoStopsAt(h, attempt + 1, last)
  }

  /** The last attempt made. */
  function EndsAt(h: Handler, attempt: nat, last: nat): (k: nat)
    requires attempt <= last
    ensures StopsAt(h, attempt, last) <= k <= last
  {
    var k := StopsAt(h, attempt, last);
    if h(k).Unprintable? && k < last then RedoStopsAt(h, k + 1, last) else k
  }

  function Answers(h: Handler, first: nat, last: nat): seq<HandlerOutcome>
    requires first <= last + 1
    decreases last + 1 - first
  {
    if first > last then [] else [h(first)] + Answers(h, first + 1, last)
  }

  lemma AnswersFrom(h: Handler, calls: seq<HandlerOutcome>, first: nat, last: nat)
    requires first <= last
    ensures calls + Answers(h, first, last) == (calls + [h(first)]) + Answers(h, first + 1, last)
    ensures first == last ==> calls + Answers(h, first, last) == calls + [h(first)]
  {
  }

  lemma {:induction false} RedoStopsExactly(c: Case, attempt: nat, h: Handler)
    requires c.row.state == Succeeded && attempt <= c.row.maxRetries
    ensures var k := RedoStopsAt(h, attempt, c.row.maxRetries);
      var t := Redo(c, attempt, h);
      && t.after.calls == c.calls + Answers(h, attempt, k)
      && t.after.row.state == Succeeded
      && t.answer == Answer.Raised(if h(k) == Unserialisable then PayloadUnwritable else WrongState)
    decreases c.row.maxRetries - attempt
  {
    hide SameIdentity, CountFailure;
    var k := RedoStopsAt(h, attempt, c.row.maxRetries);
    var out := h(attempt);
    AnswersFrom(h, c.calls, attempt, k);
    if out != Unserialisable {
      var next := CountFailure(WithOutput(Called(c, out), out), attempt);
      CountedRow(WithOutput(Called(c, out), out), attempt);
      if attempt < c.row.maxRetries {
        RedoStopsExactly(next, attempt + 1, h);
      } else {
        assert Redo(next, attempt + 1, h) == Turn(next, Answer.Raised(WrongState));
      }
    }
  }

  /** An unprintable dict leaves the workflow succeeded, and only another unwritable one ends the calls early. */
  lemma SpoiledLoop(c: Case, attempt: nat, h: Handler, now: string, landed: set<AuditPoint>)
    requires c.row.state == Executing && attempt <= c.row.maxRetries && h(attempt).Unprintable?
    ensures var end := EndsAt(h, attempt, c.row.maxRetries);
      var t := Attempts(c, attempt, h, now, landed);
      && t.after.calls == c.calls + Answers(h, attempt, end)
      && t.after.row.state == Succeeded
      && t.answer == Answer.Raised(if h(end) == Unserialisable then PayloadUnwritable else WrongState)
  {
    hide SameIdentity, CountFailure, Accept;
    var out := h(attempt);
    var next := CountFailure(Accept(Called(c, out), out.payload, now), attempt);
    SpoiledRow(c, out, attempt, now);
    AnswersFrom(h, c.calls, attempt, EndsAt(h, attempt, c.row.maxRetries));
    if attempt < c.row.maxRetries {
      RedoStopsExactly(next, attempt + 1, h);
    } else {
      assert Redo(next, attempt + 1, h) == Turn(next, Answer.Raised(WrongState));
    }
  }

  /** The handler is asked up to the deciding attempt, and only after an unprintable dict any further. */
  lemma {:induction false} LoopStopsExactly(c: Case, attempt: nat, h: Handler, now: string, landed: set<AuditPoint>)
    requires c.row.state == Executing && attempt <= c.row.maxRetries
    ensures var k := StopsAt(h, attempt, c.row.maxRetries);
      var end := EndsAt(h, attempt, c.row.maxRetries);
      var t := Attempts(c, attempt, h, now, landed);
      && t.after.calls == c.calls + Answers(h, attempt, end)
      && (t.answer == Answer.Raised(PayloadUnwritable) <==> h(end) == Unserialisable)
      && (h(k).Output? ==> t.after.row.output == Some(h(k).payload))
    decreases c.row.maxRetries - attempt
  {
    hide SameIdentity, CountFailure, Accept, Succeed, Exhaust, Redo, RedoStopsAt, WithOutput, ErrorText, Emit,
         Answers, Strings.Strip;
    var out, end := h(attempt), EndsAt(h, attempt, c.row.maxRetries);
    AnswersFrom(h, c.calls, attempt, end);
    if out.Unprintable? {
      SpoiledLoop(c, attempt, h, now, landed);
    } else if !out.Output? && out != Unserialisable && attempt < c.row.maxRetries {
      CountedRow(Called(c, out), attempt);
      LoopStopsExactly(CountFailure(Called(c, out), attempt), attempt + 1, h, now, landed);
    } else if !out.Output? && out != Unserialisable {
      CountedRow(Called(c, out), attempt);
      ExhaustedRow(CountFailure(Called(c, out), attempt), ErrorText(out), now, landed);
    } else {
      SucceededRow(Called(c, out), out, now, landed);
    }
  }

  lemma CountedRow(c: Case, attempt: nat)
    ensures CountFailure(c, attempt).row == c.row.(retryCount := attempt + 1)
    ensures CountFailure(c, attempt).calls == c.calls
  {
  }

  lemma SpoiledRow(c: Case, out: HandlerOutcome, attempt: nat, now: string)
    requires c.row.state == Executing && out.Unprintable?
    ensures var next := CountFailure(Accept(Called(c, out), out.payload, now), attempt);
      && next.row.state == Succeeded && next.row.maxRetries == c.row.maxRetries
      && next.calls == c.calls + [out]
  {
  }

  lemma SucceededRow(c: Case, out: HandlerOutcome, now: string, landed: set<AuditPoint>)
    requires c.row.state == Executing
    ensures out.Output? ==>
              var after := Succeed(c, out.payload, now, landed);
              && after.row.output == Some(out.payload) && after.calls == c.calls
              && after.row.state == if OnSucceeded in landed && OnClosed in landed then Closed else DeadLetter
  {
  }

  lemma ExhaustedRow(c: Case, text: string, now: string, landed: set<AuditPoint>)
    requires c.row.state == Executing
    ensures var t := Exhaust(c, text, now, landed);
      var stuck := OnFailed in landed && Strings.Strip(text) == "";
      && t.after.row.state == (if stuck then Failed else DeadLetter)
      && t.answer == (if stuck then Answer.Raised(BlankError) else Returned)
      && t.after.calls == c.calls
  {
    hide Strings.Strip, ErrorFor;
  }

  /** No dict came back, the failure was audited, and its text is blank. */
  predicate EndsBlank(out: HandlerOutcome, landed: set<AuditPoint>) {
    !IsDict(out) && out != Unserialisable && OnFailed in landed && Strings.Strip(ErrorText(out)) == ""
  }

  predicate EndsClosed(out: HandlerOutcome, landed: set<AuditPoint>) {
    out.Output? && OnSucceeded in landed && OnClosed in landed
  }

  /**
    * Where the loop leaves the workflow, by what decided it. Exhausted retries end in the dead-letter queue
    * except when the text of the last failure is blank and its audit write landed: then the call raises and the
    * workflow stays failed.
    */
  lemma {:induction false} LoopEndsExactly(c: Case, attempt: nat, h: Handler, now: string, landed: set<AuditPoint>)
    requires c.row.state == Executing && attempt <= c.row.maxRetries
    ensures var out := h(StopsAt(h, attempt, c.row.maxRetries));
      var t := Attempts(c, attempt, h, now, landed);
      && (t.after.row.state == Executing <==> out == Unserialisable)
      && (t.after.row.state == Succeeded <==> out.Unprintable?)
      && (t.after.row.state == Failed <==> EndsBlank(out, landed))
      && (t.after.row.state == Closed <==> EndsClosed(out, landed))
      && (t.after.row.state == DeadLetter <==>
            out != Unserialisable && !out.Unprintable? && !EndsBlank(out, landed) && !EndsClosed(out, landed))
      && (t.answer == Answer.Raised(BlankError) <==> EndsBlank(out, landed))
      && (t.answer == Returned <==> t.after.row.state == Closed || t.after.row.state == DeadLetter)
    decreases c.row.maxRetries - attempt
  {
    hide SameIdentity, CountFailure, Accept, Succeed, Exhaust, Redo, RedoStopsAt, WithOutput, ErrorText, Emit,
         Strings.Strip;
    var out := h(attempt);
    CountedRow(Called(c, out), attempt);
    if out.Unprintable? {
      SpoiledLoop(c, attempt, h, now, landed);
    } else if out.Output? {
      SucceededRow(Called(c, out), out, now, landed);
    } else if out != Unserialisable {
      if attempt < c.row.maxRetries {
        LoopEndsExactly(CountFailure(Called(c, out), attempt), attempt + 1, h, now, landed);
      } else {
        ExhaustedRow(CountFailure(Called(c, out), attempt), ErrorText(out), now, landed);
      }
    }
  }

  /** The failing case of the dead-letter promise, by the handler's answers and the one audit write. */
  lemma ExhaustedStaysFailedExactly(c: Case, attempt: nat, h: Handler, now: string, landed: set<AuditPoint>)
    requires c.row.state == Executing && attempt <= c.row.maxRetries
    ensures Attempts(c, attempt, h, now, landed).after.row.state == Failed <==>
            && (forall j :: attempt <= j <= c.row.maxRetries ==> !IsDict(h(j)) && h(j) != Unserialisable)
            && OnFailed in landed
            && Strings.Strip(ErrorText(h(c.row.maxRetries))) == ""
  {
    hide Attempts, Strings.Strip, ErrorText, StopsAt;
    LoopEndsExactly(c, attempt, h, now, landed);
  }

  function Silent(): Handler {
    attempt => Threw("")
  }

  /** Exhausted retries do not always dead-letter: a handler that throws without a word leaves the workflow failed. */
  lemma SilentHandlerStaysFailed(c: Case, now: string, landed: set<AuditPoint>)
    requires c.row.state == Executing && OnFailed in landed
    ensures var t := Attempts(c, 0, Silent(), now, landed);
      t.after.row.state == Failed && t.answer == Answer.Raised(BlankError)
  {
    hide Attempts;
    LoopEndsExactly(c, 0, Silent(), now, landed);
    assert Strings.Strip("") == "";
  }

  /**
    * A refused or denied submission, let in by the kill switch under a fresh key and id, is stored dead-letter
    * with a reason, unless the checks broke or refused without one. A denial without a reason is stored.
    */
  lemma RefusalIsStoredExactly(g: Wiring, w: World, op: Op)
    requires op.SubmitOp? && !op.screening.Clear?
    requires !KillSwitch.IsHalted(w.switch.halts, TenantOfRequest(op.req))
    requires op.req.correlation.idempotencyKey !in w.byKey && op.id !in w.cases
    ensures var r := Step(g, w, op);
      && (r.answer == Returned <==>
            op.screening.Denied? || (op.screening.Refused? && Strings.Strip(op.screening.message) != ""))
      && (r.answer != Returned ==> r == Reply(w, Answer.Raised(ChecksBroke)))
      && (r.answer == Returned ==>
            && op.id in r.after.cases
            && var row := r.after.cases[op.id].row;
            && row.state == DeadLetter && row.error.Some?
            && Strings.Strip(row.error.value.message) != ""
            && row.error.value.code ==
                 (if op.screening.Refused? then op.screening.code
                  else if op.screening.unauthorized || Strings.Strip(op.screening.why) == "" then Unauthorized
                  else PolicyDenied)
            && (op.screening.Refused? ==> row.error.value.message == Strings.Strip(op.screening.message))
            && (op.screening.Denied? && Strings.Strip(op.screening.why) != "" ==>
                  row.error.value.message == Strings.Strip(op.screening.why)))
  {
    hide SameIdentity, KillSwitch.IsHalted, Strings.StripLeft, Strings.StripRight;
    if op.screening.Refused? {
      Strings.StripIsStripped(op.screening.message);
    } else if op.screening.Denied? {
      Strings.StripIsStripped(op.screening.why);
      BlankMessageIsNot();
    }
  }

  lemma BlankMessageIsNot()
    ensures Strings.Strip(BLANK_MESSAGE) != ""
  {
    assert BLANK_MESSAGE[0] == 'e' && BLANK_MESSAGE[|BLANK_MESSAGE| - 1] == 'g';
    Strings.StripIsStripped(BLANK_MESSAGE);
  }

  // ---------------------------------------------------------------- how often the handler is called

  /** An execute call of the workflow that comes as far as its handler. */
  predicate IsLetIn(w: World, op: Op, id: string) {
    && op.ExecuteOp? && op.id == id && id in w.cases
    && var row := w.cases[id].row;
    && row.state == Executing && !IsPastDeadline(row, op.late) && row.capability in w.handlers
    && !KillSwitch.IsHalted(w.switch.halts, row.tenantId)
  }

  function CallsOfStep(w: World, op: Op, id: string): nat {
    if IsLetIn(w, op, id) then EndsAt(op.h, 0, w.cases[id].row.maxRetries) + 1 else 0
  }

  function CallsOfRun(g: Wiring, w: World, ops: seq<Op>, id: string): nat
    decreases |ops|
  {
    if ops == [] then 0 else CallsOfStep(w, ops[0], id) + CallsOfRun(g, Step(g, w, ops[0]).after, ops[1..], id)
  }

  lemma {:induction false} AnswersAreCounted(h: Handler, first: nat, last: nat)
    requires first <= last + 1
    ensures |Answers(h, first, last)| == last + 1 - first
    decreases last + 1 - first
  {
    if first <= last {
      AnswersAreCounted(h, first + 1, last);
    }
  }

  lemma ApproveCallsNothing(g: Wiring, c: Case, a: Approval, now: string, landed: set<AuditPoint>)
    ensures Approve(g, c, a, now, landed).after.calls == c.calls
  {
    hide SameIdentity, ErrorFor;
  }

  lemma ExecuteIsCounted(c: Case, registered: bool, h: Handler, now: string, late: bool, landed: set<AuditPoint>)
    ensures var after := Execute(c, registered, h, now, late, landed).after;
      |after.calls| == |c.calls| +
        if c.row.state == Executing && !IsPastDeadline(c.row, late) && registered
        then EndsAt(h, 0, c.row.maxRetries) + 1 else 0
  {
    hide Attempts, ErrorFor, EndsAt, SameIdentity;
    if c.row.state == Executing {
      var end := EndsAt(h, 0, c.row.maxRetries);
      LoopStopsExactly(c, 0, h, now, landed);
      AnswersAreCounted(h, 0, end);
    }
  }

  lemma LaunchCallsNothing(g: Wiring, req: TaskRequest, row: Row, now: string, late: bool, landed: set<AuditPoint>)
    requires row.state == Proposed
    ensures Launch(g, req, row, now, late, landed).after.calls == []
  {
    hide SameIdentity, ErrorFor, ProposalFor;
  }

  function CallsSoFar(w: World, id: string): nat {
    if id in w.cases then |w.cases[id].calls| else 0
  }

  lemma SubmitIsCounted(g: Wiring, w: World, op: Op, id: string)
    requires op.SubmitOp?
    ensures CallsSoFar(Submit(g, w, op).after, id) == CallsSoFar(w, id)
  {
    hide Launch, KillSwitch.IsHalted, SameIdentity, ErrorFor, Strings.Strip, TenantOfRequest;
    LaunchCallsNothing(g, op.req, Fresh(op), op.now, op.late, op.landed);
  }

  lemma StepIsCounted(g: Wiring, w: World, op: Op, id: string)
    ensures CallsSoFar(Step(g, w, op).after, id) == CallsSoFar(w, id) + CallsOfStep(w, op, id)
  {
    hide Submit, Approve, Execute, IsPastDeadline, EndsAt, KillSwitch.IsHalted, KillSwitch.Engage, KillSwitch.Release,
         Strings.Strip, SameIdentity;
    match op
    case SubmitOp(_, _, _, _, _, _, _, _) => SubmitIsCounted(g, w, op, id);
    case ApproveOp(on, a, now, landed) =>
      if on in w.cases {
        ApproveCallsNothing(g, w.cases[on], a, now, landed);
      }
    case ExecuteOp(on, h, now, late, landed) =>
      if on in w.cases {
        ExecuteIsCounted(w.cases[on], w.cases[on].row.capability in w.handlers, h, now, late, landed);
      }
    case _ =>
  }

  /** Over every run, a workflow's handler is called once for every answer its executions needed. */
  lemma {:induction false} RunIsCounted(g: Wiring, w: World, ops: seq<Op>, id: string)
    ensures CallsSoFar(Run(g, w, ops), id) == CallsSoFar(w, id) + CallsOfRun(g, w, ops, id)
    decreases |ops|
  {
    hide Step, CallsOfStep, CallsSoFar;
    if ops != [] {
      StepIsCounted(g, w, ops[0], id);
      RunIsCounted(g, Step(g, w, ops[0]).after, ops[1..], id);
    }
  }

  /** So the bound holds in a reached runtime exactly when the run's executions needed no more answers than that. */
  lemma ReachedCallsAreCounted(org: Organization, catalog: Catalog, ops: seq<Op>, id: string)
    requires id in Reached(org, catalog, ops).cases
    ensures |Reached(org, catalog, ops).cases[id].calls| == CallsOfRun(WiringOf(org, catalog), EMPTY_WORLD, ops, id)
  {
    RunIsCounted(WiringOf(org, catalog), EMPTY_WORLD, ops, id);
  }

  /** The deciding answer is a dict that cannot be written. */
  predicate IsStuck(row: Row, h: Handler) {
    h(StopsAt(h, 0, row.maxRetries)) == Unserialisable
  }

  /** Then the loop changes nothing in the row but the count of retries. */
  lemma {:induction false} StuckLoopKeepsRow(c: Case, attempt: nat, h: Handler, now: string, landed: set<AuditPoint>)
    requires c.row.state == Executing && attempt <= c.row.maxRetries
    requires h(StopsAt(h, attempt, c.row.maxRetries)) == Unserialisable
    ensures var row := Attempts(c, attempt, h, now, landed).after.row; row == c.row.(retryCount := row.retryCount)
    decreases c.row.maxRetries - attempt
  {
    hide SameIdentity, CountFailure, Accept, Succeed, Exhaust, Redo, ErrorText;
    if h(attempt) != Unserialisable {
      CountedRow(Called(c, h(attempt)), attempt);
      StuckLoopKeepsRow(CountFailure(Called(c, h(attempt)), attempt), attempt + 1, h, now, landed);
    }
  }

  function Again(op: Op, n: nat): (ops: seq<Op>)
    ensures |ops| == n && forall i :: 0 <= i < n ==> ops[i] == op
  {
    seq(n, i => op)
  }

  lemma AgainFrom(g: Wiring, w: World, op: Op, n: nat, id: string)
    requires n > 0
    ensures CallsOfRun(g, w, Again(op, n), id) ==
            CallsOfStep(w, op, id) + CallsOfRun(g, Step(g, w, op).after, Again(op, n - 1), id)
  {
    hide Step, CallsOfStep;
    assert Again(op, n)[1..] == Again(op, n - 1);
  }

  /** Work that is no longer executing calls its handler no more. */
  lemma {:induction false} RestingIsNotCalled(g: Wiring, w: World, op: Op, n: nat)
    requires op.ExecuteOp? && op.id in w.cases && w.cases[op.id].row.state != Executing
    ensures CallsOfRun(g, w, Again(op, n), op.id) == 0
    decreases n
  {
    if n > 0 {
      AgainFrom(g, w, op, n, op.id);
      assert Step(g, w, op).after == w by {
        assert w.cases[op.id := w.cases[op.id]] == w.cases;
      }
      RestingIsNotCalled(g, w, op, n - 1);
    }
  }

  /** An execution that gets stuck can be repeated, and calls the handler each time. */
  lemma {:induction false} StuckIsCalledAgain(g: Wiring, w: World, op: Op, n: nat)
    requires op.ExecuteOp? && IsLetIn(w, op, op.id) && IsStuck(w.cases[op.id].row, op.h)
    ensures CallsOfRun(g, w, Again(op, n), op.id) >= n
    decreases n
  {
    hide Attempts, KillSwitch.IsHalted, StopsAt, EndsAt, SameIdentity;
    if n > 0 {
      AgainFrom(g, w, op, n, op.id);
      StuckLoopKeepsRow(w.cases[op.id], 0, op.h, op.now, op.landed);
      StuckIsCalledAgain(g, Step(g, w, op).after, op, n - 1);
    }
  }

  /** However often the call is repeated, it adds at most maxRetries + 1 calls of the handler. */
  ghost predicate StaysWithinBudget(g: Wiring, w: World, op: Op)
    requires op.ExecuteOp? && op.id in w.cases
  {
    forall n: nat ::
      CallsSoFar(Run(g, w, Again(op, n)), op.id) <= CallsSoFar(w, op.id) + w.cases[op.id].row.maxRetries + 1
  }

  /** The bound on the handler's calls, exactly: it holds unless what decides is a dict that cannot be written. */
  lemma BudgetHoldsExactlyUnlessStuck(g: Wiring, w: World, op: Op)
    requires op.ExecuteOp? && IsLetIn(w, op, op.id)
    ensures StaysWithinBudget(g, w, op) <==> !IsStuck(w.cases[op.id].row, op.h)
  {
    hide Run, CallsOfRun, CallsSoFar, IsStuck;
    var most := w.cases[op.id].row.maxRetries + 1;
    if IsStuck(w.cases[op.id].row, op.h) {
      StuckIsCalledAgain(g, w, op, most + 1);
      RunIsCounted(g, w, Again(op, most + 1), op.id);
      assert CallsSoFar(Run(g, w, Again(op, most + 1)), op.id) > CallsSoFar(w, op.id) + most;
    } else {
      forall n: nat
        ensures CallsSoFar(Run(g, w, Again(op, n)), op.id) <= CallsSoFar(w, op.id) + most
      {
        FreeStaysWithinBudget(g, w, op, n);
        RunIsCounted(g, w, Again(op, n), op.id);
      }
    }
  }

  lemma FreeStaysWithinBudget(g: Wiring, w: World, op: Op, n: nat)
    requires op.ExecuteOp? && IsLetIn(w, op, op.id) && !IsStuck(w.cases[op.id].row, op.h)
    ensures CallsOfRun(g, w, Again(op, n), op.id) <= w.cases[op.id].row.maxRetries + 1
  {
    hide Attempts, KillSwitch.IsHalted, StopsAt, EndsAt, SameIdentity;
    if n > 0 {
      AgainFrom(g, w, op, n, op.id);
      LoopEndsExactly(w.cases[op.id], 0, op.h, op.now, op.landed);
      RestingIsNotCalled(g, Step(g, w, op).after, op, n - 1);
    }
  }

  function Unwritable(): Handler {
    attempt => Unserialisable
  }

  function ExecuteTimes(id: string, now: string, n: nat): (ops: seq<Op>)
    ensures |ops| == n
    ensures forall i :: 0 <= i < n ==> ops[i] == ExecuteOp(id, Unwritable(), now, false, {})
  {
    seq(n, i => ExecuteOp(id, Unwritable(), now, false, {}))
  }

  /**
    * The bound on handler calls does need its condition: a handler that keeps returning an unwritable payload
    * is called again by every execute call, without end and without a trace in the row.
    */
  lemma {:induction false} UnwritablePayloadRunsAgain(g: Wiring, w: World, id: string, now: string, n: nat)
    requires id in w.cases && w.cases[id].row.state == Executing
    requires w.cases[id].row.capability in w.handlers
    requires !KillSwitch.IsHalted(w.switch.halts, w.cases[id].row.tenantId)
    decreases n
    ensures var after := Run(g, w, ExecuteTimes(id, now, n));
      && id in after.cases
      && after.cases[id].row == w.cases[id].row
      && |after.cases[id].calls| == |w.cases[id].calls| + n
  {
    if n > 0 {
      var ops := ExecuteTimes(id, now, n);
      var c := w.cases[id];
      var next := Step(g, w, ops[0]).after;
      assert next.cases[id] == Called(c, Unserialisable);
      assert ops[1..] == ExecuteTimes(id, now, n - 1);
      UnwritablePayloadRunsAgain(g, next, id, now, n - 1);
    }
  }

  lemma {:induction false} RunInTwo(g: Wiring, w: World, first: seq<Op>, second: seq<Op>)
    ensures Run(g, w, first + second) == Run(g, Run(g, w, first), second)
    decreases |first|
  {
    hide Step;
    if first == [] {
      assert first + second == second;
    } else {
      assert (first + second)[1..] == first[1..] + second;
      RunInTwo(g, Step(g, w, first[0]).after, first[1..], second);
    }
  }

  const ALL_POINTS := {OnCreated, OnValidated, OnExecuting, OnGranted, OnDeclined, OnSucceeded, OnClosed, OnFailed}

  /** A submission the gate lets run at once is executing when the call returns. */
  lemma SubmissionStarts(g: Wiring, w: World, req: TaskRequest, id: string, taskId: string, now: string, d: Decision)
    requires g.gate(ProposalFor(g, req)) == Decided(d) && d.allowed && !d.requiresHumanApproval
    requires !req.requiresApproval && !req.hasTimeout
    requires !KillSwitch.IsHalted(w.switch.halts, TenantOfRequest(req))
    requires req.correlation.idempotencyKey !in w.byKey && id !in w.cases
    ensures var after := Step(g, w, SubmitOp(req, id, taskId, "", now, Clear, false, ALL_POINTS)).after;
      && id in after.cases
      && after.cases[id].row.state == Executing && after.cases[id].calls == []
      && after.cases[id].row.capability == req.capability
      && after.cases[id].row.tenantId == req.correlation.tenantId
      && after.handlers == w.handlers && after.switch == w.switch
  {
    hide SameIdentity, KillSwitch.IsHalted, ProposalFor, TenantOfRequest, ErrorFor;
  }

  /** And such work is reached: registered, submitted and executed n times, the handler has been called n times. */
  lemma UnwritablePayloadRunsFromScratch(g: Wiring, req: TaskRequest, id: string, taskId: string, now: string,
                                         d: Decision, n: nat)
    requires g.gate(ProposalFor(g, req)) == Decided(d) && d.allowed && !d.requiresHumanApproval
    requires !req.requiresApproval && !req.hasTimeout
    requires req.capability != "" && Strings.Strip(req.capability) == req.capability
    requires req.correlation.tenantId.Some? && Strings.Strip(req.correlation.tenantId.value) != ""
    ensures var start := [RegisterOp(req.capability), SubmitOp(req, id, taskId, "", now, Clear, false, ALL_POINTS)];
      var after := Run(g, EMPTY_WORLD, start + ExecuteTimes(id, now, n));
      id in after.cases && after.cases[id].row.state == Executing && |after.cases[id].calls| == n
  {
    hide ProposalFor, Strings.Strip, Submit, Execute;
    var register, submit := RegisterOp(req.capability), SubmitOp(req, id, taskId, "", now, Clear, false, ALL_POINTS);
    var registered := Step(g, EMPTY_WORLD, register).after;
    var submitted := Step(g, registered, submit).after;
    SubmissionStarts(g, registered, req, id, taskId, now, d);
    assert [register, submit][1..] == [submit] && [submit][1..] == [];
    assert Run(g, EMPTY_WORLD, [register, submit]) == Run(g, registered, [submit]) == Run(g, submitted, []) == submitted;
    RunInTwo(g, EMPTY_WORLD, [register, submit], ExecuteTimes(id, now, n));
    UnwritablePayloadRunsAgain(g, submitted, id, now, n);
  }

  lemma ProposalAsks(g: Wiring, req: TaskRequest)
    ensures ProposalFor(g, req).requiresApproval == req.requiresApproval
  {
  }

  /** A replay that does not end in the stored state is reached too: submit work that starts, cancel it namelessly. */
  lemma ReplayCanFail(org: Organization, catalog: Catalog, req: TaskRequest, id: string, taskId: string, now: string)
    requires RunsAlone(org, ProposalFor(WiringOf(org, catalog), req)) && !req.hasTimeout
    requires req.correlation.tenantId.Some? && Strings.Strip(req.correlation.tenantId.value) != ""
    ensures var c := Reached(org, catalog, [SubmitOp(req, id, taskId, "", now, Clear, false, ALL_POINTS),
                                            CancelOp(id, "", now)]).cases;
      id in c && c[id].row.state == Cancelled && LastState(c[id].log) != Some(Cancelled)
  {
    hide ProposalFor, EvaluateGate, Submit, LastState, IsLegalLog;
    var g := WiringOf(org, catalog);
    var submit, cancel := SubmitOp(req, id, taskId, "", now, Clear, false, ALL_POINTS), CancelOp(id, "", now);
    var v := g.gate(ProposalFor(g, req));
    assert v == EvaluateGate(org, ProposalFor(g, req));
    VerdictFlags(org, ProposalFor(g, req));
    ProposalAsks(g, req);
    SubmissionStarts(g, EMPTY_WORLD, req, id, taskId, now, v.decision);
    var submitted := Step(g, EMPTY_WORLD, submit).after;
    assert Strings.Strip("") == "";
    assert Strands(submitted, cancel, id);
    assert [submit, cancel][1..] == [cancel] && [cancel][1..] == [];
    assert WasStranded(g, submitted, [cancel], id);
    assert Run(g, EMPTY_WORLD, [submit, cancel]) == Run(g, submitted, [cancel]) ==
           Run(g, Step(g, submitted, cancel).after, []);
    ReplayTellsState(org, catalog, [submit, cancel], id);
  }

  // ---------------------------------------------------------------- the kill switch

  /** The scopes whose halt stops a tenant's work. */
  predicate Covers(scope: string, tenant: Option<string>) {
    scope == KillSwitch.GLOBAL_SCOPE || (tenant.Some? && Strings.Strip(tenant.value) == scope)
  }

  /** Whose tenant a committal call is asked about; other calls are not asked. */
  function TenantAsked(w: World, op: Op): Option<Option<string>> {
    match op
    case SubmitOp(req, _, _, _, _, _, _, _) => Some(TenantOfRequest(req))
    case ApproveOp(id, _, _, _) => if id in w.cases then Some(w.cases[id].row.tenantId) else None
    case ExecuteOp(id, _, _, _, _) => if id in w.cases then Some(w.cases[id].row.tenantId) else None
    case _ => None
  }

  /** Not a release of the given scope. */
  predicate Leaves(op: Op, scope: string) {
    op.ReleaseOp? ==> KillSwitch.ScopeFor(op.tenant) != Some(scope)
  }

  /** A halted call changes nothing and says so. */
  lemma HaltStopsCall(g: Wiring, w: World, op: Op, scope: string)
    requires scope in w.switch.halts
    requires TenantAsked(w, op).Some? && Covers(scope, TenantAsked(w, op).value)
    ensures Step(g, w, op) == Reply(w, Answer.Raised(SwitchEngaged))
  {
    hide Approve, Execute;
  }

  lemma HaltStays(g: Wiring, w: World, op: Op, scope: string)
    requires scope in w.switch.halts && Leaves(op, scope)
    ensures scope in Step(g, w, op).after.switch.halts
  {
    hide Submit, Approve, Execute, Cancel;
    if op.SubmitOp? {
      assert Submit(g, w, op).after.switch == w.switch by {
        SubmitLeavesSwitch(g, w, op);
      }
    }
  }

  lemma SubmitLeavesSwitch(g: Wiring, w: World, op: Op)
    requires op.SubmitOp?
    ensures Submit(g, w, op).after.switch == w.switch
  {
    hide Launch, Isolate;
  }

  /** What one call can do to workflows of a halted tenant: a cancellation of that very workflow, or nothing. */
  lemma StepFreezes(g: Wiring, w: World, op: Op, scope: string, tenant: Option<string>, id: string)
    requires scope in w.switch.halts && Covers(scope, tenant)
    requires !(op.CancelOp? && op.id == id)
    ensures id in w.cases && w.cases[id].row.tenantId == tenant ==>
              id in Step(g, w, op).after.cases && Step(g, w, op).after.cases[id] == w.cases[id]
    ensures id in Step(g, w, op).after.cases && Step(g, w, op).after.cases[id].row.tenantId == tenant ==>
              id in w.cases
  {
    hide Launch, Isolate, Approve, Execute, Cancel;
    if op.SubmitOp? && Submit(g, w, op).after != w && id == op.id && op.req.correlation.tenantId == tenant {
      HaltStopsCall(g, w, op, scope);
    }
  }

  predicate Spares(op: Op, scope: string, id: string) {
    Leaves(op, scope) && !(op.CancelOp? && op.id == id)
  }

  /** While a covering halt is in force, no run moves a workflow of the tenant, or adds one, except to cancel it. */
  lemma {:induction false} HaltFreezesTenant(g: Wiring, w: World, ops: seq<Op>, scope: string, tenant: Option<string>,
                                             id: string)
    requires scope in w.switch.halts && Covers(scope, tenant)
    requires forall i :: 0 <= i < |ops| ==> Spares(ops[i], scope, id)
    requires id in w.cases ==> w.cases[id].row.tenantId == tenant
    ensures var after := Run(g, w, ops);
      && (id in w.cases ==> id in after.cases && after.cases[id] == w.cases[id])
      && (id !in w.cases && id in after.cases ==> after.cases[id].row.tenantId != tenant)
    decreases |ops|
  {
    if ops != [] {
      assert Spares(ops[0], scope, id);
      StepFreezes(g, w, ops[0], scope, tenant, id);
      HaltStays(g, w, ops[0], scope);
      var next := Step(g, w, ops[0]).after;
      if id in next.cases && next.cases[id].row.tenantId != tenant {
        TenantIsFixed(g, next, ops[1..], id);
      } else {
        HaltFreezesTenant(g, next, ops[1..], scope, tenant, id);
      }
    }
  }

  lemma StepFixesTenant(g: Wiring, w: World, op: Op, id: string)
    requires id in w.cases
    ensures id in Step(g, w, op).after.cases
    ensures Step(g, w, op).after.cases[id].row.tenantId == w.cases[id].row.tenantId
  {
    hide Launch, Isolate, Approve, Execute, Cancel;
  }

  lemma {:induction false} TenantIsFixed(g: Wiring, w: World, ops: seq<Op>, id: string)
    requires id in w.cases
    ensures id in Run(g, w, ops).cases
    ensures Run(g, w, ops).cases[id].row.tenantId == w.cases[id].row.tenantId
    decreases |ops|
  {
    if ops != [] {
      StepFixesTenant(g, w, ops[0], id);
      TenantIsFixed(g, Step(g, w, ops[0]).after, ops[1..], id);
    }
  }

  /** The same runtime with one tenant's halt taken away. */
  function Without(w: World, scope: string): World {
    w.(switch := w.switch.(halts := w.switch.halts - {scope}))
  }

  /** A call that is neither asked about the halted tenant nor meddles with its halt. */
  predicate IsForeign(w: World, op: Op, scope: string) {
    && (TenantAsked(w, op).Some? ==> !Covers(scope, TenantAsked(w, op).value))
    && (op.EngageOp? || op.ReleaseOp? ==> KillSwitch.ScopeFor(op.tenant) != Some(scope))
  }

  /** Other tenants' calls answer, and change things, exactly as if the halt were not there. */
  lemma HaltIsInvisibleToOthers(g: Wiring, w: World, op: Op, scope: string)
    requires scope != KillSwitch.GLOBAL_SCOPE && IsForeign(w, op, scope)
    ensures Step(g, Without(w, scope), op) ==
            Reply(Without(Step(g, w, op).after, scope), Step(g, w, op).answer)
  {
    hide Launch, Isolate, Approve, Execute, Cancel;
    if op.EngageOp? && KillSwitch.CanEngage(op.reason, op.actor, op.tenant) {
      var s := KillSwitch.ScopeFor(op.tenant).value;
      var h := KillSwitch.Halt(Strings.Strip(op.reason), Strings.Strip(op.actor), op.now);
      assert w.switch.halts[s := h] - {scope} == (w.switch.halts - {scope})[s := h];
    } else if op.ReleaseOp? && KillSwitch.CanRelease(op.actor, op.tenant) {
      var s := KillSwitch.ScopeFor(op.tenant).value;
      assert (w.switch.halts - {s}) - {scope} == (w.switch.halts - {scope}) - {s};
    }
  }

  predicate AllForeign(g: Wiring, w: World, ops: seq<Op>, scope: string)
    decreases |ops|
  {
    ops == [] || (IsForeign(w, ops[0], scope) && AllForeign(g, Step(g, w, ops[0]).after, ops[1..], scope))
  }

  /** Whole runs of other tenants cannot tell whether a tenant is halted. */
  lemma {:induction false} HaltIsInvisibleToRuns(g: Wiring, w: World, ops: seq<Op>, scope: string)
    requires scope != KillSwitch.GLOBAL_SCOPE && AllForeign(g, w, ops, scope)
    ensures Run(g, Without(w, scope), ops) == Without(Run(g, w, ops), scope)
    decreases |ops|
  {
    if ops != [] {
      HaltIsInvisibleToOthers(g, w, ops[0], scope);
      HaltIsInvisibleToRuns(g, Step(g, w, ops[0]).after, ops[1..], scope);
    }
  }

  /** Whatever is halted, an operator who gives a name can stop in-flight work; one who does not only half does. */
  lemma CancelIgnoresHalts(g: Wiring, w: World, id: string, actor: string, now: string)
    requires id in w.cases && IsCancellable(w.cases[id])
    ensures var r := Step(g, w, CancelOp(id, actor, now));
      && (r.answer == Returned <==> Strings.Strip(actor) != "")
      && r.after.cases[id].row.state == (if Strings.Strip(actor) != "" then Closed else Cancelled)
      && r.after == w.(cases := w.cases[id := r.after.cases[id]])
  {
    hide Strings.Strip, SameIdentity;
  }
}
