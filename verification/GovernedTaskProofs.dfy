/** What every run of the governed task manager keeps. */
module GovernedTaskProofs {
  import opened Wrappers
  import opened WorkflowStates
  import opened RoleCatalog
  import opened Ledger
  import opened GovernedTasks
  import Strings

  /** The ledger rows of one task, oldest first. */
  function RowsOf(ledger: seq<Entry>, id: string): seq<Signed> {
    if ledger == [] then []
    else
      var last := ledger[|ledger| - 1].signed;
      RowsOf(ledger[..|ledger| - 1], id) + if last.taskId == id then [last] else []
  }

  lemma RowsOfAppend(ledger: seq<Entry>, e: Entry, id: string)
    ensures RowsOf(ledger + [e], id) == RowsOf(ledger, id) + if e.signed.taskId == id then [e.signed] else []
  {
    assert (ledger + [e])[..|ledger|] == ledger;
  }

  lemma {:induction false} NoRows(ledger: seq<Entry>, id: string)
    requires forall e :: e in ledger ==> e.signed.taskId != id
    ensures RowsOf(ledger, id) == []
  {
    if ledger != [] {
      NoRows(ledger[..|ledger| - 1], id);
    }
  }

  /** The rows are one connected legal path from nothing to the stored state. */
  ghost predicate IsHistory(rows: seq<Signed>, t: Task) {
    && rows != []
    && rows[0].fromState == None && rows[0].toState == Proposed
    && (forall i, j :: 0 <= i < j < |rows| && j == i + 1 ==>
          rows[j].fromState == Some(rows[i].toState) && IsValidTransition(rows[i].toState, rows[j].toState))
    && rows[|rows| - 1].toState == t.state
  }

  /** The row says what was decided: held while it waits, denied where it fails, allowed otherwise. */
  predicate TellsDecision(row: Signed) {
    && row.eventType == TaskMoved(row.toState)
    && (row.decision == Held <==> row.toState == AwaitingApproval)
    && (row.decision == Denied <==> row.toState == Failed || row.toState == DeadLetter)
  }

  ghost predicate TellsFacts(rows: seq<Signed>, t: Task) {
    && (forall i :: 0 <= i < |rows| ==> rows[i].facts == FactsOf(t) && rows[i].correlationId == t.correlationId)
    && (rows != [] ==> rows[0].eventType == TaskProposed)
    && (forall i :: 0 < i < |rows| ==> TellsDecision(rows[i]))
  }

  predicate FlagsTell(d: Decision, p: Proposal) {
    && (d.state == Executing ==> !p.requiresApproval)
    && (d.state == Executing <==> d.allowed && !d.requiresHumanApproval)
    && (d.state == AwaitingApproval <==> d.requiresHumanApproval)
    && (d.state == DeadLetter <==> !d.allowed)
    && (d.state == Executing || d.state == AwaitingApproval || d.state == DeadLetter)
  }

  /**
    * What the manager relies on the gate for: the flags tell the verdict, asking for a human never runs alone,
    * and not asking for one cannot make the gate raise.
    */
  ghost predicate IsSane(o: Office) {
    && (forall p :: o.gate(p).Decided? ==> FlagsTell(o.gate(p).decision, p))
    && (forall p :: o.gate(p).Decided? ==> o.gate(p.(requiresApproval := false)).Decided?)
  }

  lemma OfficeIsSane(org: Organization, h: Hash)
    ensures IsSane(OfficeOf(org, h))
  {
    var o := OfficeOf(org, h);
    assert forall p :: o.gate(p) == EvaluateGate(org, p);
    hide EvaluateGate, OfficeOf;
    forall p | o.gate(p).Decided?
      ensures FlagsTell(o.gate(p).decision, p)
      ensures o.gate(p.(requiresApproval := false)).Decided?
    {
      VerdictFlags(org, p);
    }
  }

  /** The gate lets the task, as stored, run without a human. */
  ghost predicate Alone(o: Office, t: Task) {
    var v := o.gate(ProposalOf(t));
    v.Decided? && v.decision.state == Executing
  }

  /** A human with another id, able to cover the cost, approved in the row just before i. */
  ghost predicate IsReleased(o: Office, rows: seq<Signed>, t: Task, i: nat) {
    && 0 < i <= |rows|
    && rows[i - 1].toState == WorkflowStates.Approved
    && rows[i - 1].reason == HumanApproved
    && rows[i - 1].actorId != t.actorId
    && MayCover(o, rows[i - 1].actorId, t.cost)
  }

  /** The task was validated in the row just before i, and the gate lets it run without a human. */
  ghost predicate StartsAlone(o: Office, rows: seq<Signed>, t: Task, i: nat) {
    0 < i <= |rows| && rows[i - 1].toState == Validated && Alone(o, t)
  }

  /** Work started either on the gate's word, straight after validation, or on a human's. */
  ghost predicate IsJustified(o: Office, rows: seq<Signed>, t: Task) {
    forall i :: 0 <= i < |rows| && rows[i].toState == Executing ==>
      StartsAlone(o, rows, t, i) || IsReleased(o, rows, t, i)
  }

  ghost predicate TaskKept(o: Office, rows: seq<Signed>, t: Task) {
    && IsHistory(rows, t)
    && TellsFacts(rows, t)
    && IsJustified(o, rows, t)
    && o.gate(ProposalOf(t)).Decided?
  }

  ghost predicate RowKept(o: Office, book: Book, id: string)
    requires id in book.tasks
  {
    book.tasks[id].taskId == id && TaskKept(o, RowsOf(book.ledger, id), book.tasks[id])
  }

  ghost predicate OnlyKnownTasks(book: Book) {
    forall e :: e in book.ledger ==> e.signed.taskId in book.tasks
  }

  /** The chain is linked, and every stored task is the outcome of its own justified history. */
  ghost predicate BookKept(o: Office, book: Book) {
    && Linked(o.hash, book.ledger)
    && OnlyKnownTasks(book)
    && (forall id :: id in book.tasks ==> RowKept(o, book, id))
  }

  lemma Kept(o: Office, book: Book, id: string)
    requires BookKept(o, book) && id in book.tasks
    ensures RowKept(o, book, id) && book.tasks[id].taskId == id
  {
  }

  /** Same task, up to the columns a state write may touch. */
  ghost predicate SameTask(a: Task, b: Task) {
    && a.taskId == b.taskId && a.actorId == b.actorId && a.actorRole == b.actorRole
    && FactsOf(a) == FactsOf(b) && a.correlationId == b.correlationId
  }

  lemma HistoryGrows(o: Office, rows: seq<Signed>, t: Task, row: Signed, t': Task)
    requires TaskKept(o, rows, t)
    requires SameTask(t, t') && row.facts == FactsOf(t') && row.correlationId == t.correlationId
    requires row.toState == t'.state && TellsDecision(row)
    requires row.fromState == Some(t.state) && IsValidTransition(t.state, row.toState)
    requires row.toState == Executing ==> StartsAlone(o, rows, t, |rows|) || IsReleased(o, rows, t, |rows|)
    ensures TaskKept(o, rows + [row], t')
  {
    hide TellsDecision, MayCover, IsValidTransition;
    var after := rows + [row];
    forall i | 0 <= i < |after| && after[i].toState == Executing
      ensures StartsAlone(o, after, t', i) || IsReleased(o, after, t', i)
    {
      if i < |rows| {
        assert StartsAlone(o, rows, t, i) || IsReleased(o, rows, t, i);
      }
    }
  }

  /**
    * When a rewritten target would not be a legal move: exactly when approved work, re-examined without a
    * human token, is held back. No public operation asks for that.
    */
  lemma TargetIsLegalUnlessApprovedIsHeldBack(o: Office, t: Task, w: Write)
    requires IsValidTransition(t.state, w.to)
    ensures IsValidTransition(t.state, Target(o, t, w)) <==>
            !(t.state == WorkflowStates.Approved && IsHeldBack(o, t, w))
  {
  }

  /** What a write must bring with it: a token for approved work, and a human's word for starting it. */
  ghost predicate IsProper(o: Office, book: Book, t: Task, w: Write) {
    && (w.to == Executing && t.state == WorkflowStates.Approved ==> w.humanApproved)
    && (w.to == Executing && w.humanApproved ==>
          var rows := RowsOf(book.ledger, t.taskId);
          IsReleased(o, rows, t, |rows|))
    && (w.to == Executing && !w.humanApproved ==>
          var v := o.gate(ProposalOf(t));
          v.Decided? && v.decision.allowed)
  }

  /** The tables after one row is put in place and one ledger entry recorded for it. */
  function Recorded(o: Office, book: Book, t: Task, s: Signed): Book {
    Book(book.tasks[t.taskId := t], Appended(o.hash, book.ledger, s))
  }

  lemma RecordedRows(o: Office, book: Book, t: Task, s: Signed, id: string)
    requires s.taskId == t.taskId
    ensures var rows := RowsOf(book.ledger, id);
      RowsOf(Recorded(o, book, t, s).ledger, id) ==
        if id == t.taskId then rows + [s.(prevHash := Head(book.ledger))] else rows
  {
    var signed := s.(prevHash := Head(book.ledger));
    RowsOfAppend(book.ledger, Entry(signed, o.hash(signed)), id);
  }

  /** The one way the tables change: a row is put in place and exactly that is recorded. */
  lemma RecordKeepsBook(o: Office, book: Book, t: Task, s: Signed)
    requires BookKept(o, book)
    requires s.taskId == t.taskId
    requires TaskKept(o, RowsOf(book.ledger, t.taskId) + [s.(prevHash := Head(book.ledger))], t)
    ensures BookKept(o, Recorded(o, book, t, s))
  {
    var after := Recorded(o, book, t, s);
    AppendKeepsLinked(o.hash, book.ledger, s);
    forall id | id in after.tasks
      ensures RowKept(o, after, id)
    {
      RecordedRows(o, book, t, s, id);
      if id != t.taskId {
        assert RowKept(o, book, id);
      }
    }
  }

  /** The ledger row a state write leaves, before it is linked. */
  function RowFor(o: Office, t: Task, w: Write): Signed {
    var r := Rewritten(o, t, w);
    Signed(w.stamp.eventId, w.stamp.at, r.correlationId, w.actor, w.role, TaskMoved(r.state),
           OutcomeOf(r.state), ReasonWritten(o, t, w), RemarkWritten(o, t, w), r.taskId, Some(t.state), r.state,
           FactsOf(r), "")
  }

  lemma CommitIsRecorded(o: Office, book: Book, t: Task, w: Write)
    requires CommitAllowed(o, book, t, w)
    requires book.tasks[t.taskId] == t.(payload := book.tasks[t.taskId].payload)
    ensures CommitState(o, book, t, w) == Attempt(Recorded(o, book, Rewritten(o, t, w), RowFor(o, t, w)), true)
    ensures Rewritten(o, t, w).taskId == RowFor(o, t, w).taskId == t.taskId
  {
  }

  /** A written state extends the task's history by a legal, justified step. */
  lemma CommitGrowsHistory(o: Office, book: Book, t: Task, w: Write, prev: string)
    requires TaskKept(o, RowsOf(book.ledger, t.taskId), t) && CommitAllowed(o, book, t, w)
    requires IsSane(o) && IsProper(o, book, t, w)
    ensures TaskKept(o, RowsOf(book.ledger, t.taskId) + [RowFor(o, t, w).(prevHash := prev)], Rewritten(o, t, w))
  {
    hide RowsOf, IsReleased, TellsFacts, IsJustified;
    TargetIsLegalUnlessApprovedIsHeldBack(o, t, w);
    HistoryGrows(o, RowsOf(book.ledger, t.taskId), t, RowFor(o, t, w).(prevHash := prev), Rewritten(o, t, w));
  }

  lemma PayloadIsNoMatter(o: Office, rows: seq<Signed>, a: Task, b: Task)
    requires TaskKept(o, rows, a) && b == a.(payload := b.payload)
    ensures TaskKept(o, rows, b)
  {
    assert ProposalOf(a) == ProposalOf(b);
    forall i | 0 <= i < |rows| && rows[i].toState == Executing
      ensures StartsAlone(o, rows, b, i) || IsReleased(o, rows, b, i)
    {
      assert StartsAlone(o, rows, a, i) || IsReleased(o, rows, a, i);
    }
  }

  /** Every committed state keeps the tables in agreement. */
  lemma CommitKeepsBook(o: Office, book: Book, t: Task, w: Write)
    requires BookKept(o, book) && t.taskId in book.tasks
    requires book.tasks[t.taskId] == t.(payload := book.tasks[t.taskId].payload)
    requires IsSane(o) && IsProper(o, book, t, w)
    ensures var after := CommitState(o, book, t, w);
      && BookKept(o, after.book)
      && (after.ok ==>
            && t.taskId in after.book.tasks
            && after.book.tasks[t.taskId] == Rewritten(o, t, w)
            && RowsOf(after.book.ledger, t.taskId) ==
                 RowsOf(book.ledger, t.taskId) + [RowFor(o, t, w).(prevHash := Head(book.ledger))])
  {
    hide BookKept, TaskKept, IsProper, IsSane, RowsOf, CommitAllowed, Rewritten;
    if CommitAllowed(o, book, t, w) {
      CommitIsRecorded(o, book, t, w);
      Kept(o, book, t.taskId);
      PayloadIsNoMatter(o, RowsOf(book.ledger, t.taskId), book.tasks[t.taskId], t);
      CommitGrowsHistory(o, book, t, w, Head(book.ledger));
      RecordKeepsBook(o, book, Rewritten(o, t, w), RowFor(o, t, w));
      RecordedRows(o, book, Rewritten(o, t, w), RowFor(o, t, w), t.taskId);
    }
  }

  /** A first row with its ledger entry is a history of its own. */
  lemma ProposeKeepsBook(o: Office, book: Book, t: Task, d: Decision, stamp: Stamp)
    requires BookKept(o, book)
    requires t.taskId !in book.tasks && t.state == Proposed && o.gate(ProposalOf(t)).Decided?
    ensures var after := Propose(o, book, t, d, stamp);
      BookKept(o, after) && after.tasks == book.tasks[t.taskId := t]
  {
    var s := Signed(stamp.eventId, stamp.at, t.correlationId, t.actorId, t.actorRole, TaskProposed,
                    if !d.allowed then Denied else if d.requiresHumanApproval then Held else Allowed,
                    GateSaid(d.code), GateRemark(d.code), t.taskId, None, Proposed, FactsOf(t), "");
    NoRows(book.ledger, t.taskId);
    assert TaskKept(o, [s.(prevHash := Head(book.ledger))], t);
    RecordKeepsBook(o, book, t, s);
    assert Propose(o, book, t, d, stamp) == Recorded(o, book, t, s);
  }

  /** Same task, up to the columns that every state write rewrites and the payload. */
  predicate SameFacts(a: Task, b: Task) {
    && b == a.(state := b.state, updatedAt := b.updatedAt, reason := b.reason, remark := b.remark, error := b.error)
  }

  /** A further write to a stored task, when it does not start work. */
  lemma ThenKeepsBook(o: Office, before: Attempt, id: string, w: Write)
    requires IsSane(o) && BookKept(o, before.book)
    requires id in before.book.tasks ==> IsProper(o, before.book, before.book.tasks[id], w)
    ensures var after := Then(o, before, id, w);
      && BookKept(o, after.book)
      && (before.ok && id in before.book.tasks && CommitAllowed(o, before.book, before.book.tasks[id], w) ==>
            && after.ok && id in after.book.tasks
            && after.book.tasks[id] == Rewritten(o, before.book.tasks[id], w))
      && (after.ok ==> before.ok && id in before.book.tasks)
  {
    if before.ok && id in before.book.tasks {
      assert RowKept(o, before.book, id);
      CommitKeepsBook(o, before.book, before.book.tasks[id], w);
    }
  }

  /** A submission that names an engine, fits the gate and has a fresh id. */
  predicate IsAdmissible(o: Office, book: Book, req: Request, override: Option<string>, id: string) {
    && EngineOf(req, override).Some?
    && o.gate(ProposalFor(o, req, EngineOf(req, override).value)).Decided?
    && id !in book.tasks
  }

  /** Both settling writes go through, and the task ends in the state the gate named. */
  lemma SettleKeepsBook(o: Office, proposed: Book, t: Task, d: Decision, first: Stamp, second: Stamp)
    requires IsSane(o) && BookKept(o, proposed)
    requires t.taskId in proposed.tasks && proposed.tasks[t.taskId] == t && t.state == Proposed
    requires d.allowed <==> d.state != DeadLetter
    requires d.state == Executing || d.state == AwaitingApproval || d.state == DeadLetter
    requires d.state == Executing ==> o.gate(ProposalOf(t)) == Decided(d)
    ensures var after := Settle(o, proposed, t, d, first, second);
      && BookKept(o, after.book)
      && after.ok
      && t.taskId in after.book.tasks
      && after.book.tasks[t.taskId].state == d.state
      && SameTask(t, after.book.tasks[t.taskId]) && SameFacts(t, after.book.tasks[t.taskId])
      && after.book.tasks[t.taskId].reason == GateSaid(d.code)
      && after.book.tasks[t.taskId].error == (if d.allowed then t.error else Some(GateSaid(d.code)))
  {
    hide BookKept;
    var start := Attempt(proposed, true);
    if d.allowed {
      var w := Plain(Validated, t.actorId, t.actorRole, first);
      ThenKeepsBook(o, start, t.taskId, w);
      assert ProposalOf(Rewritten(o, t, w)) == ProposalOf(t);
      ThenKeepsBook(o, Then(o, start, t.taskId, w), t.taskId,
                    ByGate(d.state, t.actorId, t.actorRole, d, None, second));
    } else {
      var error := Some(GateSaid(d.code));
      var w := ByGate(Failed, t.actorId, t.actorRole, d, error, first);
      ThenKeepsBook(o, start, t.taskId, w);
      ThenKeepsBook(o, Then(o, start, t.taskId, w), t.taskId,
                    ByGate(DeadLetter, "system", t.actorRole, d, error, second));
    }
  }

  /** A governance violation is never raised at the caller: it is stored with the verdict's own state. */
  lemma SubmitKeepsBook(o: Office, book: Book, req: Request, override: Option<string>, id: string,
                        stamps: (Stamp, Stamp, Stamp))
    requires IsSane(o) && BookKept(o, book)
    ensures var after := Submit(o, book, req, override, id, stamps);
      && BookKept(o, after.book)
      && (after.ok <==> IsAdmissible(o, book, req, override, id))
      && (after.ok ==>
            && id in after.book.tasks
            && after.book.tasks[id].actorId == req.actor && after.book.tasks[id].cost == req.cost
            && var d, t := o.gate(ProposalFor(o, req, EngineOf(req, override).value)).decision, after.book.tasks[id];
            && t.state == d.state && t.reason == GateSaid(d.code)
            && t.error == (if d.allowed then None else Some(GateSaid(d.code)))
            && t.limit == d.limit && t.engine == EngineOf(req, override).value
            && t.owningRole == req.owningRole && t.capability == req.capability && t.payload == req.input
            && t.classification == req.classification && t.confidence == req.confidence
            && t.correlationId == req.correlationId && t.tenantId == req.tenantId && t.clientId == req.clientId)
  {
    hide BookKept;
    if IsAdmissible(o, book, req, override, id) {
      var engine := EngineOf(req, override).value;
      var p := ProposalFor(o, req, engine);
      var d := o.gate(p).decision;
      var t := NewTask(o, req, engine, d, id, stamps.0.at);
      assert ProposalOf(t) == p.(requiresApproval := false);
      ProposeKeepsBook(o, book, t, d, stamps.0);
      SettleKeepsBook(o, Propose(o, book, t, d, stamps.0), t, d, stamps.1, stamps.2);
    }
  }

  /** An approval releases the task for execution; anything short of a proper one changes nothing. */
  lemma ApproveKeepsBook(o: Office, book: Book, id: string, approver: string, note: string, stamps: (Stamp, Stamp))
    requires IsSane(o) && BookKept(o, book)
    ensures var after := Approve(o, book, id, approver, note, stamps);
      && BookKept(o, after.book)
      && (after.ok <==> id in book.tasks && MayApprove(o, book.tasks[id], approver))
      && (after.ok ==> id in after.book.tasks && after.book.tasks[id].state == Executing)
      && (!after.ok ==> after.book == book)
  {
    hide BookKept, TaskKept, RowKept;
    if id in book.tasks && MayApprove(o, book.tasks[id], approver) {
      var t := book.tasks[id];
      var role := o.resolve(approver, None).id;
      var w := Token(WorkflowStates.Approved, approver, role, Said(note, ApprovedBy(approver, role)), false, stamps.0);
      Kept(o, book, id);
      CommitKeepsBook(o, book, t, w);
      var approved := Then(o, Attempt(book, true), id, w);
      var rows := RowsOf(approved.book.ledger, id);
      assert IsReleased(o, rows, approved.book.tasks[id], |rows|);
      ThenKeepsBook(o, approved, id, Token(Executing, approver, role, Said(note, ReleasedBy(approver)), true, stamps.1));
    }
  }

  /** A rejection cancels a frozen task, and nothing else. */
  lemma RejectKeepsBook(o: Office, book: Book, id: string, approver: string, note: string, stamp: Stamp)
    requires IsSane(o) && BookKept(o, book)
    ensures var after := Reject(o, book, id, approver, note, stamp);
      && BookKept(o, after.book)
      && (after.ok <==> id in book.tasks && book.tasks[id].state == AwaitingApproval && !o.resolve(approver, None).Blank?)
      && (after.ok ==> id in after.book.tasks && after.book.tasks[id].state == Cancelled)
      && (!after.ok ==> after.book == book)
  {
    hide BookKept, TaskKept;
    var resolved := o.resolve(approver, None);
    var role := if resolved.Role? && resolved.id != "" then resolved.id else UNRESOLVED;
    if id in book.tasks {
      Kept(o, book, id);
      ThenKeepsBook(o, Attempt(book, true), id,
                    Write(Cancelled, approver, role, HumanRejected, Said(note, RejectedBy(approver)), None, false, stamp));
    }
  }

  /** Completion moves a task to succeeded only from executing; to failed from wherever the table allows it. */
  lemma CompleteKeepsBook(o: Office, book: Book, id: string, to: State, actor: string,
                          output: Option<map<string, Records.Json>>, error: Option<Reason>, stamp: Stamp)
    requires IsSane(o) && BookKept(o, book)
    ensures var after := Complete(o, book, id, to, actor, output, error, stamp);
      && BookKept(o, after.book)
      && (after.ok <==> id in book.tasks && (to == Succeeded || to == Failed) && IsValidTransition(book.tasks[id].state, to))
      && (after.ok ==> id in after.book.tasks && after.book.tasks[id].state == to)
      && (after.ok && to == Succeeded ==> book.tasks[id].state == Executing)
      && (after.ok ==>
            && after.book.tasks[id].payload ==
                 (if output.None? then book.tasks[id].payload
                  else book.tasks[id].payload["output" := Records.Object(output.value)])
            && after.book.tasks[id].error == (if error.Some? then error else book.tasks[id].error)
            && after.book.tasks[id].reason == if to == Succeeded then EngineSucceeded else EngineFailed)
      && (!after.ok ==> after.book == book)
  {
    hide BookKept, TaskKept, RowKept, IsSane, RowsOf, RowFor, IsReleased;
    if (to == Succeeded || to == Failed) && id in book.tasks {
      var t := book.tasks[id];
      Kept(o, book, id);
      CommitKeepsBook(o, book, if output.None? then t else t.(payload := t.payload["output" := Records.Object(output.value)]),
                      Write(to, actor, t.actorRole, if to == Succeeded then EngineSucceeded else EngineFailed,
                            TaskIs(to), error, false, stamp));
    }
  }

  lemma StepKeepsBook(o: Office, book: Book, op: Op)
    requires IsSane(o) && BookKept(o, book)
    ensures BookKept(o, Step(o, book, op).book)
  {
    hide Submit, Approve, Reject, Complete, BookKept;
    match op
    case SubmitOp(req, override, id, stamps) => SubmitKeepsBook(o, book, req, override, id, stamps);
    case ApproveOp(id, approver, note, pair) => ApproveKeepsBook(o, book, id, approver, note, pair);
    case RejectOp(id, approver, note, stamp) => RejectKeepsBook(o, book, id, approver, note, stamp);
    case CompleteOp(id, to, actor, output, error, stamp) =>
      CompleteKeepsBook(o, book, id, to, actor, output, error, stamp);
  }

  lemma {:induction false} RunKeepsBook(o: Office, book: Book, ops: seq<Op>)
    requires IsSane(o) && BookKept(o, book)
    ensures BookKept(o, Run(o, book, ops))
    decreases |ops|
  {
    if ops != [] {
      StepKeepsBook(o, book, ops[0]);
      RunKeepsBook(o, Step(o, book, ops[0]).book, ops[1..]);
    }
  }

  // ---------------------------------------------------------------- what every run guarantees

  /** The tables after any run from empty ones, under the catalog's own gate. */
  function Reached(org: Organization, h: Hash, ops: seq<Op>): Book {
    Run(OfficeOf(org, h), EMPTY_BOOK, ops)
  }

  lemma ReachedIsKept(org: Organization, h: Hash, ops: seq<Op>)
    ensures BookKept(OfficeOf(org, h), Reached(org, h, ops))
  {
    OfficeIsSane(org, h);
    RunKeepsBook(OfficeOf(org, h), EMPTY_BOOK, ops);
  }

  /** However the run went, its ledger passes verification. */
  lemma LedgerVerifies(org: Organization, h: Hash, ops: seq<Op>)
    ensures Verifies(h, Reached(org, h, ops).ledger)
  {
    ReachedIsKept(org, h, ops);
    var ledger := Reached(org, h, ops).ledger;
    if |ledger| > VERIFY_LIMIT {
      PrefixOfLinked(h, ledger, VERIFY_LIMIT);
    }
  }

  /** The ledger is a faithful history of the task table. */
  lemma LedgerTellsEveryTask(org: Organization, h: Hash, ops: seq<Op>, id: string)
    requires id in Reached(org, h, ops).tasks
    ensures var book := Reached(org, h, ops);
      IsHistory(RowsOf(book.ledger, id), book.tasks[id])
  {
    ReachedIsKept(org, h, ops);
    assert RowKept(OfficeOf(org, h), Reached(org, h, ops), id);
  }

  /** Every row but the first tells what was decided, and every row the task's own facts. */
  lemma LedgerTellsDecisions(org: Organization, h: Hash, ops: seq<Op>, id: string, i: nat)
    requires id in Reached(org, h, ops).tasks
    requires 0 < i < |RowsOf(Reached(org, h, ops).ledger, id)|
    ensures var book := Reached(org, h, ops);
      var row := RowsOf(book.ledger, id)[i];
      && (row.decision == Held <==> row.toState == AwaitingApproval)
      && (row.decision == Denied <==> row.toState == Failed || row.toState == DeadLetter)
      && row.eventType == TaskMoved(row.toState)
      && row.facts.cost == book.tasks[id].cost && row.facts.confidence == book.tasks[id].confidence
      && row.facts.classification == book.tasks[id].classification && row.facts.engine == book.tasks[id].engine
  {
    ReachedIsKept(org, h, ops);
    assert RowKept(OfficeOf(org, h), Reached(org, h, ops), id);
    assert TellsDecision(RowsOf(Reached(org, h, ops).ledger, id)[i]);
  }

  /** Autonomy is bounded: a task that ran was inside every limit, or somebody with another id able to cover it let it run. */
  lemma ExecutionIsEarned(org: Organization, h: Hash, ops: seq<Op>, id: string, i: nat)
    requires id in Reached(org, h, ops).tasks
    requires i < |RowsOf(Reached(org, h, ops).ledger, id)|
    requires RowsOf(Reached(org, h, ops).ledger, id)[i].toState == Executing
    ensures var book := Reached(org, h, ops);
      var t := book.tasks[id];
      var rows := RowsOf(book.ledger, id);
      && i > 0
      && (rows[i - 1].toState == Validated || rows[i - 1].toState == WorkflowStates.Approved)
      && (rows[i - 1].toState == Validated ==> RunsAlone(org, ProposalOf(t)))
      && (rows[i - 1].toState == WorkflowStates.Approved ==> IsReleased(OfficeOf(org, h), rows, t, i))
  {
    ReachedIsKept(org, h, ops);
    assert RowKept(OfficeOf(org, h), Reached(org, h, ops), id);
  }

  /** Once a task has been held, for whatever reason, it executes only on a release. */
  lemma HeldWorkNeedsRelease(org: Organization, h: Hash, ops: seq<Op>, id: string, held: nat, i: nat)
    requires id in Reached(org, h, ops).tasks
    requires held < |RowsOf(Reached(org, h, ops).ledger, id)| && i < |RowsOf(Reached(org, h, ops).ledger, id)|
    requires RowsOf(Reached(org, h, ops).ledger, id)[held].toState == AwaitingApproval
    requires RowsOf(Reached(org, h, ops).ledger, id)[i].toState == Executing
    ensures held < i
    ensures var book := Reached(org, h, ops);
      IsReleased(OfficeOf(org, h), RowsOf(book.ledger, id), book.tasks[id], i)
  {
    ExecutionIsEarned(org, h, ops, id, i);
    LedgerTellsEveryTask(org, h, ops, id);
    hide Reached, IsReleased;
    var rows := RowsOf(Reached(org, h, ops).ledger, id);
    var t := Reached(org, h, ops).tasks[id];
    if held < i {
      StepsOnlyGoOn(rows, t, held, i - 1);
    } else {
      StepsOnlyGoOn(rows, t, i, held);
    }
  }

  /** No task comes back to where it was before being held, or before being started. */
  lemma StepsOnlyGoOn(rows: seq<Signed>, t: Task, i: nat, j: nat)
    requires IsHistory(rows, t) && i <= j < |rows|
    ensures Rank(rows[i].toState) <= Rank(rows[j].toState)
  {
    RankNeverFalls(seq(|rows|, k requires 0 <= k < |rows| => rows[k].toState), i, j);
  }

  /** An oversight-only seat's task runs only on a human's release. */
  lemma OversightNeedsRelease(org: Organization, h: Hash, ops: seq<Op>, id: string, i: nat)
    requires id in Reached(org, h, ops).tasks
    requires i < |RowsOf(Reached(org, h, ops).ledger, id)|
    requires RowsOf(Reached(org, h, ops).ledger, id)[i].toState == Executing
    requires var role := GetRole(org, Reached(org, h, ops).tasks[id].actorRole);
      role.Some? && role.value.oversightOnly
    ensures var book := Reached(org, h, ops);
      IsReleased(OfficeOf(org, h), RowsOf(book.ledger, id), book.tasks[id], i)
  {
    ExecutionIsEarned(org, h, ops, id, i);
    OversightNeverRunsAlone(org, ProposalOf(Reached(org, h, ops).tasks[id]));
  }

  /** A known seat that may spend as much as the task costs. */
  predicate CanCover(org: Organization, approver: string, cost: int) {
    var r := ResolveActorRole(org, approver, None);
    && r.Role? && GetRole(org, r.id).Some?
    && var limit := GetRole(org, r.id).value.limit;
    (limit.Some? ==> cost <= limit.value)
  }

  lemma MayCoverExactly(org: Organization, h: Hash, approver: string, cost: int)
    ensures MayCover(OfficeOf(org, h), approver, cost) <==> CanCover(org, approver, cost)
  {
    hide ResolveActorRole, GetRole;
  }

  /** The figures of a request are put before the gate as they stand, for the seat its actor resolves to, if any. */
  lemma ProposalIsTheRequest(org: Organization, h: Hash, req: Request, engine: Option<string>)
    ensures var p, r := ProposalFor(OfficeOf(org, h), req, engine), ResolveActorRole(org, req.actor, Some(req.owningRole));
      && p.cost == Some(req.cost) && p.confidence == Some(req.confidence) && p.classification == req.classification
      && p.engine == engine && p.requiresApproval == req.requiresApproval
      && p.role == if r.Role? && r.id != "" then r.id else "<unresolved>"
  {
    hide ResolveActorRole;
  }

  /** The engine asked for at the call goes before the request's own, and is kept by its normalised name. */
  lemma EngineIsNormalised(req: Request, override: Option<string>)
    ensures override.Some? && override.value != "" ==>
      EngineOf(req, override) == if NormalizeEngine(override.value).None? then None else Some(NormalizeEngine(override.value))
    ensures (override.None? || override.value == "") && req.engine.Some? && req.engine.value != "" ==>
      EngineOf(req, override) == if NormalizeEngine(req.engine.value).None? then None
                                 else Some(NormalizeEngine(req.engine.value))
    ensures (override.None? || override.value == "") && req.engine.None? ==> EngineOf(req, override) == Some(None)
  {
    hide NormalizeEngine;
  }

  /**
    * A fresh submission followed by one approval is executing exactly when the gate let it run, or held it and
    * somebody with another id, able to cover the cost, approved.
    */
  lemma SubmittedRunsExactly(org: Organization, h: Hash, book: Book, req: Request, override: Option<string>, id: string,
                             stamps: (Stamp, Stamp, Stamp), approver: string, note: string, pair: (Stamp, Stamp))
    requires var o := OfficeOf(org, h); BookKept(o, book) && IsAdmissible(o, book, req, override, id)
    ensures var o := OfficeOf(org, h);
      var p := ProposalFor(o, req, EngineOf(req, override).value);
      var after := Approve(o, Submit(o, book, req, override, id, stamps).book, id, approver, note, pair).book;
      && id in after.tasks
      && (after.tasks[id].state == Executing <==>
            || RunsAlone(org, p)
            || (IsCleared(org, p) && CrossesBoundary(org, p) && approver != req.actor && CanCover(org, approver, req.cost)))
  {
    hide BookKept, IsCleared, CrossesBoundary, EvaluateGate, MayCover, CanCover, Submit, Approve;
    var o := OfficeOf(org, h);
    MayCoverExactly(org, h, approver, req.cost);
    OfficeIsSane(org, h);
    SubmitKeepsBook(o, book, req, override, id, stamps);
    ApproveKeepsBook(o, Submit(o, book, req, override, id, stamps).book, id, approver, note, pair);
    var p := ProposalFor(o, req, EngineOf(req, override).value);
    assert o.gate(p) == EvaluateGate(org, p);
    GateDecidesExactly(org, p);
    VerdictFlags(org, p);
  }

  /** For an oversight-only seat only the second way is left, and it is open. */
  lemma OversightRunsExactly(org: Organization, h: Hash, book: Book, req: Request, override: Option<string>, id: string,
                             stamps: (Stamp, Stamp, Stamp), approver: string, note: string, pair: (Stamp, Stamp))
    requires var o := OfficeOf(org, h); BookKept(o, book) && IsAdmissible(o, book, req, override, id)
    requires var seat := GetRole(org, RoleOf(OfficeOf(org, h), req)); seat.Some? && seat.value.oversightOnly
    ensures var o := OfficeOf(org, h);
      var p := ProposalFor(o, req, EngineOf(req, override).value);
      var after := Approve(o, Submit(o, book, req, override, id, stamps).book, id, approver, note, pair).book;
      && id in after.tasks
      && (after.tasks[id].state == Executing <==>
            IsCleared(org, p) && CrossesBoundary(org, p) && approver != req.actor && CanCover(org, approver, req.cost))
  {
    hide BookKept, IsCleared, CrossesBoundary, EvaluateGate, CanCover, Submit, Approve, RunsAlone;
    SubmittedRunsExactly(org, h, book, req, override, id, stamps, approver, note, pair);
    OversightNeverRunsAlone(org, ProposalFor(OfficeOf(org, h), req, EngineOf(req, override).value));
  }

  /** An oversight-only seat with nothing to spend, and one without limits. */
  const TWO_SEATS := Organization(map["watch" := RoleSpec([], ["public"], Some(0), true),
                                      "lead" := RoleSpec([], ["public"], None, false)], map[])

  const WATCHED := Request("c", None, None, "watch", "watch", "report", None, 1, 1.0, "public", false, map[])

  /** Such a run: a task that costs too much for the watching seat executes once the lead approves it. */
  lemma OversightTaskCanRun(h: Hash, at: Stamp)
    ensures var ops := [SubmitOp(WATCHED, None, "t", (at, at, at)), ApproveOp("t", "lead", "", (at, at))];
      var tasks := Reached(TWO_SEATS, h, ops).tasks;
      "t" in tasks && tasks["t"].state == Executing
  {
    var o := OfficeOf(TWO_SEATS, h);
    var submit, approve := SubmitOp(WATCHED, None, "t", (at, at, at)), ApproveOp("t", "lead", "", (at, at));
    TwoSeatsResolve(h);
    hide Submit, Approve, ResolveActorRole, GetRole;
    OversightRunsExactly(TWO_SEATS, h, EMPTY_BOOK, WATCHED, None, "t", (at, at, at), "lead", "", (at, at));
    var submitted := Step(o, EMPTY_BOOK, submit).book;
    assert [submit, approve][1..] == [approve] && [approve][1..] == [];
    assert Run(o, EMPTY_BOOK, [submit, approve]) == Run(o, submitted, [approve]) ==
           Run(o, Step(o, submitted, approve).book, []);
  }

  lemma TwoSeatsResolve(h: Hash)
    ensures var org := TWO_SEATS;
      && ResolveActorRole(org, "watch", Some("watch")) == Role("watch")
      && ResolveActorRole(org, "lead", None) == Role("lead")
      && GetRole(org, "watch") == Some(org.seats["watch"]) && GetRole(org, "lead") == Some(org.seats["lead"])
  {
    hide Strings.Strip, Strings.Lower;
    LowerAndStripped("watch");
    LowerAndStripped("lead");
  }

  lemma LowerAndStripped(s: string)
    requires Strings.IsStripped(s) && forall i :: 0 <= i < |s| ==> Strings.LowerChar(s[i]) == s[i]
    ensures Strings.Strip(s) == s && Strings.Lower(s) == s
  {
    Strings.StripIsStripped(s);
    assert Strings.Lower(s) == s;
  }

  /** Success is recorded only straight after execution. */
  lemma SuccessFollowsExecution(org: Organization, h: Hash, ops: seq<Op>, id: string, i: nat)
    requires id in Reached(org, h, ops).tasks
    requires i < |RowsOf(Reached(org, h, ops).ledger, id)|
    requires RowsOf(Reached(org, h, ops).ledger, id)[i].toState == Succeeded
    ensures i > 0 && RowsOf(Reached(org, h, ops).ledger, id)[i - 1].toState == Executing
  {
    LedgerTellsEveryTask(org, h, ops, id);
    var rows := RowsOf(Reached(org, h, ops).ledger, id);
    assert i > 0 ==> IsValidTransition(rows[i - 1].toState, rows[i].toState);
  }

  /** Two runs, however different, that end in the same head hash wrote the same ledger. */
  lemma HeadTellsTheRun(org: Organization, h: Hash, ops: seq<Op>, others: seq<Op>)
    requires IsHash(h)
    requires Head(Reached(org, h, ops).ledger) == Head(Reached(org, h, others).ledger)
    ensures Reached(org, h, ops).ledger == Reached(org, h, others).ledger
  {
    ReachedIsKept(org, h, ops);
    ReachedIsKept(org, h, others);
    HeadDeterminesLedger(h, Reached(org, h, ops).ledger, Reached(org, h, others).ledger);
  }
}
