/** The governed task manager and its store, as objects that change their tables in place. */
module GovernedManager {
  import opened Wrappers
  import opened WorkflowStates
  import opened RoleCatalog
  import opened Ledger
  import opened Records
  import G = GovernedTasks

  datatype AppendError = NoEventId | Unsigned | ForkRejected | DuplicateEventId

  /** Ids the ledger has not seen; the source draws them at random. */
  ghost predicate AreFresh(ledger: seq<Entry>, ids: seq<string>) {
    && (forall i :: 0 <= i < |ids| ==> ids[i] != "" && ids[i] !in ids[..i])
    && (forall i, k :: 0 <= i < |ids| && 0 <= k < |ledger| ==> ledger[k].signed.eventId != ids[i])
  }

  ghost predicate GrewBy(before: seq<Entry>, after: seq<Entry>, eventId: string) {
    after == before
    || (|after| == |before| + 1 && after[..|before|] == before && after[|before|].signed.eventId == eventId)
  }

  lemma FreshFirst(ledger: seq<Entry>, id: string, ids: seq<string>)
    requires AreFresh(ledger, [id] + ids)
    ensures AreFresh(ledger, [id])
  {
    assert ([id] + ids)[0] == id;
  }

  /** Using up one fresh id leaves the others fresh. */
  lemma FreshAfterAppend(before: seq<Entry>, id: string, ids: seq<string>)
    requires AreFresh(before, [id] + ids)
    ensures AreFresh(before, [id])
    ensures forall after :: GrewBy(before, after, id) ==> AreFresh(after, ids)
  {
    var all := [id] + ids;
    FreshFirst(before, id, ids);
    forall after: seq<Entry>, i, k | GrewBy(before, after, id) && 0 <= i < |ids| && 0 <= k < |after|
      ensures after[k].signed.eventId != ids[i]
    {
      assert all[i + 1] == ids[i] && all[..i + 1][0] == id;
    }
    forall i | 0 <= i < |ids|
      ensures ids[i] != "" && ids[i] !in ids[..i]
    {
      assert all[i + 1] == ids[i] && all[..i + 1] == [id] + ids[..i];
    }
  }

  class GovernanceStore {
    var tasks: map<string, G.Task>
    var ledger: seq<Entry>

    constructor ()
      ensures Book() == G.EMPTY_BOOK
    {
      tasks := map[];
      ledger := [];
    }

    function Book(): G.Book
      reads this
    {
      G.Book(tasks, ledger)
    }

    /** Rows sit under their own task id. */
    ghost predicate Keyed()
      reads this
    {
      forall id :: id in tasks ==> tasks[id].taskId == id
    }

    /** A task id already in the table is an integrity error. */
    method InsertWorkflowTask(t: G.Task) returns (ok: bool)
      modifies this
      ensures ok <==> t.taskId !in old(tasks)
      ensures ledger == old(ledger)
      ensures tasks == if ok then old(tasks)[t.taskId := t] else old(tasks)
    {
      ok := t.taskId !in tasks;
      if ok {
        tasks := tasks[t.taskId := t];
      }
    }

    /** Only the mutable columns are written; a missing task is an error. */
    method UpdateWorkflowTaskState(r: G.Task) returns (ok: bool)
      modifies this
      ensures ok <==> r.taskId in old(tasks)
      ensures ledger == old(ledger)
      ensures tasks == if !ok then old(tasks) else old(tasks)[r.taskId := old(tasks)[r.taskId].(
        state := r.state, updatedAt := r.updatedAt, reason := r.reason, remark := r.remark,
        payload := r.payload, error := r.error)]
    {
      ok := r.taskId in tasks;
      if ok {
        tasks := tasks[r.taskId := tasks[r.taskId].(
          state := r.state, updatedAt := r.updatedAt, reason := r.reason, remark := r.remark,
          payload := r.payload, error := r.error)];
      }
    }

    method GetLastAuditHash() returns (h: string)
      ensures h == Head(ledger)
    {
      if |ledger| == 0 {
        h := "";
      } else {
        h := ledger[|ledger| - 1].recordHash;
      }
    }

    method HasEvent(eventId: string) returns (found: bool)
      ensures found <==> exists k :: 0 <= k < |ledger| && ledger[k].signed.eventId == eventId
    {
      found := false;
      var k := 0;
      while k < |ledger| && !found
        invariant 0 <= k <= |ledger|
        invariant !found ==> forall j :: 0 <= j < k ==> ledger[j].signed.eventId != eventId
        invariant found ==> exists j :: 0 <= j < |ledger| && ledger[j].signed.eventId == eventId
      {
        found := ledger[k].signed.eventId == eventId;
        k := k + 1;
      }
    }

    /** One row goes in, and only at the head of the chain. */
    method AppendAuditEvent(e: Entry) returns (r: Result<(), AppendError>)
      modifies this
      ensures tasks == old(tasks)
      ensures r.Success? <==>
              && e.signed.eventId != "" && e.recordHash != ""
              && e.signed.prevHash == Head(old(ledger))
              && forall k :: 0 <= k < |old(ledger)| ==> old(ledger)[k].signed.eventId != e.signed.eventId
      ensures ledger == if r.Success? then old(ledger) + [e] else old(ledger)
    {
      if e.signed.eventId == "" {
        return Failure(NoEventId);
      }
      if e.recordHash == "" {
        return Failure(Unsigned);
      }
      var last := GetLastAuditHash();
      if e.signed.prevHash != last {
        return Failure(ForkRejected);
      }
      var duplicate := HasEvent(e.signed.eventId);
      if duplicate {
        return Failure(DuplicateEventId);
      }
      ledger := ledger + [e];
      r := Success(());
    }

    /** Re-walk the ledger, as far as the walk goes, and confirm every link. */
    method VerifyAuditChain(hash: Hash) returns (intact: bool)
      ensures intact <==> Verifies(hash, ledger)
    {
      var events := Walked(ledger);
      var prev := "";
      var i := 0;
      while i < |events|
        invariant 0 <= i <= |events|
        invariant Linked(hash, events[..i])
        invariant prev == Head(events[..i])
      {
        var e := events[i];
        assert Linked(hash, events) ==> e.signed.prevHash == prev by {
          if Linked(hash, events) {
            PrefixOfLinked(hash, events, i);
          }
        }
        if e.signed.prevHash != prev {
          return false;
        }
        if hash(e.signed) != e.recordHash {
          return false;
        }
        assert events[..i + 1] == Appended(hash, events[..i], e.signed);
        AppendKeepsLinked(hash, events[..i], e.signed);
        prev := e.recordHash;
        i := i + 1;
      }
      assert events[..i] == events;
      intact := true;
    }
  }

  class GovernedWorkflowManager {
    const store: GovernanceStore
    const office: G.Office

    constructor (store: GovernanceStore, office: G.Office)
      ensures this.store == store && this.office == office
    {
      this.store := store;
      this.office := office;
    }

    /** Write one ledger row for the task at the current head. */
    method AppendAudit(t: G.Task, actor: string, role: string, eventType: EventType, outcome: Outcome,
                       reason: Reason, remark: Remark, from: Option<State>, to: State, stamp: G.Stamp)
      requires IsHash(office.hash) && store.Keyed()
      requires AreFresh(store.ledger, [stamp.eventId])
      modifies store
      ensures store.Keyed()
      ensures store.Book() == G.AppendAudit(office, old(store.Book()), t, actor, role, eventType, outcome,
                                            reason, remark, from, to, stamp)
    {
      var prev := store.GetLastAuditHash();
      var signed := Signed(stamp.eventId, stamp.at, t.correlationId, actor, role, eventType, outcome, reason, remark,
                           t.taskId, from, to, G.FactsOf(t), prev);
      var r := store.AppendAuditEvent(Entry(signed, office.hash(signed)));
      assert [stamp.eventId][0] == stamp.eventId;
      assert r.Success?;
    }

    /** The state and the reason to write, once work about to start unaided has been before the gate again. */
    method Reexamine(t: G.Task, w: G.Write) returns (cleared: bool, target: State, reason: Reason, remark: Remark)
      ensures cleared <==> (G.IsReexamined(w) ==> office.gate(G.ProposalOf(t)).Decided?)
      ensures cleared ==> target == G.Target(office, t, w)
      ensures cleared ==> reason == G.ReasonWritten(office, t, w) && remark == G.RemarkWritten(office, t, w)
    {
      cleared, target, reason, remark := true, w.to, w.reason, w.remark;
      if w.to == Executing && !w.humanApproved {
        var v := office.gate(G.ProposalOf(t));
        if v.Raised? {
          cleared := false;
        } else if v.decision.requiresHumanApproval {
          target := AwaitingApproval;
          reason := GateSaid(v.decision.code);
          remark := GateRemark(v.decision.code);
        }
      }
    }

    /** The single choke point for state writes. */
    method CommitState(t: G.Task, w: G.Write) returns (ok: bool, r: G.Task)
      requires IsHash(office.hash) && store.Keyed()
      requires AreFresh(store.ledger, [w.stamp.eventId])
      modifies store
      ensures store.Keyed()
      ensures G.Attempt(store.Book(), ok) == G.CommitState(office, old(store.Book()), t, w)
      ensures r == if ok then G.Rewritten(office, t, w) else t
      ensures forall ids: seq<string> ::
        AreFresh(old(store.ledger), [w.stamp.eventId] + ids) ==> AreFresh(store.ledger, ids)
    {
      hide IsHash, AreFresh, G.IsReexamined, G.Target, G.ReasonWritten, G.RemarkWritten;
      r := t;
      ghost var before := store.ledger;
      forall ids: seq<string> | AreFresh(before, [w.stamp.eventId] + ids)
        ensures forall l: seq<Entry> :: GrewBy(before, l, w.stamp.eventId) ==> AreFresh(l, ids)
      {
        FreshAfterAppend(before, w.stamp.eventId, ids);
      }
      if !IsValidTransition(t.state, w.to) {
        return false, t;
      }
      var cleared, target, reason, remark := Reexamine(t, w);
      if !cleared {
        return false, t;
      }
      var next := t.(state := target, updatedAt := w.stamp.at,
                  reason := if reason != NoReason then reason else t.reason,
                  remark := if remark != Silent then remark else t.remark,
                  error := if w.error.Some? then w.error else t.error);
      ok := store.UpdateWorkflowTaskState(next);
      if ok {
        r := next;
        AppendAudit(r, w.actor, w.role, TaskMoved(target), G.OutcomeOf(target), reason, remark,
                    Some(t.state), target, w.stamp);
      }
    }

    /** Admit a governed task: a violation is stored and audited, never raised at the caller. */
    method Submit(req: G.Request, override: Option<string>, id: string, stamps: (G.Stamp, G.Stamp, G.Stamp))
      returns (ok: bool)
      requires IsHash(office.hash) && store.Keyed()
      requires AreFresh(store.ledger, [stamps.0.eventId, stamps.1.eventId, stamps.2.eventId])
      modifies store
      ensures store.Keyed()
      ensures G.Attempt(store.Book(), ok) == G.Submit(office, old(store.Book()), req, override, id, stamps)
    {
      var resolved := G.EngineOf(req, override);
      if resolved.None? {
        return false;
      }
      var v := office.gate(G.ProposalFor(office, req, resolved.value));
      if v.Raised? {
        return false;
      }
      var d := v.decision;
      var t := G.NewTask(office, req, resolved.value, d, id, stamps.0.at);
      ok := store.InsertWorkflowTask(t);
      if !ok {
        return;
      }
      ghost var ids := [stamps.1.eventId, stamps.2.eventId];
      assert [stamps.0.eventId, stamps.1.eventId, stamps.2.eventId] == [stamps.0.eventId] + ids;
      FreshAfterAppend(store.ledger, stamps.0.eventId, ids);
      AppendAudit(t, req.actor, t.actorRole, TaskProposed,
                  if !d.allowed then Denied else if d.requiresHumanApproval then Held else Allowed,
                  GateSaid(d.code), GateRemark(d.code), None, Proposed, stamps.0);
      ok := Settle(t, d, stamps.1, stamps.2);
    }

    /** The two writes after proposing: validated and the verdict, or failed and isolated. */
    method Settle(t: G.Task, d: Decision, first: G.Stamp, second: G.Stamp) returns (ok: bool)
      requires IsHash(office.hash) && store.Keyed()
      requires AreFresh(store.ledger, [first.eventId, second.eventId])
      requires t.taskId in store.tasks && store.tasks[t.taskId] == t
      modifies store
      ensures store.Keyed()
      ensures G.Attempt(store.Book(), ok) == G.Settle(office, old(store.Book()), t, d, first, second)
    {
      assert [first.eventId, second.eventId] == [first.eventId] + [second.eventId];
      FreshFirst(store.ledger, first.eventId, [second.eventId]);
      var r: G.Task;
      if d.allowed {
        ok, r := CommitState(t, G.Plain(Validated, t.actorId, t.actorRole, first));
        if ok {
          ok, r := CommitState(r, G.ByGate(d.state, t.actorId, t.actorRole, d, None, second));
        }
      } else {
        var error := Some(GateSaid(d.code));
        ok, r := CommitState(t, G.ByGate(Failed, t.actorId, t.actorRole, d, error, first));
        if ok {
          ok, r := CommitState(r, G.ByGate(DeadLetter, "system", t.actorRole, d, error, second));
        }
      }
    }

    /** Commit a human validation token for a frozen task. */
    method Approve(id: string, approver: string, note: string, stamps: (G.Stamp, G.Stamp)) returns (ok: bool)
      requires IsHash(office.hash) && store.Keyed()
      requires AreFresh(store.ledger, [stamps.0.eventId, stamps.1.eventId])
      modifies store
      ensures store.Keyed()
      ensures G.Attempt(store.Book(), ok) == G.Approve(office, old(store.Book()), id, approver, note, stamps)
    {
      if id !in store.tasks {
        return false;
      }
      var t := store.tasks[id];
      if t.state != AwaitingApproval || approver == t.actorId {
        return false;
      }
      var role := office.resolve(approver, None);
      if !role.Role? {
        return false;
      }
      var seat := office.seat(role.id);
      if seat.None? || (seat.value.limit.Some? && t.cost > seat.value.limit.value) {
        return false;
      }
      ok := Release(t, approver, role.id, note, stamps.0, stamps.1);
    }

    /** The two writes of an approval: approved, then executing on the human's token. */
    method Release(t: G.Task, approver: string, role: string, note: string, first: G.Stamp, second: G.Stamp)
      returns (ok: bool)
      requires IsHash(office.hash) && store.Keyed()
      requires AreFresh(store.ledger, [first.eventId, second.eventId])
      requires t.taskId in store.tasks && store.tasks[t.taskId] == t
      modifies store
      ensures store.Keyed()
      ensures G.Attempt(store.Book(), ok) ==
              G.Release(office, old(store.Book()), t.taskId, approver, role, note, (first, second))
    {
      assert [first.eventId, second.eventId] == [first.eventId] + [second.eventId];
      FreshFirst(store.ledger, first.eventId, [second.eventId]);
      var r: G.Task;
      ok, r := CommitState(t, G.Token(WorkflowStates.Approved, approver, role,
                                      G.Said(note, ApprovedBy(approver, role)), false, first));
      if ok {
        ok, r := CommitState(r, G.Token(Executing, approver, role, G.Said(note, ReleasedBy(approver)), true, second));
      }
    }

    /** A human rejects a frozen task. */
    method Reject(id: string, approver: string, note: string, stamp: G.Stamp) returns (ok: bool)
      requires IsHash(office.hash) && store.Keyed()
      requires AreFresh(store.ledger, [stamp.eventId])
      modifies store
      ensures store.Keyed()
      ensures G.Attempt(store.Book(), ok) == G.Reject(office, old(store.Book()), id, approver, note, stamp)
    {
      if id !in store.tasks || store.tasks[id].state != AwaitingApproval {
        return false;
      }
      var resolved := office.resolve(approver, None);
      if resolved.Blank? {
        return false;
      }
      var role := if resolved.Role? && resolved.id != "" then resolved.id else UNRESOLVED;
      var r: G.Task;
      ok, r := CommitState(store.tasks[id],
                           G.Write(Cancelled, approver, role, HumanRejected, G.Said(note, RejectedBy(approver)),
                                   None, false, stamp));
    }

    /** Record how an engine run ended. */
    method Complete(id: string, to: State, actor: string, output: Option<map<string, Json>>, error: Option<Reason>,
                    stamp: G.Stamp) returns (ok: bool)
      requires IsHash(office.hash) && store.Keyed()
      requires AreFresh(store.ledger, [stamp.eventId])
      modifies store
      ensures store.Keyed()
      ensures G.Attempt(store.Book(), ok) ==
              G.Complete(office, old(store.Book()), id, to, actor, output, error, stamp)
    {
      if (to != Succeeded && to != Failed) || id !in store.tasks {
        return false;
      }
      var t := store.tasks[id];
      if output.Some? {
        t := t.(payload := t.payload["output" := Object(output.value)]);
      }
      var r: G.Task;
      ok, r := CommitState(t, G.Write(to, actor, t.actorRole, if to == Succeeded then EngineSucceeded else EngineFailed,
                                      TaskIs(to), error, false, stamp));
    }
  }
}
