/** The stored tables, the audit trail and the workflow object, as the runtime changes them in place. */
module ControlPlane {
  import opened Wrappers
  import opened WorkflowStates
  import opened Records
  import opened EventStore
  import opened EngineSpec
  import A = AuditTrail
  import K = KillSwitch
  import Strings

  /** The actor and role of a stored workflow, on whose behalf its events are written. */
  predicate IsProper(row: Row) {
    Strings.IsName(row.requestingActor) && Strings.IsName(row.owningRole)
  }

  class Workflow {
    var row: Row

    constructor (row: Row)
      ensures this.row == row
    {
      this.row := row;
    }

    /** Change state if the table allows it, else raise. */
    method Transition(to: State, now: string) returns (ok: bool)
      modifies this
      ensures ok <==> IsValidTransition(old(row).state, to)
      ensures row == if ok then old(row).(state := to, updatedAt := now) else old(row)
    {
      if !IsValidTransition(row.state, to) {
        return false;
      }
      row := row.(state := to, updatedAt := now);
      ok := true;
    }
  }

  datatype Creation = Created | Existing(row: Row) | Taken

  datatype AppendResult = Appended | Known | OutOfOrder

  class Store {
    var workflows: map<string, Row>
    var byKey: map<string, string>
    var events: seq<EventRow>
    var halts: map<string, K.Halt>
    /** Event ids are drawn at random; a counter stands for never drawing one twice. */
    var nextEventId: nat

    constructor ()
      ensures Valid() && workflows == map[] && byKey == map[] && events == [] && halts == map[]
    {
      workflows, byKey, events, halts, nextEventId := map[], map[], [], map[], 0;
    }

    /** Numbered events of known workflows only, and keys that lead to workflows. */
    ghost predicate Valid()
      reads this
    {
      && IsDense(events)
      && (forall k :: 0 <= k < |events| ==> events[k].eventId < nextEventId)
      && (forall id: string :: id !in workflows ==> Log(events, id) == [])
      && (forall key :: key in byKey ==> byKey[key] in workflows)
      && (forall id :: id in workflows ==> workflows[id].workflowId == id && IsProper(workflows[id]))
    }

    /** A key that is known gives back its workflow; an id that is taken is an integrity error. */
    method CreateWorkflow(w: Workflow) returns (r: Creation)
      requires Valid() && IsProper(w.row)
      modifies this`workflows, this`byKey
      ensures Valid()
      ensures match r
        case Existing(row) =>
          w.row.idempotencyKey in byKey && row == workflows[byKey[w.row.idempotencyKey]]
          && workflows == old(workflows) && byKey == old(byKey)
        case Taken =>
          w.row.idempotencyKey !in byKey && w.row.workflowId in workflows
          && workflows == old(workflows) && byKey == old(byKey)
        case Created =>
          w.row.idempotencyKey !in old(byKey) && w.row.workflowId !in old(workflows)
          && workflows == old(workflows)[w.row.workflowId := w.row]
          && byKey == old(byKey)[w.row.idempotencyKey := w.row.workflowId]
    {
      hide Log, IsDense, IsProper;
      if w.row.idempotencyKey in byKey {
        return Existing(workflows[byKey[w.row.idempotencyKey]]);
      }
      if w.row.workflowId in workflows {
        return Taken;
      }
      workflows := workflows[w.row.workflowId := w.row];
      byKey := byKey[w.row.idempotencyKey := w.row.workflowId];
      r := Created;
    }

    method GetWorkflow(id: string) returns (row: Option<Row>)
      ensures row == if id in workflows then Some(workflows[id]) else None
    {
      row := if id in workflows then Some(workflows[id]) else None;
    }

    method GetWorkflowByIdempotency(key: string) returns (row: Option<Row>)
      requires Valid()
      ensures row == if key in byKey then Some(workflows[byKey[key]]) else None
    {
      row := if key in byKey then Some(workflows[byKey[key]]) else None;
    }

    /** A workflow that is not there cannot be updated. */
    method UpdateWorkflow(w: Workflow) returns (ok: bool)
      requires Valid() && IsProper(w.row)
      modifies this`workflows
      ensures Valid()
      ensures ok <==> w.row.workflowId in old(workflows)
      ensures workflows == if ok then old(workflows)[w.row.workflowId := w.row] else old(workflows)
    {
      hide Log, IsDense, IsProper;
      ok := w.row.workflowId in workflows;
      if ok {
        workflows := workflows[w.row.workflowId := w.row];
      }
    }

    /** One more than the greatest number in use, by a scan of the table. */
    method GetNextSequence(aggregate: string) returns (next: nat)
      requires IsDense(events)
      ensures next == |Log(events, aggregate)|
    {
      hide Log;
      NothingIsLogged(aggregate);
      var best: int := -1;
      var k := 0;
      while k < |events|
        invariant 0 <= k <= |events|
        invariant best == |Log(events[..k], aggregate)| - 1
      {
        var e := events[k];
        assert events[..k + 1] == events[..k] + [e];
        LogGrows(events[..k], e, aggregate);
        if e.aggregate == aggregate && e.event.sequence > best {
          best := e.event.sequence;
        }
        k := k + 1;
      }
      assert events[..k] == events;
      next := best + 1;
    }

    method HasEvent(eventId: nat) returns (found: bool)
      ensures found <==> HasId(events, eventId)
    {
      found := false;
      var k := 0;
      while k < |events| && !found
        invariant 0 <= k <= |events|
        invariant found ==> HasId(events, eventId)
        invariant !found ==> forall j :: 0 <= j < k ==> events[j].eventId != eventId
      {
        found := events[k].eventId == eventId;
        k := k + 1;
      }
    }

    /** In order or not at all; an event already there is not written twice. */
    method AppendEvent(e: EventRow) returns (r: AppendResult)
      requires Valid() && e.aggregate in workflows && e.eventId < nextEventId
      modifies this`events
      ensures Valid()
      ensures r.Appended? <==> Lands(old(events), e)
      ensures r.Known? <==> HasId(old(events), e.eventId)
      ensures events == EventStore.Append(old(events), e)
    {
      var known := HasEvent(e.eventId);
      if known {
        return Known;
      }
      var expected := GetNextSequence(e.aggregate);
      if e.event.sequence != expected {
        return OutOfOrder;
      }
      AppendStaysDense(events, e);
      forall id: string | id !in workflows
        ensures Log(events + [e], id) == []
      {
        LogGrows(events, e, id);
      }
      hide Log, IsDense, HasId;
      events := events + [e];
      r := Appended;
    }

    /** The events of one workflow; in order of sequence, because the table is dense. */
    method GetEvents(aggregate: string) returns (log: seq<Event>)
      requires IsDense(events)
      ensures log == Log(events, aggregate)
      ensures forall k :: 0 <= k < |log| ==> log[k].sequence == k
    {
      hide Log, IsDense;
      log := [];
      NothingIsLogged(aggregate);
      var k := 0;
      while k < |events|
        invariant 0 <= k <= |events|
        invariant log == Log(events[..k], aggregate)
      {
        assert events[..k + 1] == events[..k] + [events[k]];
        LogGrows(events[..k], events[k], aggregate);
        if events[k].aggregate == aggregate {
          log := log + [events[k].event];
        }
        k := k + 1;
      }
      assert events[..k] == events;
      DenseLogIsNumbered(events, aggregate);
    }
  }

  // ---------------------------------------------------------------- the audit trail

  /** How an attempt to append ended: on the trail, refused for a stale tip, or with the trail out of reach. */
  datatype AppendAnswer = Landed | Stale | OutOfReach

  /** What one attempt, or one whole write, puts on the trail. */
  function Own(landed: bool, hash: A.Hash, operation: nat, entry: K.TrailEntry, prev: A.Tip): (own: seq<A.Record>)
    ensures |own| == if landed then 1 else 0
    ensures forall i :: 0 <= i < |own| ==> own[i].operation == operation && own[i].entry == entry
  {
    if landed then [A.NewRecord(hash, operation, entry, prev)] else []
  }

  class Trail {
    const hash: A.Hash
    var records: seq<A.Record>
    /** Audit ids are drawn at random; a counter stands for never drawing one twice. */
    var next: nat

    constructor (hash: A.Hash)
      requires A.IsHash(hash)
      ensures this.hash == hash && records == [] && Valid()
    {
      this.hash := hash;
      records, next := [], 0;
    }

    /** Distinct records, each with its own hash, below one another. Nothing says that it is one chain. */
    ghost predicate Valid()
      reads this
    {
      && A.IsHash(hash) && A.IsHashed(hash, records) && A.IsTree(records)
      && (forall i :: 0 <= i < |records| ==> records[i].operation < next)
    }

    /** A draw that nothing on the trail has. */
    ghost predicate IsDrawn(operation: nat)
      reads this
    {
      operation < next && !A.IsOn(records, operation)
    }

    method LastHash() returns (tip: A.Tip)
      ensures tip == A.TipOf(records)
    {
      tip := if records == [] then None else Some(records[|records| - 1].current);
    }

    method Draw() returns (operation: nat)
      requires Valid()
      modifies this`next
      ensures Valid() && IsDrawn(operation) && operation == old(next) && next == operation + 1
    {
      operation := next;
      next := next + 1;
    }

    /** The second half of an append: the head is not looked at again. */
    method Insert(r: A.Record, ghost seen: nat)
      requires Valid() && IsDrawn(r.operation)
      requires A.Names(records, r.prev, seen) && r == A.NewRecord(hash, r.operation, r.entry, r.prev)
      modifies this`records
      ensures Valid() && records == old(records) + [r]
      ensures A.IsChain(records) <==> A.IsChain(old(records)) && seen == |old(records)|
    {
      hide A.IsChain, A.IsTree, A.IsHash, A.Names, A.TipOf;
      A.GrowsTheTree(records, r, seen);
      A.GrowsTheChainExactlyAtTheHead(hash, records, r, seen);
      records := records + [r];
    }

    /** Whatever other writers append in the meantime, below the head or below an older record. */
    method Elsewhere(ghost mine: nat) returns (ghost foreign: seq<A.Record>)
      requires Valid() && IsDrawn(mine)
      modifies this
      ensures Valid() && IsDrawn(mine)
      ensures records == old(records) + foreign
    {
      hide A.IsChain, A.IsTree, A.IsHash, A.IsHashed, A.TipOf;
      foreign := [];
      var entries: seq<K.TrailEntry> := *;
      var k := 0;
      while k < |entries|
        invariant Valid() && IsDrawn(mine)
        invariant records == old(records) + foreign
      {
        var any: int := *;
        var under := if 0 <= any <= |records| then any else |records|;
        var parent := A.TipOf(records[..under]);
        var operation := Draw();
        var r := A.NewRecord(hash, operation, entries[k], parent);
        Insert(r, under);
        foreign := foreign + [r];
        k := k + 1;
      }
    }

    /**
      * A record whose tip is not the head is refused. What lands between the comparison and the insertion is not
      * noticed, and makes a fork.
      */
    method Append(operation: nat, entry: K.TrailEntry, prev: A.Tip, reachable: bool)
      returns (r: AppendAnswer, current: string, ghost foreign: seq<A.Record>)
      requires Valid() && IsDrawn(operation)
      modifies this
      ensures Valid()
      ensures r == if !reachable then OutOfReach else if prev == A.TipOf(old(records)) then Landed else Stale
      ensures records == old(records) + foreign + Own(r.Landed?, hash, operation, entry, prev)
      ensures r.Landed? <==> A.IsOn(records, operation)
      ensures operation < next
      ensures r.Landed? ==> A.TipOf(records) == Some(current)
      ensures r.Landed? ==> (A.IsChain(records) <==> A.IsChain(old(records)) && foreign == [])
    {
      hide A.IsChain, A.IsTree, A.IsHash, A.IsHashed;
      var record := A.NewRecord(hash, operation, entry, prev);
      current := record.current;
      foreign := [];
      if !reachable {
        return OutOfReach, current, [];
      }
      var tip := LastHash();
      if prev != tip {
        return Stale, current, [];
      }
      ghost var seen := |records|;
      foreign := Elsewhere(operation);
      assert records[..seen] == old(records);
      assert foreign == [] ==> records == old(records);
      Insert(record, seen);
      assert records[|records| - 1].operation == operation;
      r := Landed;
    }

    /** Append with the given tip, and once more with a fresh one if that is refused. */
    method Write(entry: K.TrailEntry, remembered: A.Tip)
      returns (ok: bool, current: string, ghost operation: nat, ghost before: seq<A.Record>,
               ghost during: seq<A.Record>)
      requires Valid()
      modifies this
      ensures Valid()
      // One record naming the head there was at the check, or none at all.
      ensures records == old(records) + before + during +
                         Own(ok, hash, operation, entry, A.TipOf(old(records) + before))
      ensures ok <==> A.IsOn(records, operation)
      ensures !A.IsOn(old(records), operation)
      ensures ok ==> A.TipOf(records) == Some(current)
      ensures ok ==> (A.IsChain(records) <==> A.IsChain(old(records) + before) && during == [])
    {
      hide A.IsChain, A.IsTree, A.IsHash, A.IsHashed, A.TipOf, A.NewRecord, Own;
      var mine := Draw();
      operation := mine;
      before := Elsewhere(mine);
      var reachable: bool := *;
      var r;
      r, current, during := Append(mine, entry, remembered, reachable);
      if r.Stale? {
        var tip := LastHash();
        ghost var more := Elsewhere(mine);
        before := before + during + more;
        assert records == old(records) + before;
        reachable := *;
        r, current, during := Append(mine, entry, tip, reachable);
      }
      ok := r.Landed?;
    }
  }

  // ---------------------------------------------------------------- the kill switch

  function Entries(records: seq<A.Record>): (r: seq<K.TrailEntry>)
    ensures |r| == |records|
    ensures forall i :: 0 <= i < |r| ==> r[i] == records[i].entry
  {
    seq(|records|, i requires 0 <= i < |records| => records[i].entry)
  }

  class HaltSwitch {
    const store: Store
    const trail: Trail

    constructor (store: Store, trail: Trail)
      ensures this.store == store && this.trail == trail
    {
      this.store := store;
      this.trail := trail;
    }

    ghost function Value(): K.Switch
      reads store, trail
    {
      K.Switch(store.halts, Entries(trail.records))
    }

    /** A halt on everything, or on the tenant; a blank tenant cannot be looked up and counts as halted. */
    method IsHalted(tenant: Option<string>) returns (halted: bool)
      ensures halted == K.IsHalted(store.halts, tenant)
    {
      if tenant.Some? && Strings.Strip(tenant.value) == "" {
        return true;
      }
      if K.GLOBAL_SCOPE in store.halts {
        return true;
      }
      halted := tenant.Some? && Strings.Strip(tenant.value) in store.halts;
    }

    /** Record the halt first; only then does it take effect. */
    method Engage(reason: string, actor: string, tenant: Option<string>, now: string)
      returns (answer: Answer, ghost landed: bool)
      requires trail.Valid() && K.EveryHaltRecorded(Value())
      modifies store`halts, trail
      ensures trail.Valid() && K.EveryHaltRecorded(Value())
      ensures store.halts == K.Engage(old(Value()), reason, actor, tenant, now, landed).halts
      ensures answer == if !K.CanEngage(reason, actor, tenant) then Raised(BadHalt)
                        else if landed then Returned else Raised(AuditLost)
      ensures old(trail.records) <= trail.records
    {
      hide Strings.Strip, K.ScopeFor, Trail.Valid, A.IsOn, A.TipOf;
      landed := false;
      if Strings.Strip(reason) == "" || Strings.Strip(actor) == "" {
        return Raised(BadHalt), false;
      }
      var scope := K.ScopeFor(tenant);
      if scope.None? {
        return Raised(BadHalt), false;
      }
      ghost var was := Value();
      var tip := trail.LastHash();
      var entry := K.Engaged(tenant, Strings.Strip(reason), Strings.Strip(actor));
      var ok, current, operation, before, during := trail.Write(entry, tip);
      K.TrailGrowthKeepsRecords(was, Entries(trail.records));
      if !ok {
        return Raised(AuditLost), false;
      }
      landed := true;
      var halt := K.Halt(Strings.Strip(reason), Strings.Strip(actor), now);
      assert K.Records(Entries(trail.records)[|trail.records| - 1], scope.value, halt);
      EngagedIsRecorded(store.halts, Entries(trail.records), scope.value, halt, |trail.records| - 1);
      hide K.EveryHaltRecorded, K.Records;
      store.halts := store.halts[scope.value := halt];
      answer := Returned;
    }

    /** Lift the halt first; the record follows if it can. */
    method Release(actor: string, tenant: Option<string>) returns (answer: Answer, ghost landed: bool)
      requires trail.Valid() && K.EveryHaltRecorded(Value())
      modifies store`halts, trail
      ensures trail.Valid() && K.EveryHaltRecorded(Value())
      ensures store.halts == K.Release(old(Value()), actor, tenant, landed).halts
      ensures answer == if !K.CanRelease(actor, tenant) then Raised(BadHalt)
                        else if landed then Returned else Raised(AuditLost)
      ensures old(trail.records) <= trail.records
    {
      hide Strings.Strip, K.ScopeFor, Trail.Valid, A.IsOn, A.TipOf;
      landed := false;
      if Strings.Strip(actor) == "" {
        return Raised(BadHalt), false;
      }
      var scope := K.ScopeFor(tenant);
      if scope.None? {
        return Raised(BadHalt), false;
      }
      ghost var was := Value();
      var wasEngaged := scope.value in store.halts;
      store.halts := store.halts - {scope.value};
      ReleasedStaysRecorded(was, scope.value);
      ghost var lifted := Value();
      var tip := trail.LastHash();
      var ok, current, operation, before, during := trail.Write(K.Released(tenant, wasEngaged, Strings.Strip(actor)), tip);
      K.TrailGrowthKeepsRecords(lifted, Entries(trail.records));
      hide K.EveryHaltRecorded;
      landed := ok;
      answer := if ok then Returned else Raised(AuditLost);
    }
  }

  lemma EngagedIsRecorded(halts: map<string, K.Halt>, trail: seq<K.TrailEntry>, scope: string, halt: K.Halt, at: nat)
    requires K.EveryHaltRecorded(K.Switch(halts, trail))
    requires at < |trail| && K.Records(trail[at], scope, halt)
    ensures K.EveryHaltRecorded(K.Switch(halts[scope := halt], trail))
  {
    hide K.Records;
  }

  lemma ReleasedStaysRecorded(s: K.Switch, scope: string)
    requires K.EveryHaltRecorded(s)
    ensures K.EveryHaltRecorded(s.(halts := s.halts - {scope}))
  {
    hide K.Records;
  }
}
