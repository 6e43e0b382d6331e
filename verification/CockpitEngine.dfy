/** The cockpit's state engine, as the object that changes in place. */
module CockpitEngine {
  import opened Wrappers
  import opened BacklogVelocity
  import opened Cockpit

  datatype DecisionError = UnknownIntervention | InvalidTransition

  class CockpitStateEngine {
    const windowSize: nat
    var window: seq<Sample>
    var recommendations: map<string, Recommendation>
    var order: seq<string>
    var events: seq<Event>
    var pendingId: Option<string>
    var cooldownTicks: nat
    var clockValue: real
    /** Every event ever appended, including those the bounded log has let go. */
    ghost var history: seq<Event>

    constructor (size: nat)
      requires size >= 2
      ensures Valid() && Value() == Start(size)
    {
      windowSize := size;
      window := [];
      recommendations := map[];
      order := [];
      events := [];
      pendingId := None;
      cooldownTicks := 0;
      clockValue := 0.0;
      history := [];
    }

    ghost function Value(): State
      reads this
    {
      State(windowSize, window, Board(recommendations, history), order, pendingId, cooldownTicks, clockValue)
    }

    /** The log is the end of the history, and rows sit under their own ids. */
    ghost predicate Valid()
      reads this
    {
      && IsReady(Value())
      && events == Kept(history, EVENT_LOG_LIMIT)
      && forall id :: id in recommendations ==> recommendations[id].id == id
    }

    method Log(e: Event)
      requires events == Kept(history, EVENT_LOG_LIMIT)
      modifies this`events, this`history
      ensures history == old(history) + [e]
      ensures events == Kept(history, EVENT_LOG_LIMIT)
    {
      PushedIsKept(history, EVENT_LOG_LIMIT, e);
      events := if |events| < EVENT_LOG_LIMIT then events + [e] else events[1..] + [e];
      history := history + [e];
    }

    /** Accept one tick, advance the state machine, and evaluate the trigger. */
    method Ingest(m: Sample, id: string) returns (executed: seq<string>, generated: Option<Recommendation>)
      requires Valid()
      modifies this
      ensures Valid()
      ensures Value() == Cockpit.Ingest(old(Value()), m, id)
      ensures generated.Some? <==> order != old(order)
      ensures generated.Some? ==> id in recommendations && generated == Some(recommendations[id])
      ensures executed == DispatchedIds(old(Value()).board, m.timestamp, old(order), |old(order)|)
    {
      clockValue := m.timestamp;
      window := if |window| < windowSize then window + [m] else window[1..] + [m];
      assert Value() == Observed(old(Value()), m);
      executed := DispatchApproved();
      var v := Velocity(window);
      var trigger := TriggerOf(m, v);
      generated := None;
      if trigger.Some? && pendingId.None? && cooldownTicks == 0 {
        var r := Recommended(id, trigger.value, m, Project(window, v, m));
        Raise(r);
        generated := Some(r);
      }
      if cooldownTicks > 0 {
        cooldownTicks := cooldownTicks - 1;
      }
    }

    /** Put one pending recommendation on the board. */
    method Raise(r: Recommendation)
      requires Valid() && r.status == Pending
      modifies this
      ensures Valid()
      ensures Value() == Raised(old(Value()), r)
    {
      recommendations := recommendations[r.id := r];
      order := order + [r.id];
      pendingId := Some(r.id);
      Log(Event(r.timestamp, r.id, None, Pending, Engine));
    }

    /** Advance approved recommendations to executed, oldest first. */
    method DispatchApproved() returns (executed: seq<string>)
      requires Valid()
      modifies this`recommendations, this`events, this`history
      ensures Valid()
      ensures Value() == AllDispatched(old(Value()))
      ensures executed == DispatchedIds(old(Value()).board, clockValue, order, |order|)
    {
      ghost var start := Board(recommendations, history);
      executed := [];
      var n := 0;
      while n < |order|
        invariant n <= |order| && Valid()
        invariant Board(recommendations, history) == Dispatched(start, clockValue, order, n)
        invariant executed == DispatchedIds(start, clockValue, order, n)
      {
        var key := order[n];
        var current := recommendations[key];
        if current.status == Approved {
          recommendations := recommendations[key := current.(status := Executed)];
          executed := executed + [key];
          Log(Event(clockValue, key, Some(Approved), Executed, ControlLoop));
        }
        n := n + 1;
      }
    }

    /** Move a pending recommendation to approved or rejected. */
    method Decide(id: string, approve: bool, manager: string) returns (r: Result<Recommendation, DecisionError>)
      requires Valid()
      modifies this
      ensures Valid()
      ensures Value() == Cockpit.Decide(old(Value()), id, approve, manager)
      ensures r.Success? <==> CanDecide(old(Value()), id)
      ensures r.Success? ==> id in recommendations && r.value == recommendations[id]
      ensures id !in old(recommendations) ==> r == Failure(UnknownIntervention)
      ensures id in old(recommendations) && r.Failure? ==> r == Failure(InvalidTransition)
    {
      if id !in recommendations {
        return Failure(UnknownIntervention);
      }
      var current := recommendations[id];
      if current.status != Pending {
        return Failure(InvalidTransition);
      }
      var target := if approve then Approved else Rejected;
      var updated := current.(status := target);
      recommendations := recommendations[updated.id := updated];
      pendingId := None;
      cooldownTicks := POST_DECISION_COOLDOWN_TICKS;
      Log(Event(clockValue, updated.id, Some(current.status), target, Manager(manager)));
      r := Success(updated);
    }
  }
}
