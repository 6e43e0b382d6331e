/** The events table: one row per event, numbered within its workflow. */
module EventStore {
  import opened EngineSpec

  datatype EventRow = EventRow(eventId: nat, aggregate: string, event: Event)

  /** One workflow's events, in the order they were appended. */
  function Log(rows: seq<EventRow>, aggregate: string): seq<Event> {
    if rows == [] then []
    else
      var last := rows[|rows| - 1];
      Log(rows[..|rows| - 1], aggregate) + if last.aggregate == aggregate then [last.event] else []
  }

  /** Every event carries the number of the events its workflow had before it. */
  predicate IsDense(rows: seq<EventRow>) {
    forall k :: 0 <= k < |rows| ==> rows[k].event.sequence == |Log(rows[..k], rows[k].aggregate)|
  }

  predicate HasId(rows: seq<EventRow>, eventId: nat) {
    exists k :: 0 <= k < |rows| && rows[k].eventId == eventId
  }

  /** A known id changes nothing, and neither does a number that is not the next one. */
  predicate Lands(rows: seq<EventRow>, e: EventRow) {
    !HasId(rows, e.eventId) && e.event.sequence == |Log(rows, e.aggregate)|
  }

  function Append(rows: seq<EventRow>, e: EventRow): seq<EventRow> {
    if Lands(rows, e) then rows + [e] else rows
  }

  /** Any number of writers, each attempting its append at any time. */
  function AppendAll(rows: seq<EventRow>, attempts: seq<EventRow>): seq<EventRow> {
    if attempts == [] then rows
    else Append(AppendAll(rows, attempts[..|attempts| - 1]), attempts[|attempts| - 1])
  }

  lemma NothingIsLogged(aggregate: string)
    ensures Log([], aggregate) == []
  {
  }

  lemma LogGrows(rows: seq<EventRow>, e: EventRow, aggregate: string)
    ensures Log(rows + [e], aggregate) == Log(rows, aggregate) + if e.aggregate == aggregate then [e.event] else []
  {
    assert (rows + [e])[..|rows|] == rows;
  }

  lemma AppendStaysDense(rows: seq<EventRow>, e: EventRow)
    requires IsDense(rows)
    ensures IsDense(Append(rows, e))
  {
    hide HasId;
    if Lands(rows, e) {
      var after := rows + [e];
      forall k | 0 <= k < |after|
        ensures after[k].event.sequence == |Log(after[..k], after[k].aggregate)|
      {
        assert after[..k] == rows[..k];
        if k == |rows| {
          assert rows[..k] == rows;
        }
      }
    }
  }

  lemma {:induction false} AppendAllStaysDense(rows: seq<EventRow>, attempts: seq<EventRow>)
    requires IsDense(rows)
    ensures IsDense(AppendAll(rows, attempts))
  {
    hide IsDense, Append;
    if attempts != [] {
      AppendAllStaysDense(rows, attempts[..|attempts| - 1]);
      AppendStaysDense(AppendAll(rows, attempts[..|attempts| - 1]), attempts[|attempts| - 1]);
    }
  }

  lemma {:induction false} DenseLogIsNumbered(rows: seq<EventRow>, aggregate: string)
    requires IsDense(rows)
    ensures forall k :: 0 <= k < |Log(rows, aggregate)| ==> Log(rows, aggregate)[k].sequence == k
  {
    if rows != [] {
      var n := |rows| - 1;
      assert IsDense(rows[..n]) by {
        forall k | 0 <= k < n
          ensures rows[..n][k].event.sequence == |Log(rows[..n][..k], rows[..n][k].aggregate)|
        {
          assert rows[..n][..k] == rows[..k];
        }
      }
      assert rows[n].event.sequence == |Log(rows[..n], rows[n].aggregate)|;
      hide IsDense;
      DenseLogIsNumbered(rows[..n], aggregate);
    }
  }

  /** Under any interleaving of appends, each workflow's events are numbered 0, 1, 2 and so on, in order. */
  lemma NumbersAreAlwaysDense(attempts: seq<EventRow>, aggregate: string)
    ensures var log := Log(AppendAll([], attempts), aggregate);
      forall k :: 0 <= k < |log| ==> log[k].sequence == k
  {
    AppendAllStaysDense([], attempts);
    DenseLogIsNumbered(AppendAll([], attempts), aggregate);
  }

  /** Appends never rewrite: the table, and every log in it, only grows. */
  lemma {:induction false} AppendAllOnlyExtends(rows: seq<EventRow>, attempts: seq<EventRow>, aggregate: string)
    ensures rows <= AppendAll(rows, attempts)
    ensures Log(rows, aggregate) <= Log(AppendAll(rows, attempts), aggregate)
  {
    if attempts != [] {
      var before := AppendAll(rows, attempts[..|attempts| - 1]);
      AppendAllOnlyExtends(rows, attempts[..|attempts| - 1], aggregate);
      LogGrows(before, attempts[|attempts| - 1], aggregate);
      hide Lands, Log;
    }
  }

  /** A writer that read the next number lands its event exactly when nobody else wrote to that workflow meanwhile. */
  lemma AppendLandsExactlyWhenUndisturbed(rows: seq<EventRow>, others: seq<EventRow>, e: EventRow)
    requires e.event.sequence == |Log(rows, e.aggregate)| && !HasId(AppendAll(rows, others), e.eventId)
    ensures Lands(AppendAll(rows, others), e) <==> Log(AppendAll(rows, others), e.aggregate) == Log(rows, e.aggregate)
  {
    AppendAllOnlyExtends(rows, others, e.aggregate);
    hide HasId, Log, AppendAll;
  }
}
