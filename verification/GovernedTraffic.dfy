/** Any number of task managers at work on the same two tables. */
module GovernedTraffic {
  import opened Wrappers
  import opened WorkflowStates
  import opened RoleCatalog
  import opened Ledger
  import opened GovernedTasks
  import opened GovernedTaskProofs

  // ---------------------------------------------------------------- one write among others

  /**
    * A state write with other managers appending to the ledger between its reading of the head and the store's
    * check of it, and between that check and the insertion. The task table has been rewritten before either, from
    * the record as the caller holds it.
    */
  function CommitAmong(o: Office, book: Book, t: Task, w: Write, between: seq<Entry>, during: seq<Entry>): Attempt {
    if !CommitAllowed(o, book, t, w) then Attempt(book, false)
    else
      var alone := CommitState(o, book, t, w).book;
      var seen := book.ledger + between;
      if Head(seen) != Head(book.ledger) then Attempt(Book(alone.tasks, seen), false)
      else Attempt(Book(alone.tasks, seen + during + [alone.ledger[|book.ledger|]]), true)
  }

  lemma {:induction false} RowsOfOthers(ledger: seq<Entry>, more: seq<Entry>, id: string)
    requires forall i :: 0 <= i < |more| ==> more[i].signed.taskId != id
    ensures RowsOf(ledger + more, id) == RowsOf(ledger, id)
  {
    hide RowsOf;
    if more == [] {
      assert ledger + more == ledger;
    } else {
      var n := |more| - 1;
      RowsOfOthers(ledger, more[..n], id);
      RowsOfAppend(ledger + more[..n], more[n], id);
      assert ledger + more == ledger + more[..n] + [more[n]];
    }
  }

  /** The head is the same again only if nothing was appended. */
  lemma HeadMoves(h: Hash, ledger: seq<Entry>, more: seq<Entry>)
    requires IsHash(h) && Linked(h, ledger + more)
    ensures Head(ledger + more) == Head(ledger) <==> more == []
  {
    PrefixOfLinked(h, ledger + more, |ledger|);
    assert (ledger + more)[..|ledger|] == ledger;
    if Head(ledger + more) == Head(ledger) {
      HeadDeterminesLedger(h, ledger + more, ledger);
    }
    assert more == [] ==> ledger + more == ledger;
  }

  lemma HistoryGrowsExactly(rows: seq<Signed>, was: Task, row: Signed, t: Task)
    requires IsHistory(rows, was) && row.fromState.Some? && row.toState == t.state
    ensures IsHistory(rows + [row], t) <==>
            row.fromState.value == was.state && IsValidTransition(row.fromState.value, row.toState)
  {
    var after, n := rows + [row], |rows|;
    assert after[n - 1] == rows[n - 1] && after[n] == row;
    if IsHistory(after, t) {
      assert after[n].fromState == Some(after[n - 1].toState);
    }
  }

  /**
    * When a state write leaves the task's ledger rows telling its row, whatever record the caller held: if nobody
    * appended before the check, exactly when the record was current and the move legal; otherwise, when the row is
    * rewritten and the call raises, exactly when the row said so already.
    */
  lemma CommitAgreesExactly(o: Office, book: Book, t: Task, w: Write, between: seq<Entry>, during: seq<Entry>)
    requires CommitAllowed(o, book, t, w) && IsHistory(RowsOf(book.ledger, t.taskId), book.tasks[t.taskId])
    requires IsHash(o.hash) && Linked(o.hash, book.ledger + between)
    requires forall i :: 0 <= i < |between| ==> between[i].signed.taskId != t.taskId
    requires forall i :: 0 <= i < |during| ==> during[i].signed.taskId != t.taskId
    ensures var after := CommitAmong(o, book, t, w, between, during);
      && t.taskId in after.book.tasks
      && after.book.tasks[t.taskId].state == Target(o, t, w)
      && (after.ok <==> between == [])
      && (IsHistory(RowsOf(after.book.ledger, t.taskId), after.book.tasks[t.taskId]) <==>
            var was := book.tasks[t.taskId].state;
            if between == [] then was == t.state && IsValidTransition(t.state, Target(o, t, w))
            else was == Target(o, t, w))
  {
    hide Linked, IsHash, Head, RowsOf, IsHistory, Target, ReasonWritten, RemarkWritten, IsReexamined;
    HeadMoves(o.hash, book.ledger, between);
    var after := CommitAmong(o, book, t, w, between, during).book;
    var row := CommitState(o, book, t, w).book.ledger[|book.ledger|];
    var rows := RowsOf(book.ledger, t.taskId);
    if between == [] {
      assert after.ledger == book.ledger + during + [row];
      RowsOfOthers(book.ledger, during, t.taskId);
      RowsOfAppend(book.ledger + during, row, t.taskId);
      HistoryGrowsExactly(rows, book.tasks[t.taskId], row.signed, after.tasks[t.taskId]);
    } else {
      RowsOfOthers(book.ledger, between, t.taskId);
      HistoryEndsAtState(rows, book.tasks[t.taskId], after.tasks[t.taskId]);
    }
  }

  lemma HistoryEndsAtState(rows: seq<Signed>, was: Task, t: Task)
    requires IsHistory(rows, was)
    ensures IsHistory(rows, t) <==> was.state == t.state
  {
  }

  /** And the ledger is still one chain exactly when nothing was appended between the check and the insertion. */
  lemma CommitForksExactlyWhenRaced(o: Office, book: Book, t: Task, w: Write, during: seq<Entry>)
    requires IsHash(o.hash) && Linked(o.hash, book.ledger + during) && CommitAllowed(o, book, t, w)
    ensures var after := CommitAmong(o, book, t, w, [], during);
      after.ok && (Linked(o.hash, after.book.ledger) <==> during == [])
  {
    hide IsHash, Linked, CommitAllowed, Rewritten, RowsOf;
    assert book.ledger + [] == book.ledger;
    var seen := book.ledger + during;
    var alone := CommitState(o, book, t, w).book;
    var row := alone.ledger[|book.ledger|];
    assert alone.ledger == book.ledger + [row] && row.signed.prevHash == Head(book.ledger);
    var after := seen + [row];
    HeadMoves(o.hash, book.ledger, during);
    if Linked(o.hash, after) {
      PrefixOfLinked(o.hash, after, |seen|);
      assert after[..|seen|] == seen;
    }
    if during == [] {
      assert after == Appended(o.hash, book.ledger, row.signed);
      AppendKeepsLinked(o.hash, book.ledger, row.signed);
    }
  }

  // ---------------------------------------------------------------- any number of managers

  /** A state write under way: its ledger row is still to be linked, checked or inserted. */
  datatype Stage = Written | Seen(prev: string) | Cleared(prev: string)

  datatype Flight = Flight(row: Signed, stage: Stage)

  /** The two tables, and the writes under way in the order in which they rewrote the task table. */
  datatype Traffic = Traffic(book: Book, flights: seq<Flight>)

  datatype Action =
    // A new task is inserted.
    | Propose(t: Task, row: Signed)
    // A task's row is rewritten, from a record that may be out of date.
    | Commit(t: Task, w: Write)
    // The head is read for the i-th write under way.
    | Look(i: nat)
    // The store compares it with the head; if it is no longer the head, the call raises and the write is given up.
    | Check(i: nat)
    // The row is inserted.
    | Insert(i: nat)

  function Without(flights: seq<Flight>, i: nat): seq<Flight>
    requires i < |flights|
  {
    flights[..i] + flights[i + 1..]
  }

  /** A first row is one that proposes its own, unknown task. */
  predicate IsProposal(s: Traffic, t: Task, row: Signed) {
    && t.taskId !in s.book.tasks && t.state == Proposed
    && row.taskId == t.taskId && row.fromState == None && row.toState == Proposed
  }

  function Act(o: Office, s: Traffic, a: Action): Traffic {
    match a
    case Propose(t, row) =>
      if !IsProposal(s, t, row) then s
      else Traffic(s.book.(tasks := s.book.tasks[t.taskId := t]), s.flights + [Flight(row, Written)])
    case Commit(t, w) =>
      if !CommitAllowed(o, s.book, t, w) then s
      else
        var row := Stored(s.book, Rewritten(o, t, w));
        Traffic(s.book.(tasks := s.book.tasks[t.taskId := row]), s.flights + [Flight(RowFor(o, t, w), Written)])
    case Look(i) =>
      if i < |s.flights| && s.flights[i].stage.Written? then
        s.(flights := s.flights[i := s.flights[i].(stage := Seen(Head(s.book.ledger)))])
      else s
    case Check(i) =>
      if i >= |s.flights| || !s.flights[i].stage.Seen? then s
      else if s.flights[i].stage.prev == Head(s.book.ledger) then
        s.(flights := s.flights[i := s.flights[i].(stage := Cleared(s.flights[i].stage.prev))])
      else s.(flights := Without(s.flights, i))
    case Insert(i) =>
      if i >= |s.flights| || !s.flights[i].stage.Cleared? then s
      else
        var row := s.flights[i].row.(prevHash := s.flights[i].stage.prev);
        Traffic(s.book.(ledger := s.book.ledger + [Entry(row, o.hash(row))]), Without(s.flights, i))
  }

  function RunAll(o: Office, s: Traffic, actions: seq<Action>): Traffic
    decreases |actions|
  {
    if actions == [] then s else RunAll(o, Act(o, s, actions[0]), actions[1..])
  }

  /** With nobody else about, four actions are one write. */
  lemma CommitIsFourActions(o: Office, book: Book, t: Task, w: Write)
    requires CommitAllowed(o, book, t, w)
    ensures RunAll(o, Traffic(book, []), [Commit(t, w), Look(0), Check(0), Insert(0)]) ==
            Traffic(CommitState(o, book, t, w).book, [])
  {
    var a, b, c, d := Commit(t, w), Look(0), Check(0), Insert(0);
    var s := Traffic(book, []);
    var sa := Act(o, s, a);
    var sb := Act(o, sa, b);
    var sc := Act(o, sb, c);
    var sd := Act(o, sc, d);
    assert RunAll(o, s, [a, b, c, d]) == sd by {
      hide Act;
      assert [a, b, c, d][1..] == [b, c, d];
      assert [b, c, d][1..] == [c, d];
      assert [c, d][1..] == [d];
      assert RunAll(o, sc, [d]) == RunAll(o, sd, []);
      assert RunAll(o, sb, [c, d]) == RunAll(o, sc, [d]);
      assert RunAll(o, sa, [b, c, d]) == RunAll(o, sb, [c, d]);
    }
    hide CommitAllowed, Head, Rewritten;
    assert sa.flights == [Flight(RowFor(o, t, w), Written)];
    assert sd.flights == [];
  }

  // ---------------------------------------------------------------- what is told of a task

  datatype Move = Move(from: Option<State>, to: State)

  function MovesOf(rows: seq<Signed>, id: string): seq<Move> {
    if rows == [] then []
    else
      var last := rows[|rows| - 1];
      MovesOf(rows[..|rows| - 1], id) + if last.taskId == id then [Move(last.fromState, last.toState)] else []
  }

  lemma {:induction false} MovesOfBoth(a: seq<Signed>, b: seq<Signed>, id: string)
    ensures MovesOf(a + b, id) == MovesOf(a, id) + MovesOf(b, id)
  {
    if b == [] {
      assert a + b == a;
    } else {
      var n := |b| - 1;
      assert (a + b)[..|a| + n] == a + b[..n] && (a + b)[|a| + n] == b[n];
      MovesOfBoth(a, b[..n], id);
    }
  }

  /** One legal path from nothing through proposed to the state. */
  ghost predicate Leads(m: seq<Move>, to: State) {
    && m != [] && m[0] == Move(None, Proposed)
    && (forall i, j :: 0 <= i < j < |m| && j == i + 1 ==>
          m[j].from == Some(m[i].to) && IsValidTransition(m[i].to, m[j].to))
    && m[|m| - 1].to == to
  }

  lemma StepLeads(m: seq<Move>, state: State, from: State, to: State)
    requires Leads(m, state)
    ensures Leads(m + [Move(Some(from), to)], to) <==> from == state && IsValidTransition(from, to)
  {
    var after, n := m + [Move(Some(from), to)], |m|;
    assert after[n - 1] == m[n - 1];
    if Leads(after, to) {
      assert after[n].from == Some(after[n - 1].to);
    }
  }

  /** Nothing can be left out of a path. */
  lemma GapLeadsNowhere(a: seq<Move>, x: Move, b: seq<Move>, to: State)
    requires Leads(a + [x] + b, to)
    ensures !Leads(a + b, to)
  {
    var full, less, n := a + [x] + b, a + b, |a|;
    assert full[n] == x;
    assert n > 0 ==> full[n - 1] == a[n - 1] && x.from == Some(a[n - 1].to) && IsValidTransition(a[n - 1].to, x.to);
    assert b != [] ==> full[n + 1] == b[0] && b[0].from == Some(x.to);
    assert n > 0 ==> less[n - 1] == a[n - 1];
    assert b != [] ==> less[n] == b[0];
  }

  /** Nor can a move overtake another. */
  lemma DetourLeadsNowhere(l: seq<Move>, a: seq<Move>, x: Move, b: seq<Move>, to: State)
    requires Leads(l + a + [x] + b, to) && a != []
    ensures !Leads(l + [x] + a + b, to)
  {
    var full, turned, n, m := l + a + [x] + b, l + [x] + a + b, |l|, |l| + |a|;
    assert full[m] == x && full[m - 1] == a[|a| - 1] && full[n] == a[0];
    assert x.from == Some(a[|a| - 1].to) && IsValidTransition(a[|a| - 1].to, x.to);
    assert n > 0 ==> full[n - 1] == l[n - 1] && a[0].from == Some(l[n - 1].to);
    assert turned[n] == x && turned[n + 1] == a[0];
    assert n > 0 ==> turned[n - 1] == l[n - 1];
  }

  function RowsIn(ledger: seq<Entry>): (rows: seq<Signed>)
    ensures |rows| == |ledger| && forall i :: 0 <= i < |rows| ==> rows[i] == ledger[i].signed
  {
    seq(|ledger|, i requires 0 <= i < |ledger| => ledger[i].signed)
  }

  function RowsUnderWay(flights: seq<Flight>): (rows: seq<Signed>)
    ensures |rows| == |flights| && forall i :: 0 <= i < |rows| ==> rows[i] == flights[i].row
  {
    seq(|flights|, i requires 0 <= i < |flights| => flights[i].row)
  }

  /** What the ledger tells of a task, with what is still on its way there. */
  function Told(s: Traffic, id: string): seq<Move> {
    MovesOf(RowsIn(s.book.ledger), id) + MovesOf(RowsUnderWay(s.flights), id)
  }

  /** Every task's moves lead to its stored state. */
  ghost predicate Agrees(s: Traffic) {
    forall id :: id in s.book.tasks ==> Leads(Told(s, id), s.book.tasks[id].state)
  }

  ghost predicate IsKnown(s: Traffic) {
    && (forall i :: 0 <= i < |s.book.ledger| ==> s.book.ledger[i].signed.taskId in s.book.tasks)
    && (forall i :: 0 <= i < |s.flights| ==> s.flights[i].row.taskId in s.book.tasks)
  }

  lemma {:induction false} RowsAreMoves(ledger: seq<Entry>, id: string)
    ensures var m, rows := MovesOf(RowsIn(ledger), id), RowsOf(ledger, id);
      && |m| == |rows|
      && (forall k :: 0 <= k < |rows| ==> m[k] == Move(rows[k].fromState, rows[k].toState))
  {
    if ledger != [] {
      var n := |ledger| - 1;
      RowsAreMoves(ledger[..n], id);
      assert RowsIn(ledger)[..n] == RowsIn(ledger[..n]);
    }
  }

  /** When no write is under way, agreement means that the ledger tells every task. */
  lemma RowsLead(s: Traffic, id: string)
    requires s.flights == [] && id in s.book.tasks
    ensures Leads(Told(s, id), s.book.tasks[id].state) <==> IsHistory(RowsOf(s.book.ledger, id), s.book.tasks[id])
  {
    hide RowsOf, MovesOf;
    RowsAreMoves(s.book.ledger, id);
    NothingUnderWay(id);
    var m, rows := MovesOf(RowsIn(s.book.ledger), id), RowsOf(s.book.ledger, id);
    assert Told(s, id) == m;
    forall i, j | 0 <= i < j < |m| && j == i + 1
      ensures m[i] == Move(rows[i].fromState, rows[i].toState) && m[j] == Move(rows[j].fromState, rows[j].toState)
    {
    }
    assert m != [] ==> m[0] == Move(rows[0].fromState, rows[0].toState);
  }

  lemma NothingUnderWay(id: string)
    ensures MovesOf(RowsUnderWay([]), id) == []
  {
  }

  // ---------------------------------------------------------------- when table and ledger part

  /** A record that another write has overtaken, or a held-back move the table of states does not have. */
  predicate IsStale(o: Office, s: Traffic, t: Task, w: Write) {
    CommitAllowed(o, s.book, t, w)
    && (s.book.tasks[t.taskId].state != t.state || !IsValidTransition(t.state, Target(o, t, w)))
  }

  /** A check that finds the head moved. */
  predicate IsRefused(s: Traffic, i: nat) {
    i < |s.flights| && s.flights[i].stage.Seen? && s.flights[i].stage.prev != Head(s.book.ledger)
  }

  /** A row that goes in before the row of an earlier write to its task. */
  predicate Overtakes(s: Traffic, i: nat) {
    && i < |s.flights| && s.flights[i].stage.Cleared?
    && MovesOf(RowsUnderWay(s.flights[..i]), s.flights[i].row.taskId) != []
  }

  predicate Parts(o: Office, s: Traffic, a: Action) {
    match a
    case Propose(_, _) => false
    case Commit(t, w) => IsStale(o, s, t, w)
    case Look(_) => false
    case Check(i) => IsRefused(s, i)
    case Insert(i) => Overtakes(s, i)
  }

  /** The i-th write under way, between those before and those after it. */
  lemma ToldAround(s: Traffic, i: nat, id: string)
    requires i < |s.flights|
    ensures var row := s.flights[i].row;
      var before := MovesOf(RowsUnderWay(s.flights[..i]), id);
      var rest := MovesOf(RowsUnderWay(s.flights[i + 1..]), id);
      && MovesOf([row], id) == (if row.taskId == id then [Move(row.fromState, row.toState)] else [])
      && MovesOf(RowsUnderWay(s.flights), id) == before + MovesOf([row], id) + rest
      && MovesOf(RowsUnderWay(Without(s.flights, i)), id) == before + rest
  {
    var row := s.flights[i].row;
    var a, b := RowsUnderWay(s.flights[..i]), RowsUnderWay(s.flights[i + 1..]);
    assert RowsUnderWay(s.flights) == a + [row] + b;
    assert RowsUnderWay(Without(s.flights, i)) == a + b;
    assert [row][..0] == [];
    MovesOfBoth(a, b, id);
    MovesOfBoth(a, [row], id);
    MovesOfBoth(a + [row], b, id);
  }

  lemma NoMoves(rows: seq<Signed>, id: string)
    requires forall i :: 0 <= i < |rows| ==> rows[i].taskId != id
    ensures MovesOf(rows, id) == []
  {
  }

  lemma ActIsKnown(o: Office, s: Traffic, a: Action)
    requires IsKnown(s)
    ensures IsKnown(Act(o, s, a))
  {
    hide Head, IsReexamined, Target, ReasonWritten, RemarkWritten;
  }

  lemma CommitTells(o: Office, s: Traffic, t: Task, w: Write)
    requires CommitAllowed(o, s.book, t, w)
    ensures var after := Act(o, s, Commit(t, w));
      && after.book.tasks.Keys == s.book.tasks.Keys
      && after.book.tasks[t.taskId].state == Target(o, t, w)
      && (forall id :: id in s.book.tasks && id != t.taskId ==> after.book.tasks[id] == s.book.tasks[id])
      && (forall id: string :: Told(after, id) ==
            Told(s, id) + if id == t.taskId then [Move(Some(t.state), Target(o, t, w))] else [])
  {
    hide MovesOf, Target, ReasonWritten, RemarkWritten, IsReexamined;
    var after, row := Act(o, s, Commit(t, w)), RowFor(o, t, w);
    assert RowsUnderWay(after.flights) == RowsUnderWay(s.flights) + [row];
    forall id: string
      ensures Told(after, id) ==
              Told(s, id) + if id == t.taskId then [Move(Some(t.state), Target(o, t, w))] else []
    {
      MovesOfBoth(RowsUnderWay(s.flights), [row], id);
      MovesOfOne(row, id);
    }
  }

  lemma CommitPartsExactly(o: Office, s: Traffic, t: Task, w: Write)
    requires Agrees(s)
    ensures Agrees(Act(o, s, Commit(t, w))) <==> !IsStale(o, s, t, w)
  {
    hide Agrees, Target, IsReexamined, Stored, Rewritten, RowFor;
    if CommitAllowed(o, s.book, t, w) {
      CommitTells(o, s, t, w);
      MovePartsExactly(s, Act(o, s, Commit(t, w)), t.taskId, t.state, Target(o, t, w));
    }
  }

  lemma MovePartsExactly(s: Traffic, after: Traffic, moved: string, from: State, to: State)
    requires Agrees(s) && moved in s.book.tasks
    requires after.book.tasks.Keys == s.book.tasks.Keys && after.book.tasks[moved].state == to
    requires forall id :: id in s.book.tasks && id != moved ==> after.book.tasks[id] == s.book.tasks[id]
    requires forall id: string :: Told(after, id) == Told(s, id) + if id == moved then [Move(Some(from), to)] else []
    ensures Agrees(after) <==> s.book.tasks[moved].state == from && IsValidTransition(from, to)
  {
    hide Leads, Told, IsValidTransition;
    StepLeads(Told(s, moved), s.book.tasks[moved].state, from, to);
    assert forall id :: id in after.book.tasks <==> id in s.book.tasks.Keys;
    assert Told(after, moved) == Told(s, moved) + [Move(Some(from), to)];
    forall id | id in s.book.tasks && id != moved
      ensures Told(after, id) == Told(s, id)
    {
    }
  }

  lemma MovesOfOne(row: Signed, id: string)
    ensures MovesOf([row], id) == if row.taskId == id then [Move(row.fromState, row.toState)] else []
  {
    assert [row][..0] == [];
  }

  lemma CheckPartsExactly(o: Office, s: Traffic, i: nat)
    requires Agrees(s) && IsKnown(s)
    ensures Agrees(Act(o, s, Check(i))) <==> !IsRefused(s, i)
  {
    hide Leads, MovesOf, Head;
    var after := Act(o, s, Check(i));
    if IsRefused(s, i) {
      var id := s.flights[i].row.taskId;
      ToldAround(s, i, id);
      var before := MovesOf(RowsUnderWay(s.flights[..i]), id);
      var rest := MovesOf(RowsUnderWay(s.flights[i + 1..]), id);
      var x := Move(s.flights[i].row.fromState, s.flights[i].row.toState);
      var l := MovesOf(RowsIn(s.book.ledger), id);
      assert Told(s, id) == l + before + [x] + rest;
      assert Told(after, id) == l + before + rest;
      GapLeadsNowhere(l + before, x, rest, s.book.tasks[id].state);
    } else {
      assert RowsUnderWay(after.flights) == RowsUnderWay(s.flights);
    }
  }

  lemma LookPartsNothing(o: Office, s: Traffic, i: nat)
    requires Agrees(s)
    ensures Agrees(Act(o, s, Look(i)))
  {
    hide Leads, MovesOf, Head;
    assert RowsUnderWay(Act(o, s, Look(i)).flights) == RowsUnderWay(s.flights);
  }

  lemma ProposePartsNothing(o: Office, s: Traffic, t: Task, row: Signed)
    requires Agrees(s) && IsKnown(s)
    ensures Agrees(Act(o, s, Propose(t, row)))
  {
    hide MovesOf;
    if IsProposal(s, t, row) {
      var after := Act(o, s, Propose(t, row));
      assert RowsUnderWay(after.flights) == RowsUnderWay(s.flights) + [row];
      forall id: string
        ensures Told(after, id) == Told(s, id) + if id == t.taskId then [Move(None, Proposed)] else []
      {
        MovesOfBoth(RowsUnderWay(s.flights), [row], id);
        MovesOfOne(row, id);
      }
      NoMoves(RowsIn(s.book.ledger), t.taskId);
      NoMoves(RowsUnderWay(s.flights), t.taskId);
      assert Told(after, t.taskId) == [Move(None, Proposed)];
      hide Leads;
      assert Leads(Told(after, t.taskId), Proposed) by {
        OneMoveLeads();
      }
    }
  }

  lemma OneMoveLeads()
    ensures Leads([Move(None, Proposed)], Proposed)
  {
  }

  lemma InsertTells(o: Office, s: Traffic, i: nat, id: string)
    requires i < |s.flights| && s.flights[i].stage.Cleared?
    ensures var l := MovesOf(RowsIn(s.book.ledger), id);
      var x := MovesOf([s.flights[i].row], id);
      var before := MovesOf(RowsUnderWay(s.flights[..i]), id);
      var rest := MovesOf(RowsUnderWay(s.flights[i + 1..]), id);
      && Told(s, id) == l + before + x + rest
      && Told(Act(o, s, Insert(i)), id) == l + x + before + rest
  {
    hide MovesOf;
    var after := Act(o, s, Insert(i));
    var row := s.flights[i].row.(prevHash := s.flights[i].stage.prev);
    assert RowsIn(after.book.ledger) == RowsIn(s.book.ledger) + [row];
    MovesOfBoth(RowsIn(s.book.ledger), [row], id);
    MovesOfOne(row, id);
    ToldAround(s, i, id);
  }

  lemma InsertPartsExactly(o: Office, s: Traffic, i: nat)
    requires Agrees(s) && IsKnown(s)
    ensures Agrees(Act(o, s, Insert(i))) <==> !Overtakes(s, i)
  {
    hide Leads, MovesOf, Told;
    if i < |s.flights| && s.flights[i].stage.Cleared? {
      var after, own := Act(o, s, Insert(i)), s.flights[i].row.taskId;
      assert after.book.tasks == s.book.tasks;
      InsertTells(o, s, i, own);
      MovesOfOne(s.flights[i].row, own);
      var before := MovesOf(RowsUnderWay(s.flights[..i]), own);
      if before != [] {
        DetourLeadsNowhere(MovesOf(RowsIn(s.book.ledger), own), before,
                           Move(s.flights[i].row.fromState, s.flights[i].row.toState),
                           MovesOf(RowsUnderWay(s.flights[i + 1..]), own), s.book.tasks[own].state);
      } else {
        forall id | id in s.book.tasks
          ensures Told(after, id) == Told(s, id)
        {
          InsertTells(o, s, i, id);
          MovesOfOne(s.flights[i].row, id);
        }
      }
    }
  }

  /** Each action keeps every task told, except exactly those that part the two tables. */
  lemma ActPartsExactly(o: Office, s: Traffic, a: Action)
    requires Agrees(s) && IsKnown(s)
    ensures Agrees(Act(o, s, a)) <==> !Parts(o, s, a)
  {
    hide Agrees, IsKnown, Act, IsStale, IsRefused, Overtakes;
    match a
    case Propose(t, row) => ProposePartsNothing(o, s, t, row);
    case Commit(t, w) => CommitPartsExactly(o, s, t, w);
    case Look(i) => LookPartsNothing(o, s, i);
    case Check(i) => CheckPartsExactly(o, s, i);
    case Insert(i) => InsertPartsExactly(o, s, i);
  }

  /** Every moment of the run finds the tables in agreement, counting the writes under way. */
  ghost predicate AlwaysAgrees(o: Office, s: Traffic, actions: seq<Action>)
    decreases |actions|
  {
    Agrees(s) && (actions != [] ==> AlwaysAgrees(o, Act(o, s, actions[0]), actions[1..]))
  }

  predicate EverParts(o: Office, s: Traffic, actions: seq<Action>)
    decreases |actions|
  {
    actions != [] && (Parts(o, s, actions[0]) || EverParts(o, Act(o, s, actions[0]), actions[1..]))
  }

  lemma {:induction false} RunAgreesExactly(o: Office, s: Traffic, actions: seq<Action>)
    requires Agrees(s) && IsKnown(s)
    ensures AlwaysAgrees(o, s, actions) <==> !EverParts(o, s, actions)
    decreases |actions|
  {
    hide Agrees, IsKnown, Act, Parts;
    if actions != [] {
      var next := Act(o, s, actions[0]);
      ActPartsExactly(o, s, actions[0]);
      ActIsKnown(o, s, actions[0]);
      if Agrees(next) {
        RunAgreesExactly(o, next, actions[1..]);
      } else {
        assert !AlwaysAgrees(o, next, actions[1..]);
      }
    }
  }

  const QUIET := Traffic(EMPTY_BOOK, [])

  /**
    * However any number of managers interleave on any tasks, from empty tables: the task table and the ledger agree
    * at every moment exactly when no write came from an overtaken record, found the head moved, or went in before an
    * earlier write to its task.
    */
  lemma TrafficAgreesExactly(o: Office, actions: seq<Action>)
    ensures AlwaysAgrees(o, QUIET, actions) <==> !EverParts(o, QUIET, actions)
  {
    RunAgreesExactly(o, QUIET, actions);
  }

  lemma {:induction false} AgreesAtTheEnd(o: Office, s: Traffic, actions: seq<Action>)
    requires AlwaysAgrees(o, s, actions)
    ensures Agrees(RunAll(o, s, actions))
    decreases |actions|
  {
    if actions != [] {
      AgreesAtTheEnd(o, Act(o, s, actions[0]), actions[1..]);
    }
  }

  /** Then, once nothing is under way, the ledger tells every task's history up to its stored state. */
  lemma QuietTrafficIsTold(o: Office, actions: seq<Action>, id: string)
    requires !EverParts(o, QUIET, actions)
    requires RunAll(o, QUIET, actions).flights == [] && id in RunAll(o, QUIET, actions).book.tasks
    ensures var book := RunAll(o, QUIET, actions).book; IsHistory(RowsOf(book.ledger, id), book.tasks[id])
  {
    hide IsHistory, Leads;
    TrafficAgreesExactly(o, actions);
    AgreesAtTheEnd(o, QUIET, actions);
    RowsLead(RunAll(o, QUIET, actions), id);
  }

  // ---------------------------------------------------------------- when the ledger forks

  /** The insertion of a row that no longer names the head. */
  predicate Races(s: Traffic, a: Action) {
    && a.Insert? && a.i < |s.flights| && s.flights[a.i].stage.Cleared?
    && s.flights[a.i].stage.prev != Head(s.book.ledger)
  }

  predicate EverRaces(o: Office, s: Traffic, actions: seq<Action>)
    decreases |actions|
  {
    actions != [] && (Races(s, actions[0]) || EverRaces(o, Act(o, s, actions[0]), actions[1..]))
  }

  lemma ActForksExactly(o: Office, s: Traffic, a: Action)
    ensures Linked(o.hash, Act(o, s, a).book.ledger) <==> Linked(o.hash, s.book.ledger) && !Races(s, a)
  {
    if a.Insert? && a.i < |s.flights| && s.flights[a.i].stage.Cleared? {
      var ledger, after := s.book.ledger, Act(o, s, a).book.ledger;
      var row := after[|ledger|].signed;
      assert after[..|ledger|] == ledger;
      if Linked(o.hash, after) {
        PrefixOfLinked(o.hash, after, |ledger|);
      }
      if Linked(o.hash, ledger) && !Races(s, a) {
        assert after == Appended(o.hash, ledger, row);
        AppendKeepsLinked(o.hash, ledger, row);
      }
    }
  }

  /** The ledger is one chain exactly when no row was inserted after the head had moved since its check. */
  lemma {:induction false} TrafficForksExactlyOnRace(o: Office, s: Traffic, actions: seq<Action>)
    ensures Linked(o.hash, RunAll(o, s, actions).book.ledger) <==>
            Linked(o.hash, s.book.ledger) && !EverRaces(o, s, actions)
    decreases |actions|
  {
    hide Linked, Act, Races;
    if actions != [] {
      ActForksExactly(o, s, actions[0]);
      TrafficForksExactlyOnRace(o, Act(o, s, actions[0]), actions[1..]);
    }
  }

  // ---------------------------------------------------------------- an overtaken approval

  /** A write lengthens the chain and the task's rows by one, whatever the record it was made on. */
  lemma CommitAddsRow(o: Office, book: Book, t: Task, w: Write)
    requires CommitAllowed(o, book, t, w) && Linked(o.hash, book.ledger)
    ensures var after := CommitState(o, book, t, w);
      && after.ok && Linked(o.hash, after.book.ledger)
      && t.taskId in after.book.tasks && after.book.tasks[t.taskId].state == Target(o, t, w)
      && RowsOf(after.book.ledger, t.taskId) ==
           RowsOf(book.ledger, t.taskId) + [RowFor(o, t, w).(prevHash := Head(book.ledger))]
  {
    hide Linked, RowsOf, Target, ReasonWritten, RemarkWritten, IsReexamined, Head;
    var s := RowFor(o, t, w);
    AppendKeepsLinked(o.hash, book.ledger, s);
    var signed := s.(prevHash := Head(book.ledger));
    RowsOfAppend(book.ledger, Entry(signed, o.hash(signed)), t.taskId);
  }

  lemma TokenMoves(o: Office, t: Task, w: Write)
    requires w.to != Executing || w.humanApproved
    ensures !IsReexamined(w) && Target(o, t, w) == Rewritten(o, t, w).state == w.to
    ensures Rewritten(o, t, w).taskId == t.taskId && RowFor(o, t, w).fromState == Some(t.state)
  {
  }

  lemma StaleRowBreaks(rows: seq<Signed>, was: Task, stale: Signed, next: Signed, t: Task)
    requires IsHistory(rows, was) && stale.fromState != Some(was.state)
    ensures !IsHistory(rows + [stale] + [next], t)
  {
    var after, n := rows + [stale] + [next], |rows|;
    assert after[n - 1] == rows[n - 1] && after[n] == stale;
  }

  /** Two writes from a record that has been overtaken go through, and leave a history that is none. */
  lemma StaleWritesLand(o: Office, book: Book, held: Task, first: Write, second: Write)
    requires Linked(o.hash, book.ledger) && held.taskId in book.tasks
    requires IsHistory(RowsOf(book.ledger, held.taskId), book.tasks[held.taskId])
    requires held.state == AwaitingApproval && book.tasks[held.taskId].state != AwaitingApproval
    requires first.to == WorkflowStates.Approved && second.to == Executing && second.humanApproved
    ensures var id := held.taskId;
      var approved := CommitState(o, book, held, first);
      var released := CommitState(o, approved.book, Rewritten(o, held, first), second);
      && approved.ok && released.ok
      && id in released.book.tasks && released.book.tasks[id].state == Executing
      && Linked(o.hash, released.book.ledger)
      && !IsHistory(RowsOf(released.book.ledger, id), released.book.tasks[id])
  {
    hide IsHistory, RowsOf, Linked, CommitState, Rewritten, RowFor, Target, IsReexamined;
    TokenMoves(o, held, first);
    CommitAddsRow(o, book, held, first);
    var r, approved := Rewritten(o, held, first), CommitState(o, book, held, first).book;
    TokenMoves(o, r, second);
    CommitAddsRow(o, approved, r, second);
    StaleRowBreaks(RowsOf(book.ledger, held.taskId), book.tasks[held.taskId],
                   RowFor(o, held, first).(prevHash := Head(book.ledger)),
                   RowFor(o, r, second).(prevHash := Head(approved.ledger)),
                   CommitState(o, approved, r, second).book.tasks[held.taskId]);
  }

  /**
    * Two managers hold a frozen task. One rejects it; the other's approval, made on the record it holds, goes
    * through. The ledger is one chain all the same, and tells of work that was cancelled and then executed.
    */
  lemma StaleApprovalRevives(o: Office, book: Book, id: string, rejecter: string, approver: string, note: string,
                             stamp: Stamp, stamps: (Stamp, Stamp))
    requires BookKept(o, book) && IsSane(o) && id in book.tasks
    requires MayApprove(o, book.tasks[id], approver) && !o.resolve(rejecter, None).Blank?
    ensures var writes := ApprovalWrites(approver, o.resolve(approver, None).id, note, stamps);
      var rejected := Reject(o, book, id, rejecter, note, stamp);
      var approved := CommitState(o, rejected.book, book.tasks[id], writes.0);
      var released := CommitState(o, approved.book, Rewritten(o, book.tasks[id], writes.0), writes.1);
      && rejected.ok && id in rejected.book.tasks && rejected.book.tasks[id].state == Cancelled
      && approved.ok && released.ok
      && id in released.book.tasks && released.book.tasks[id].state == Executing
      && Linked(o.hash, released.book.ledger)
      && !IsHistory(RowsOf(released.book.ledger, id), released.book.tasks[id])
  {
    hide BookKept, TaskKept, IsHistory, RowsOf, Linked, Reject, CommitState, IsSane, Rewritten, Said;
    Kept(o, book, id);
    RejectKeepsBook(o, book, id, rejecter, note, stamp);
    var rejected := Reject(o, book, id, rejecter, note, stamp).book;
    KeptIsTold(o, rejected, id);
    var writes := ApprovalWrites(approver, o.resolve(approver, None).id, note, stamps);
    StaleWritesLand(o, rejected, book.tasks[id], writes.0, writes.1);
  }

  lemma KeptIsTold(o: Office, book: Book, id: string)
    requires BookKept(o, book) && id in book.tasks
    ensures Linked(o.hash, book.ledger) && IsHistory(RowsOf(book.ledger, id), book.tasks[id])
  {
    Kept(o, book, id);
  }

  /** Such a task is reached by one submission, and then one person can do both. */
  lemma StaleApprovalIsReached(h: Hash, at: Stamp)
    ensures var o := OfficeOf(TWO_SEATS, h);
      var book := Reached(TWO_SEATS, h, [SubmitOp(WATCHED, None, "t", (at, at, at))]);
      && BookKept(o, book) && IsSane(o) && "t" in book.tasks
      && MayApprove(o, book.tasks["t"], "lead") && !o.resolve("lead", None).Blank?
  {
    hide Submit, ResolveActorRole, GetRole, BookKept, IsSane, EvaluateGate;
    var o, submit := OfficeOf(TWO_SEATS, h), SubmitOp(WATCHED, None, "t", (at, at, at));
    TwoSeatsResolve(h);
    OfficeIsSane(TWO_SEATS, h);
    ReachedIsKept(TWO_SEATS, h, [submit]);
    var p := ProposalFor(o, WATCHED, None);
    assert o.gate(p) == EvaluateGate(TWO_SEATS, p);
    WatchedIsHeld(h);
    ReachedIsKept(TWO_SEATS, h, []);
    SubmitKeepsBook(o, EMPTY_BOOK, WATCHED, None, "t", (at, at, at));
    assert [submit][1..] == [];
    assert Reached(TWO_SEATS, h, [submit]) == Run(o, Step(o, EMPTY_BOOK, submit).book, []);
  }

  lemma WatchedIsHeld(h: Hash)
    ensures var v := EvaluateGate(TWO_SEATS, ProposalFor(OfficeOf(TWO_SEATS, h), WATCHED, None));
      v.Decided? && v.decision.state == AwaitingApproval
  {
    TwoSeatsResolve(h);
    hide ResolveActorRole, GetRole;
  }
}
