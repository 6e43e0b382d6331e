/** What every run of the cockpit keeps. */
module CockpitProofs {
  import opened Wrappers
  import opened BacklogVelocity
  import opened Reals
  import opened Cockpit

  /** What replaying the history says about one recommendation. */
  function StatusOf(history: seq<Event>, id: string): Option<Status> {
    if history == [] then None
    else
      var last := history[|history| - 1];
      if last.id == id then Some(last.to) else StatusOf(history[..|history| - 1], id)
  }

  /** Raised once, decided once, and executed only after approval. */
  predicate IsLegal(from: Option<Status>, to: Status) {
    match to
    case Pending => from == None
    case Approved => from == Some(Pending)
    case Rejected => from == Some(Pending)
    case Executed => from == Some(Approved)
  }

  /** Every event starts where replaying the events before it leaves off, and moves on legally. */
  predicate IsLegalHistory(history: seq<Event>) {
    history == [] ||
    var n := |history| - 1;
    && IsLegalHistory(history[..n])
    && history[n].from == StatusOf(history[..n], history[n].id)
    && IsLegal(history[n].from, history[n].to)
  }

  predicate IsLive(c: State, id: string) {
    id in c.board.rows && (c.board.rows[id].status == Pending || c.board.rows[id].status == Approved)
  }

  function StatusIn(b: Board, id: string): Option<Status> {
    if id in b.rows then Some(b.rows[id].status) else None
  }

  /** The history is legal, and replaying it gives every row's status; rows sit under their own ids. */
  ghost predicate IsTold(b: Board) {
    && IsLegalHistory(b.history)
    && (forall id: string :: StatusOf(b.history, id) == StatusIn(b, id))
    && (forall id :: id in b.rows ==> b.rows[id].id == id)
  }

  ghost predicate IsListed(c: State) {
    && (forall id :: id in c.board.rows ==> id in c.order)
    && (forall i, j :: 0 <= i < |c.order| && 0 <= j < |c.order| && c.order[i] == c.order[j] ==> i == j)
  }

  /** One intervention at a time, the pointer on it while it waits, and quiet after a decision. */
  ghost predicate IsDisciplined(c: State) {
    && (forall a, b :: IsLive(c, a) && IsLive(c, b) ==> a == b)
    && (forall id: string :: c.pendingId == Some(id) <==> CanDecide(c, id))
    && (c.pendingId.Some? ==> c.cooldown == 0)
    && (forall id :: IsLive(c, id) ==> CanDecide(c, id) || c.cooldown == POST_DECISION_COOLDOWN_TICKS)
    && c.cooldown <= POST_DECISION_COOLDOWN_TICKS
  }

  ghost predicate IsSound(c: State) {
    IsReady(c) && IsListed(c) && IsDisciplined(c) && IsTold(c.board)
  }

  // ---------------------------------------------------------------- building blocks

  lemma HistoryGrows(history: seq<Event>, e: Event)
    requires IsLegalHistory(history) && e.from == StatusOf(history, e.id) && IsLegal(e.from, e.to)
    ensures IsLegalHistory(history + [e])
    ensures forall id :: StatusOf(history + [e], id) == if id == e.id then Some(e.to) else StatusOf(history, id)
  {
    assert (history + [e])[..|history|] == history;
  }

  lemma MovedStaysTold(b: Board, at: real, id: string, to: Status, actor: Actor)
    requires IsTold(b) && id in b.rows && IsLegal(Some(b.rows[id].status), to)
    ensures IsTold(Moved(b, at, id, to, actor))
  {
    assert StatusIn(b, id) == Some(b.rows[id].status);
    HistoryGrows(b.history, Event(at, id, Some(b.rows[id].status), to, actor));
  }

  lemma {:induction false} DispatchedStaysTold(b: Board, at: real, order: seq<string>, n: nat)
    requires n <= |order| && AreRows(b, order) && IsTold(b)
    ensures IsTold(Dispatched(b, at, order, n))
  {
    hide IsTold;
    if n > 0 {
      DispatchedStaysTold(b, at, order, n - 1);
      var before := Dispatched(b, at, order, n - 1);
      if before.rows[order[n - 1]].status == Approved {
        MovedStaysTold(before, at, order[n - 1], Executed, ControlLoop);
      }
    }
  }

  /** What dispatching leaves of a recommendation. */
  function AfterDispatch(r: Recommendation): Recommendation {
    if r.status == Approved then r.(status := Executed) else r
  }

  lemma {:induction false} DispatchedTells(b: Board, at: real, order: seq<string>, n: nat, id: string)
    requires n <= |order| && AreRows(b, order) && id in b.rows
    ensures Dispatched(b, at, order, n).rows[id] == b.rows[id]
         || Dispatched(b, at, order, n).rows[id] == AfterDispatch(b.rows[id])
    ensures (forall k :: 0 <= k < n ==> order[k] != id) ==> Dispatched(b, at, order, n).rows[id] == b.rows[id]
    ensures forall k :: 0 <= k < n && order[k] == id ==> Dispatched(b, at, order, n).rows[id] == AfterDispatch(b.rows[id])
  {
    if n > 0 {
      DispatchedTells(b, at, order, n - 1, id);
    }
  }

  /** The ids reported as executed are those that were approved. */
  lemma {:induction false} DispatchedIdsAreApproved(b: Board, at: real, order: seq<string>, n: nat, id: string)
    requires n <= |order| && AreRows(b, order)
    ensures id in DispatchedIds(b, at, order, n) <==>
            exists k :: 0 <= k < n && order[k] == id && b.rows[id].status == Approved
  {
    if n > 0 {
      DispatchedIdsAreApproved(b, at, order, n - 1, id);
      if id == order[n - 1] {
        DispatchedTells(b, at, order, n - 1, id);
      }
    }
  }

  /** After the dispatch nothing is approved any more, and nothing else has moved. */
  lemma DispatchExecutesApproved(c: State, id: string)
    requires AreRows(c.board, c.order) && IsListed(c) && id in c.board.rows
    ensures AllDispatched(c).board.rows[id] == AfterDispatch(c.board.rows[id])
  {
    var k :| 0 <= k < |c.order| && c.order[k] == id;
    DispatchedTells(c.board, c.clock, c.order, |c.order|, id);
  }

  /** Sound but for the cooldown: nothing is approved, and only the pending one is live. */
  ghost predicate IsSettled(d: State) {
    && IsReady(d) && IsListed(d) && IsTold(d.board)
    && (forall id: string :: d.pendingId == Some(id) <==> CanDecide(d, id))
    && (forall id :: IsLive(d, id) ==> CanDecide(d, id))
    && (d.pendingId.Some? ==> d.cooldown == 0)
    && d.cooldown <= POST_DECISION_COOLDOWN_TICKS
  }

  lemma DispatchSettles(c: State, m: Sample)
    requires IsSound(c)
    ensures IsSettled(AllDispatched(Observed(c, m)))
  {
    hide IsTold;
    var o := Observed(c, m);
    var d := AllDispatched(o);
    DispatchedStaysTold(o.board, o.clock, o.order, |o.order|);
    forall id: string
      ensures d.pendingId == Some(id) <==> CanDecide(d, id)
      ensures IsLive(d, id) ==> CanDecide(d, id)
    {
      assert c.pendingId == Some(id) <==> CanDecide(c, id);
      if id in c.board.rows {
        DispatchExecutesApproved(o, id);
      }
    }
    hide Dispatched;
  }

  lemma SettledStaysSound(d: State)
    requires IsSettled(d)
    ensures IsSound(Cooled(d))
  {
    hide IsTold;
    var after := Cooled(d);
    forall id: string
      ensures after.pendingId == Some(id) <==> CanDecide(after, id)
      ensures IsLive(after, id) ==> after.pendingId == Some(id)
    {
      assert d.pendingId == Some(id) <==> CanDecide(d, id);
      assert IsLive(d, id) ==> CanDecide(d, id);
    }
  }

  lemma RaiseKeepsSound(d: State, r: Recommendation)
    requires IsSettled(d) && CanRaise(d)
    requires r.id !in d.board.rows && r.status == Pending
    ensures IsSound(Raised(d, r))
  {
    var after := Raised(d, r);
    assert IsTold(after.board) by {
      assert StatusIn(d.board, r.id) == None;
      HistoryGrows(d.board.history, Event(r.timestamp, r.id, None, Pending, Engine));
    }
    hide IsTold;
    assert r.id !in d.order;
    forall id: string
      ensures after.pendingId == Some(id) <==> CanDecide(after, id)
      ensures IsLive(after, id) ==> id == r.id
    {
      assert d.pendingId == Some(id) <==> CanDecide(d, id);
      assert IsLive(d, id) ==> CanDecide(d, id);
    }
  }

  lemma IngestKeepsSound(c: State, m: Sample, id: string)
    requires IsSound(c) && id !in c.board.rows
    ensures IsSound(Ingest(c, m, id))
  {
    hide Called;
    var d := AllDispatched(Observed(c, m));
    DispatchSettles(c, m);
    var r := Called(d.window, m, id);
    if r.Some? && CanRaise(d) {
      CalledIsPending(d.window, m, id);
      RaiseKeepsSound(d, r.value);
      hide IsSound, IsSettled;
    } else {
      SettledStaysSound(d);
      hide IsSound, IsSettled;
    }
  }

  lemma CalledIsPending(w: seq<Sample>, m: Sample, id: string)
    ensures Called(w, m, id).Some? ==> Called(w, m, id).value.id == id && Called(w, m, id).value.status == Pending
  {
    hide Velocity, Project;
  }

  lemma DecideKeepsSound(c: State, id: string, approve: bool, manager: string)
    requires IsSound(c)
    ensures IsSound(Decide(c, id, approve, manager))
  {
    if CanDecide(c, id) {
      var after := Decide(c, id, approve, manager);
      MovedStaysTold(c.board, c.clock, id, if approve then Approved else Rejected, Manager(manager));
      hide IsTold;
      forall other: string
        ensures !CanDecide(after, other)
        ensures IsLive(after, other) ==> other == id
      {
        assert c.pendingId == Some(other) <==> CanDecide(c, other);
        assert IsLive(c, id) && (IsLive(after, other) ==> IsLive(c, other));
      }
    }
  }

  // ---------------------------------------------------------------- every run

  lemma StepKeepsSound(c: State, op: Op)
    requires IsSound(c) && IsFresh(c, op)
    ensures IsSound(Step(c, op))
  {
    hide IsSound, Ingest, Decide;
    match op
    case Tick(m, id) => IngestKeepsSound(c, m, id);
    case Decision(id, approve, manager) => DecideKeepsSound(c, id, approve, manager);
  }

  lemma {:induction false} RunKeepsSound(c: State, ops: seq<Op>)
    requires IsSound(c) && AllFresh(c, ops)
    ensures IsSound(Run(c, ops))
    decreases |ops|
  {
    hide IsDisciplined, IsListed, IsTold, Ingest, Decide;
    if ops != [] {
      StepStaysReady(c, ops[0]);
      StepKeepsSound(c, ops[0]);
      RunKeepsSound(Step(c, ops[0]), ops[1..]);
    }
  }

  /** A state the running cockpit can be in. */
  ghost predicate IsReachable(c: State) {
    exists size: nat, ops: seq<Op> :: size >= 2 && IsReady(Start(size)) && AllFresh(Start(size), ops)
                                      && c == Run(Start(size), ops)
  }

  lemma ReachableIsSound(c: State)
    requires IsReachable(c)
    ensures IsSound(c)
  {
    var size: nat, ops: seq<Op> :| size >= 2 && IsReady(Start(size)) && AllFresh(Start(size), ops)
                                   && c == Run(Start(size), ops);
    RunKeepsSound(Start(size), ops);
  }

  /** At most one intervention is ever live, and the pointer is on it exactly while it waits. */
  lemma OneInterventionAtATime(c: State)
    requires IsReachable(c)
    ensures forall a, b :: IsLive(c, a) && IsLive(c, b) ==> a == b
    ensures forall id: string :: c.pendingId == Some(id) <==> CanDecide(c, id)
    ensures c.pendingId.Some? ==> c.cooldown == 0
  {
    ReachableIsSound(c);
  }

  /** Replaying the whole history gives every recommendation's status. */
  lemma ReplayTellsStatus(c: State)
    requires IsReachable(c)
    ensures forall id: string :: StatusOf(c.board.history, id) == StatusIn(c.board, id)
    ensures IsLegalHistory(c.board.history)
  {
    ReachableIsSound(c);
  }

  /** The statuses one recommendation has been through. */
  function PathOf(history: seq<Event>, id: string): seq<Status> {
    if history == [] then []
    else
      var last := history[|history| - 1];
      PathOf(history[..|history| - 1], id) + if last.id == id then [last.to] else []
  }

  lemma {:induction false} PathEndsAtStatus(history: seq<Event>, id: string)
    ensures var p := PathOf(history, id);
      StatusOf(history, id) == if p == [] then None else Some(p[|p| - 1])
  {
    if history != [] {
      PathEndsAtStatus(history[..|history| - 1], id);
    }
  }

  predicate IsLife(p: seq<Status>) {
    || p == []
    || p == [Pending]
    || p == [Pending, Rejected]
    || p == [Pending, Approved]
    || p == [Pending, Approved, Executed]
  }

  /** Every recommendation is raised, then decided, then executed if approved: no other life is possible. */
  lemma {:induction false} LivesAreLegal(history: seq<Event>, id: string)
    requires IsLegalHistory(history)
    ensures IsLife(PathOf(history, id))
  {
    if history != [] {
      var n := |history| - 1;
      LivesAreLegal(history[..n], id);
      PathEndsAtStatus(history[..n], id);
    }
  }

  // ---------------------------------------------------------------- quiet after a decision

  function Ticks(ops: seq<Op>): nat {
    if ops == [] then 0 else (if ops[0].Tick? then 1 else 0) + Ticks(ops[1..])
  }

  /** Nothing waits, and the cooldown has this much to run. */
  ghost predicate IsQuiet(c: State, cooldown: nat) {
    c.pendingId.None? && c.cooldown == cooldown && forall id: string :: !CanDecide(c, id)
  }

  lemma QuietTick(c: State, m: Sample, id: string)
    requires IsSound(c) && IsQuiet(c, c.cooldown) && c.cooldown > 0
    ensures Ingest(c, m, id).order == c.order
    ensures IsQuiet(Ingest(c, m, id), c.cooldown - 1)
  {
    hide Called, Dispatched, IsTold;
    DispatchSettles(c, m);
    var d := AllDispatched(Observed(c, m));
    forall other: string
      ensures !CanDecide(Ingest(c, m, id), other)
    {
      assert d.pendingId == Some(other) <==> CanDecide(d, other);
    }
  }

  lemma QuietStep(c: State, op: Op)
    requires IsSound(c) && IsFresh(c, op) && IsQuiet(c, c.cooldown)
    requires op.Tick? ==> c.cooldown > 0
    ensures Step(c, op).order == c.order
    ensures IsQuiet(Step(c, op), if op.Tick? then c.cooldown - 1 else c.cooldown)
  {
    hide Ingest, IsTold, IsListed, IsDisciplined;
    if op.Tick? {
      QuietTick(c, op.m, op.newId);
    }
  }

  /** A decision silences the next two ticks, whatever else is asked in between, and no more than those. */
  lemma {:induction false} QuietWhileCooling(c: State, ops: seq<Op>)
    requires IsSound(c) && AllFresh(c, ops) && IsQuiet(c, c.cooldown) && Ticks(ops) <= c.cooldown
    ensures Run(c, ops).order == c.order
    ensures IsQuiet(Run(c, ops), c.cooldown - Ticks(ops))
    decreases |ops|
  {
    hide IsDisciplined, IsListed, IsTold, Ingest, Decide;
    if ops != [] {
      StepStaysReady(c, ops[0]);
      QuietStep(c, ops[0]);
      StepKeepsSound(c, ops[0]);
      QuietWhileCooling(Step(c, ops[0]), ops[1..]);
    }
  }

  lemma DecisionIsQuiet(c: State, id: string, approve: bool, manager: string)
    requires IsSound(c) && CanDecide(c, id)
    ensures Decide(c, id, approve, manager).order == c.order
    ensures Decide(c, id, approve, manager).cooldown == POST_DECISION_COOLDOWN_TICKS
    ensures IsQuiet(Decide(c, id, approve, manager), POST_DECISION_COOLDOWN_TICKS)
  {
    hide IsListed, IsTold;
    forall other: string
      ensures !CanDecide(Decide(c, id, approve, manager), other)
    {
      assert c.pendingId == Some(other) <==> CanDecide(c, other);
      assert c.pendingId == Some(id) <==> CanDecide(c, id);
    }
  }

  /** At least two ticks without a raise follow a decision; after exactly two, the next trigger raises. */
  lemma DecisionBuysTwoTicks(c: State, id: string, approve: bool, manager: string, ops: seq<Op>)
    requires IsReachable(c) && CanDecide(c, id)
    requires IsReady(Decide(c, id, approve, manager)) && AllFresh(Decide(c, id, approve, manager), ops)
    requires Ticks(ops) <= 2
    ensures var after := Run(Decide(c, id, approve, manager), ops);
      && after.order == c.order
      && (Ticks(ops) == 2 ==> CanRaise(after))
  {
    hide IsDisciplined, IsListed, IsTold, IsReachable, Decide, Run, AllFresh;
    ReachableIsSound(c);
    DecideKeepsSound(c, id, approve, manager);
    DecisionIsQuiet(c, id, approve, manager);
    QuietWhileCooling(Decide(c, id, approve, manager), ops);
  }

  /** A tick raises exactly when its window's trigger fires, nothing waits and the cooldown is over. */
  lemma RaisesExactly(c: State, m: Sample, id: string)
    requires IsReachable(c) && id !in c.board.rows
    ensures var after := Ingest(c, m, id);
      var perTick := Velocity(Kept(c.window + [m], c.windowSize)).perTick;
      && after.clock == m.timestamp && after.window == Kept(c.window + [m], c.windowSize)
      && (after.order != c.order <==>
            (m.slaPercentage < 50.0 || perTick > 15.0) && c.pendingId.None? && c.cooldown == 0)
      && (after.order != c.order ==>
            && after.order == c.order + [id] && after.pendingId == Some(id) && id in after.board.rows
            && var r := after.board.rows[id];
            && r.id == id && r.timestamp == m.timestamp && r.status == Pending
            && (r.trigger.slaBreach <==> m.slaPercentage < 50.0) && (r.trigger.backlogRace <==> perTick > 15.0))
  {
    ReachableIsSound(c);
    PushedIsKept(c.window, c.windowSize, m);
    assert Kept(c.window, c.windowSize) == c.window;
    hide IsSound, Velocity, Project, Dispatched, Kept, Pushed;
  }

  /** What was approved is executed on the very next tick, and a tick moves no other recommendation. */
  lemma ApprovedIsExecutedNextTick(c: State, m: Sample, newId: string, id: string)
    requires IsReachable(c) && newId !in c.board.rows && id in c.board.rows
    ensures id in Ingest(c, m, newId).board.rows
    ensures Ingest(c, m, newId).board.rows[id] == AfterDispatch(c.board.rows[id])
  {
    ReachableIsSound(c);
    hide IsTold, IsDisciplined, Called, Dispatched;
    DispatchExecutesApproved(Observed(c, m), id);
  }

  /** What is raised carries the figures of its own window and sample. */
  lemma RaisedFiguresAreTheWindows(c: State, m: Sample, id: string)
    requires IsReachable(c) && id !in c.board.rows && Ingest(c, m, id).order != c.order
    ensures var w, r := Kept(c.window + [m], c.windowSize), Ingest(c, m, id).board.rows;
      && id in r
      && var p := Project(w, Velocity(w), m);
      && r[id].currentSla == Round2(m.slaPercentage) && r[id].projectedSlaDrop == Round2(p.drop)
      && r[id].action == SelectAction(Damage(m, p.drop), m) && r[id].saving == FinancialExposure(m, p.sla)
  {
    ReachableIsSound(c);
    PushedIsKept(c.window, c.windowSize, m);
    assert Kept(c.window, c.windowSize) == c.window;
    hide IsSound, Velocity, Project, Dispatched, Kept, Pushed, TriggerOf, FinancialExposure, SelectAction, Damage, Round2;
  }

  // ---------------------------------------------------------------- what a decision decides

  /** A pending recommendation becomes what was decided, on the manager's word, and nothing else moves. */
  lemma DecisionIsRecorded(c: State, id: string, approve: bool, manager: string)
    requires CanDecide(c, id)
    ensures var after := Decide(c, id, approve, manager);
      && after.board.rows.Keys == c.board.rows.Keys
      && after.board.rows[id] == c.board.rows[id].(status := if approve then Approved else Rejected)
      && (forall other :: other in c.board.rows && other != id ==> after.board.rows[other] == c.board.rows[other])
      && after.board.history == c.board.history + [Event(c.clock, id, Some(Pending), after.board.rows[id].status,
                                                         Manager(manager))]
      && after.pendingId.None? && after.cooldown == 2
  {
  }

  predicate HasTick(ops: seq<Op>) {
    exists i :: 0 <= i < |ops| && ops[i].Tick?
  }

  /** A decision on the recommendation, made while it was pending. */
  predicate Decides(c: State, op: Op, id: string, approve: bool) {
    op.Decision? && op.id == id && op.approve == approve && CanDecide(c, id)
  }

  /** Somewhere in the run the recommendation was so decided. */
  predicate WasDecided(c: State, ops: seq<Op>, id: string, approve: bool)
    requires IsReady(c)
    decreases |ops|
  {
    ops != [] &&
    (StepStaysReady(c, ops[0]);
     Decides(c, ops[0], id, approve) || WasDecided(Step(c, ops[0]), ops[1..], id, approve))
  }

  /** And approved, with a tick somewhere after that. */
  predicate WasReleased(c: State, ops: seq<Op>, id: string)
    requires IsReady(c)
    decreases |ops|
  {
    ops != [] &&
    (StepStaysReady(c, ops[0]);
     (Decides(c, ops[0], id, true) && HasTick(ops[1..])) || WasReleased(Step(c, ops[0]), ops[1..], id))
  }

  lemma TickMovesExactly(c: State, m: Sample, newId: string, id: string)
    requires IsSound(c) && newId !in c.board.rows
    ensures var was, s := StatusIn(c.board, id), StatusIn(Ingest(c, m, newId).board, id);
      && (was.Some? ==> s == if was == Some(Approved) then Some(Executed) else was)
      && (was.None? ==> s == None || s == Some(Pending))
  {
    hide IsTold, IsDisciplined, Called, Dispatched;
    CalledIsPending(AllDispatched(Observed(c, m)).window, m, newId);
    if id in c.board.rows {
      DispatchExecutesApproved(Observed(c, m), id);
    }
  }

  lemma StepMovesExactly(c: State, op: Op, id: string)
    requires IsSound(c) && IsFresh(c, op)
    ensures var was, s := StatusIn(c.board, id), StatusIn(Step(c, op).board, id);
      && (s == Some(Rejected) <==> was == Some(Rejected) || Decides(c, op, id, false))
      && (s == Some(Approved) <==> (was == Some(Approved) && !op.Tick?) || Decides(c, op, id, true))
      && (s == Some(Executed) <==> was == Some(Executed) || (was == Some(Approved) && op.Tick?))
  {
    hide IsSound, Ingest;
    match op
    case Tick(m, newId) => TickMovesExactly(c, m, newId, id);
    case Decision(on, approve, manager) =>
  }

  lemma HasTickFrom(ops: seq<Op>)
    requires ops != []
    ensures HasTick(ops) <==> ops[0].Tick? || HasTick(ops[1..])
  {
    if HasTick(ops) && !ops[0].Tick? {
      var i :| 0 <= i < |ops| && ops[i].Tick?;
      assert ops[1..][i - 1].Tick?;
    }
    if HasTick(ops[1..]) {
      var i :| 0 <= i < |ops| - 1 && ops[1..][i].Tick?;
      assert ops[i + 1].Tick?;
    }
  }

  lemma {:induction false} RunMovesExactly(c: State, ops: seq<Op>, id: string)
    requires IsSound(c) && AllFresh(c, ops)
    ensures var was, s := StatusIn(c.board, id), StatusIn(Run(c, ops).board, id);
      && (s == Some(Rejected) <==> was == Some(Rejected) || WasDecided(c, ops, id, false))
      && (s == Some(Executed) <==> was == Some(Executed) || (was == Some(Approved) && HasTick(ops)) || WasReleased(c, ops, id))
      && (s == Some(Approved) || s == Some(Executed) <==>
            was == Some(Approved) || was == Some(Executed) || WasDecided(c, ops, id, true))
    decreases |ops|
  {
    hide IsDisciplined, IsListed, IsTold, Step, Decides, StatusIn, HasTick;
    if ops != [] {
      StepStaysReady(c, ops[0]);
      StepMovesExactly(c, ops[0], id);
      StepKeepsSound(c, ops[0]);
      HasTickFrom(ops);
      RunMovesExactly(Step(c, ops[0]), ops[1..], id);
    } else {
      NoTick();
    }
  }

  lemma NoTick()
    ensures !HasTick([])
  {
  }

  /**
    * From the start: a recommendation is executed if and only if it was approved while pending and a tick came
    * after; it is rejected if and only if it was rejected while pending.
    */
  lemma DecisionsDecideExactly(size: nat, ops: seq<Op>, id: string)
    requires size >= 2 && AllFresh(Start(size), ops)
    ensures var c := Run(Start(size), ops);
      && (StatusIn(c.board, id) == Some(Executed) <==> WasReleased(Start(size), ops, id))
      && (StatusIn(c.board, id) == Some(Rejected) <==> WasDecided(Start(size), ops, id, false))
      && (StatusIn(c.board, id) == Some(Approved) <==>
            WasDecided(Start(size), ops, id, true) && !WasReleased(Start(size), ops, id))
  {
    RunMovesExactly(Start(size), ops, id);
  }

  /** What is approved is executed by the very next tick. */
  lemma ApprovalIsExecutedNextTick(c: State, id: string, manager: string, m: Sample, newId: string)
    requires IsReachable(c) && CanDecide(c, id) && newId !in c.board.rows
    ensures var decided := Decide(c, id, true, manager);
      IsReady(decided) && StatusIn(Ingest(decided, m, newId).board, id) == Some(Executed)
  {
    hide Ingest, IsReachable;
    ReachableIsSound(c);
    DecideKeepsSound(c, id, true, manager);
    TickMovesExactly(Decide(c, id, true, manager), m, newId, id);
    hide IsListed, IsDisciplined, IsTold;
  }

  /** Whatever is raised carries figures the recommendation schema accepts. */
  lemma RecommendationIsAlwaysValid(w: seq<Sample>, m: Sample, id: string)
    requires Called(w, m, id).Some?
    ensures var r := Called(w, m, id).value;
      0.0 <= r.currentSla <= 100.0 && 0.0 <= r.projectedSlaDrop <= 100.0 && r.saving >= 0.0
  {
    var v := Velocity(w);
    var p := Project(w, v, m);
    ProjectionIsSound(w, v, m);
    ExposureIsNotNegative(m, p.sla);
    Round2KeepsRange(m.slaPercentage, 100);
    Round2KeepsRange(p.drop, 100);
    hide Velocity, Project, Round2, FinancialExposure;
  }
}
