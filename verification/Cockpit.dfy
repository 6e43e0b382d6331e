/** The cockpit's intervention state machine, as functions on its state. */
module Cockpit {
  import opened Wrappers
  import opened BacklogVelocity
  import opened Reals

  const POST_DECISION_COOLDOWN_TICKS := 2
  const EVENT_LOG_LIMIT := 500

  datatype Status = Pending | Approved | Rejected | Executed

  datatype Recommendation = Recommendation(
    id: string,
    timestamp: real,
    trigger: Trigger,
    currentSla: real,
    projectedSlaDrop: real,
    action: ProposedAction,
    saving: real,
    status: Status)

  datatype Actor = Engine | ControlLoop | Manager(id: string)

  datatype Event = Event(timestamp: real, id: string, from: Option<Status>, to: Status, actor: Actor)

  /** The recommendations, and every event ever logged; the log itself keeps only the last of these. */
  datatype Board = Board(rows: map<string, Recommendation>, history: seq<Event>)

  datatype State = State(
    windowSize: nat,
    window: seq<Sample>,
    board: Board,
    order: seq<string>,
    pendingId: Option<string>,
    cooldown: nat,
    clock: real)

  /** What a bounded deque holds after being fed the whole of s. */
  function Kept<T>(s: seq<T>, limit: nat): seq<T> {
    if |s| <= limit then s else s[|s| - limit..]
  }

  /** Appending to a bounded deque. */
  function Pushed<T>(deque: seq<T>, limit: nat, x: T): seq<T>
    requires limit > 0 && |deque| <= limit
  {
    if |deque| < limit then deque + [x] else deque[1..] + [x]
  }

  /** A bounded deque is at any time the end of everything it was ever given. */
  lemma PushedIsKept<T>(s: seq<T>, limit: nat, x: T)
    requires limit > 0
    ensures Pushed(Kept(s, limit), limit, x) == Kept(s + [x], limit)
  {
  }

  function Start(windowSize: nat): State {
    State(windowSize, [], Board(map[], []), [], None, 0, 0.0)
  }

  predicate AreRows(b: Board, ids: seq<string>) {
    forall i :: 0 <= i < |ids| ==> ids[i] in b.rows
  }

  // ---------------------------------------------------------------- one tick

  predicate IsReady(c: State) {
    c.windowSize >= 2 && |c.window| <= c.windowSize && AreRows(c.board, c.order)
  }

  function Observed(c: State, m: Sample): State
    requires c.windowSize >= 2 && |c.window| <= c.windowSize
  {
    c.(clock := m.timestamp, window := Pushed(c.window, c.windowSize, m))
  }

  /** Move a recommendation on, and log it. */
  function Moved(b: Board, at: real, id: string, to: Status, actor: Actor): Board
    requires id in b.rows
  {
    Board(b.rows[id := b.rows[id].(status := to)], b.history + [Event(at, id, Some(b.rows[id].status), to, actor)])
  }

  function DispatchedOne(b: Board, at: real, id: string): Board
    requires id in b.rows
  {
    if b.rows[id].status == Approved then Moved(b, at, id, Executed, ControlLoop) else b
  }

  /** The first n of the listed recommendations, in order, moved on if they were approved. */
  function Dispatched(b: Board, at: real, order: seq<string>, n: nat): (r: Board)
    requires n <= |order| && AreRows(b, order)
    ensures r.rows.Keys == b.rows.Keys
  {
    if n == 0 then b else DispatchedOne(Dispatched(b, at, order, n - 1), at, order[n - 1])
  }

  /** The ids among the first n that were moved on, in order. */
  function DispatchedIds(b: Board, at: real, order: seq<string>, n: nat): seq<string>
    requires n <= |order| && AreRows(b, order)
  {
    if n == 0 then []
    else
      DispatchedIds(b, at, order, n - 1) +
      if Dispatched(b, at, order, n - 1).rows[order[n - 1]].status == Approved then [order[n - 1]] else []
  }

  /** The state after every approved recommendation has been dispatched. */
  function AllDispatched(c: State): State
    requires AreRows(c.board, c.order)
  {
    c.(board := Dispatched(c.board, c.clock, c.order, |c.order|))
  }

  function Recommended(id: string, trigger: Trigger, m: Sample, p: Projection): (r: Recommendation)
    ensures r.id == id && r.status == Pending
  {
    Recommendation(id, m.timestamp, trigger, Round2(m.slaPercentage), Round2(p.drop),
                   SelectAction(Damage(m, p.drop), m), FinancialExposure(m, p.sla), Pending)
  }

  function Raised(c: State, r: Recommendation): State {
    c.(board := Board(c.board.rows[r.id := r], c.board.history + [Event(r.timestamp, r.id, None, Pending, Engine)]),
       order := c.order + [r.id], pendingId := Some(r.id))
  }

  predicate CanRaise(c: State) {
    c.pendingId.None? && c.cooldown == 0
  }

  /** The recommendation the window calls for, if its trigger fires. */
  function Called(w: seq<Sample>, m: Sample, id: string): Option<Recommendation> {
    var v := Velocity(w);
    match TriggerOf(m, v)
    case None => None
    case Some(trigger) => Some(Recommended(id, trigger, m, Project(w, v, m)))
  }

  function Cooled(c: State): State {
    if c.cooldown > 0 then c.(cooldown := c.cooldown - 1) else c
  }

  /** One accepted sample; id is the fresh id a recommendation would get. */
  function Ingest(c: State, m: Sample, id: string): State
    requires IsReady(c)
  {
    var d := AllDispatched(Observed(c, m));
    var r := Called(d.window, m, id);
    Cooled(if r.Some? && CanRaise(d) then Raised(d, r.value) else d)
  }

  // ---------------------------------------------------------------- one decision

  predicate CanDecide(c: State, id: string) {
    id in c.board.rows && c.board.rows[id].status == Pending
  }

  /** An unknown or already resolved id is an error, and changes nothing. */
  function Decide(c: State, id: string, approve: bool, manager: string): State {
    if !CanDecide(c, id) then c
    else
      c.(board := Moved(c.board, c.clock, id, if approve then Approved else Rejected, Manager(manager)),
         pendingId := None, cooldown := POST_DECISION_COOLDOWN_TICKS)
  }

  // ---------------------------------------------------------------- runs

  datatype Op = Tick(m: Sample, newId: string) | Decision(id: string, approve: bool, manager: string)

  /** Ids are drawn at random; a run never draws one it already holds. */
  predicate IsFresh(c: State, op: Op) {
    op.Tick? ==> op.newId !in c.board.rows
  }

  function Step(c: State, op: Op): State
    requires IsReady(c)
  {
    match op
    case Tick(m, id) => Ingest(c, m, id)
    case Decision(id, approve, manager) => Decide(c, id, approve, manager)
  }

  lemma StepStaysReady(c: State, op: Op)
    requires IsReady(c)
    ensures IsReady(Step(c, op))
  {
    hide Called;
  }

  function Run(c: State, ops: seq<Op>): (r: State)
    requires IsReady(c)
    ensures IsReady(r)
    decreases |ops|
  {
    if ops == [] then c
    else
      StepStaysReady(c, ops[0]);
      Run(Step(c, ops[0]), ops[1..])
  }

  ghost predicate AllFresh(c: State, ops: seq<Op>)
    requires IsReady(c)
    decreases |ops|
  {
    ops == [] ||
    (StepStaysReady(c, ops[0]);
     IsFresh(c, ops[0]) && AllFresh(Step(c, ops[0]), ops[1..]))
  }
}
