/** The cockpit's fan-out hub: a bounded outbox, one writer, subscribers that come and go. */
module Outbox {
  import opened Wrappers

  type Socket = nat

  /** A frame for one subscriber, or for all of them. */
  datatype Frame = Frame(target: Option<Socket>, payload: string)

  /** The writer between two of its awaits: the envelope number it is sending, and to whom it still must. */
  datatype Writer = Idle | Sending(seqNo: nat, remaining: seq<Socket>)

  /**
    * The hub, with the frames it was ever given and what became of those that left the queue: taken[i] says
    * whether the i-th was drained or shed.
    */
  datatype Hub = Hub(
    limit: nat,
    queue: seq<Frame>,
    dropped: nat,
    sequence: nat,
    connections: set<Socket>,
    writer: Writer,
    received: map<Socket, seq<nat>>,
    enqueued: seq<Frame>,
    taken: seq<bool>,
    drained: seq<Frame>,
    refused: nat)

  datatype Action =
    | Enqueue(frame: Frame, hasLoop: bool)
    // The writer wakes up; snapshot lists the subscribers it sees.
    | Take(snapshot: seq<Socket>)
    // One send: whether the peer saw it, and whether the writer heard so in time.
    | Transmit(seen: bool, ok: bool)
    | Connect(socket: Socket)
    | Disconnect(socket: Socket)

  function Start(limit: nat): Hub {
    Hub(limit, [], 0, 0, {}, Idle, map[], [], [], [], 0)
  }

  function Seen(h: Hub, s: Socket): seq<nat> {
    if s in h.received then h.received[s] else []
  }

  predicate AreDistinct(s: seq<Socket>) {
    forall i, j :: 0 <= i < |s| && 0 <= j < |s| && s[i] == s[j] ==> i == j
  }

  predicate IsSnapshot(connections: set<Socket>, s: seq<Socket>) {
    AreDistinct(s) && (forall i :: 0 <= i < |s| ==> s[i] in connections)
                   && (forall c :: c in connections ==> c in s)
  }

  function Targets(f: Frame, snapshot: seq<Socket>): seq<Socket> {
    if f.target.Some? then [f.target.value] else snapshot
  }

  function WriterFor(seqNo: nat, remaining: seq<Socket>): Writer {
    if remaining == [] then Idle else Sending(seqNo, remaining)
  }

  predicate IsEnabled(h: Hub, a: Action) {
    match a
    case Take(snapshot) => h.writer.Idle? && h.queue != [] && IsSnapshot(h.connections, snapshot)
    case Transmit(seen, ok) => h.writer.Sending? && h.writer.remaining != [] && (ok ==> seen)
    case _ => true
  }

  /** Shedding the oldest frame when the outbox is full. */
  function Enqueued(h: Hub, f: Frame): Hub
    requires h.limit >= 1
  {
    if |h.queue| < h.limit then h.(queue := h.queue + [f], enqueued := h.enqueued + [f])
    else h.(queue := (h.queue + [f])[1..], enqueued := h.enqueued + [f], taken := h.taken + [false],
            dropped := h.dropped + 1)
  }

  function Step(h: Hub, a: Action): (r: Hub)
    requires h.limit >= 1 && IsEnabled(h, a)
    ensures r.limit == h.limit
  {
    match a
    case Enqueue(f, true) => Enqueued(h, f)
    case Enqueue(_, false) => h.(dropped := h.dropped + 1, refused := h.refused + 1)
    case Take(snapshot) =>
      h.(queue := h.queue[1..], sequence := h.sequence + 1, drained := h.drained + [h.queue[0]],
         taken := h.taken + [true], writer := WriterFor(h.sequence + 1, Targets(h.queue[0], snapshot)))
    case Transmit(seen, ok) =>
      var n, s := h.writer.seqNo, h.writer.remaining[0];
      h.(received := if seen then h.received[s := Seen(h, s) + [n]] else h.received,
         connections := if ok then h.connections else h.connections - {s},
         writer := WriterFor(n, h.writer.remaining[1..]))
    case Connect(s) => h.(connections := h.connections + {s})
    case Disconnect(s) => h.(connections := h.connections - {s})
  }

  predicate AreEnabled(h: Hub, actions: seq<Action>)
    requires h.limit >= 1
    decreases |actions|
  {
    actions == [] || (IsEnabled(h, actions[0]) && AreEnabled(Step(h, actions[0]), actions[1..]))
  }

  /** Any interleaving of routes, subscribers and the writer. */
  function Run(h: Hub, actions: seq<Action>): (r: Hub)
    requires h.limit >= 1 && AreEnabled(h, actions)
    ensures r.limit == h.limit
    decreases |actions|
  {
    if actions == [] then h else Run(Step(h, actions[0]), actions[1..])
  }

  // ---------------------------------------------------------------- no frame is lost unaccounted for

  /** The frames that were drained rather than shed. */
  function Chosen(frames: seq<Frame>, taken: seq<bool>): seq<Frame>
    requires |frames| == |taken|
  {
    if frames == [] then []
    else
      var n := |frames| - 1;
      Chosen(frames[..n], taken[..n]) + if taken[n] then [frames[n]] else []
  }

  function Shed(taken: seq<bool>): nat {
    if taken == [] then 0 else Shed(taken[..|taken| - 1]) + if taken[|taken| - 1] then 0 else 1
  }

  /** The queue is the newest end of what was enqueued; of the rest, the drained went out in order. */
  ghost predicate IsAccounted(h: Hub) {
    && h.limit >= 1
    && |h.queue| <= h.limit
    && |h.taken| + |h.queue| == |h.enqueued|
    && h.queue == h.enqueued[|h.taken|..]
    && h.drained == Chosen(h.enqueued[..|h.taken|], h.taken)
    && |h.drained| + Shed(h.taken) == |h.taken|
    && h.dropped == Shed(h.taken) + h.refused
    && h.sequence == |h.drained|
  }

  /** One more frame leaves the queue at the old end. */
  lemma TakenGrows(frames: seq<Frame>, taken: seq<bool>, b: bool)
    requires |taken| < |frames|
    ensures Shed(taken + [b]) == Shed(taken) + if b then 0 else 1
    ensures Chosen(frames[..|taken| + 1], taken + [b]) ==
            Chosen(frames[..|taken|], taken) + if b then [frames[|taken|]] else []
  {
    var n, more := |taken|, taken + [b];
    var some := frames[..n + 1];
    assert |some| == |more| == n + 1;
    assert more[..n] == taken && more[n] == b;
    assert some[..n] == frames[..n] && some[n] == frames[n];
    assert Chosen(some, more) == Chosen(some[..n], more[..n]) + if more[n] then [some[n]] else [];
  }

  lemma EnqueueKeepsAccount(h: Hub, f: Frame)
    requires IsAccounted(h)
    ensures IsAccounted(Enqueued(h, f))
  {
    var all, n := h.enqueued + [f], |h.taken|;
    assert all[n..] == h.queue + [f] && all[..n] == h.enqueued[..n];
    if |h.queue| == h.limit {
      TakenGrows(all, h.taken, false);
      assert all[n + 1..] == all[n..][1..];
    }
  }

  lemma StepKeepsAccount(h: Hub, a: Action)
    requires IsAccounted(h) && IsEnabled(h, a)
    ensures IsAccounted(Step(h, a))
  {
    if a.Enqueue? && a.hasLoop {
      EnqueueKeepsAccount(h, a.frame);
    } else if a.Take? {
      TakenGrows(h.enqueued, h.taken, true);
      assert h.enqueued[|h.taken| + 1..] == h.queue[1..];
    }
  }

  /** The outbox stays bounded, and every frame is drained in turn, queued, or counted as dropped. */
  lemma {:induction false} FramesAreConserved(h: Hub, actions: seq<Action>)
    requires IsAccounted(h) && AreEnabled(h, actions)
    ensures IsAccounted(Run(h, actions))
    decreases |actions|
  {
    if actions != [] {
      StepKeepsAccount(h, actions[0]);
      hide Step;
      FramesAreConserved(Step(h, actions[0]), actions[1..]);
    }
  }

  lemma OutboxNeverLies(limit: nat, actions: seq<Action>)
    requires limit >= 1 && AreEnabled(Start(limit), actions)
    ensures var h := Run(Start(limit), actions);
      && |h.queue| <= limit
      && |h.taken| + |h.queue| == |h.enqueued|
      && |h.enqueued| == |h.drained| + |h.queue| + Shed(h.taken)
      && h.drained + h.queue == Chosen(h.enqueued, h.taken + seq(|h.queue|, i => true))
      && h.dropped == Shed(h.taken) + h.refused
  {
    FramesAreConserved(Start(limit), actions);
    hide Run, AreEnabled;
    var h := Run(Start(limit), actions);
    QueuedAreChosen(h.enqueued, h.taken, h.queue);
  }

  lemma {:induction false} QueuedAreChosen(frames: seq<Frame>, taken: seq<bool>, queue: seq<Frame>)
    requires |taken| + |queue| == |frames| && queue == frames[|taken|..]
    ensures Chosen(frames, taken + seq(|queue|, i => true)) == Chosen(frames[..|taken|], taken) + queue
    decreases |queue|
  {
    var all := taken + seq(|queue|, i => true);
    if queue == [] {
      assert all == taken && frames[..|taken|] == frames;
    } else {
      var n := |frames| - 1;
      QueuedAreChosen(frames[..n], taken, queue[..|queue| - 1]);
      assert all[..n] == taken + seq(|queue| - 1, i => true);
      assert frames[..n][..|taken|] == frames[..|taken|];
      assert queue == queue[..|queue| - 1] + [frames[n]];
    }
  }

  // ---------------------------------------------------------------- what subscribers see

  predicate IsIncreasing(s: seq<nat>) {
    forall i, j :: 0 <= i < |s| && 0 <= j < |s| && i < j ==> s[i] < s[j]
  }

  /** Nobody has seen a number above the last one given out, and nobody still to be served has seen that one. */
  ghost predicate IsOrdered(h: Hub) {
    && (forall s :: s in h.received ==> IsIncreasing(h.received[s]))
    && (forall s, i :: s in h.received && 0 <= i < |h.received[s]| ==> h.received[s][i] <= h.sequence)
    && (h.writer.Sending? ==>
          && h.writer.seqNo == h.sequence
          && AreDistinct(h.writer.remaining)
          && forall s, i :: s in h.writer.remaining && s in h.received && 0 <= i < |h.received[s]| ==>
               h.received[s][i] < h.sequence)
  }

  lemma TransmitKeepsOrder(h: Hub, seen: bool, ok: bool)
    requires IsOrdered(h) && h.limit >= 1 && IsEnabled(h, Transmit(seen, ok))
    ensures IsOrdered(Step(h, Transmit(seen, ok)))
  {
    var after := Step(h, Transmit(seen, ok));
    var rest := h.writer.remaining[1..];
    assert h.writer.remaining[0] !in rest;
    assert forall s :: s in rest ==> s in h.writer.remaining;
    assert h.writer.remaining[0] in h.writer.remaining;
  }

  lemma StepKeepsOrder(h: Hub, a: Action)
    requires IsOrdered(h) && h.limit >= 1 && IsEnabled(h, a)
    ensures IsOrdered(Step(h, a))
  {
    if a.Transmit? {
      TransmitKeepsOrder(h, a.seen, a.ok);
    }
  }

  lemma {:induction false} RunKeepsOrder(h: Hub, actions: seq<Action>)
    requires IsOrdered(h) && h.limit >= 1 && AreEnabled(h, actions)
    ensures IsOrdered(Run(h, actions))
    decreases |actions|
  {
    hide IsOrdered;
    if actions != [] {
      StepKeepsOrder(h, actions[0]);
      RunKeepsOrder(Step(h, actions[0]), actions[1..]);
    }
  }

  /** Under any interleaving, every subscriber sees strictly increasing numbers, all of them given to drained frames. */
  lemma SubscribersSeeIncreasingNumbers(limit: nat, actions: seq<Action>, s: Socket)
    requires limit >= 1 && AreEnabled(Start(limit), actions)
    ensures var h := Run(Start(limit), actions);
      && IsIncreasing(Seen(h, s))
      && forall i :: 0 <= i < |Seen(h, s)| ==> Seen(h, s)[i] <= |h.drained|
  {
    RunKeepsOrder(Start(limit), actions);
    FramesAreConserved(Start(limit), actions);
    hide Run, AreEnabled;
  }

  // ---------------------------------------------------------------- who is sent what

  /** For each send among the actions, whether the peer saw it. */
  function Heard(actions: seq<Action>): seq<bool>
    decreases |actions|
  {
    if actions == [] then []
    else (if actions[0].Transmit? then [actions[0].seen] else []) + Heard(actions[1..])
  }

  /** The i-th of the peers still to be served is s, and saw its frame. */
  predicate WasHeard(peers: seq<Socket>, heard: seq<bool>, s: Socket) {
    exists i :: 0 <= i < |peers| && i < |heard| && peers[i] == s && heard[i]
  }

  lemma HeardFrom(peers: seq<Socket>, heard: seq<bool>, s: Socket)
    requires peers != [] && heard != [] && AreDistinct(peers)
    ensures WasHeard(peers, heard, s) <==> (peers[0] == s && heard[0]) || WasHeard(peers[1..], heard[1..], s)
    ensures peers[0] == s ==> !WasHeard(peers[1..], heard[1..], s)
  {
    if WasHeard(peers, heard, s) && !(peers[0] == s && heard[0]) {
      var i :| 0 <= i < |peers| && i < |heard| && peers[i] == s && heard[i];
      assert peers[1..][i - 1] == s && heard[1..][i - 1];
    }
    if WasHeard(peers[1..], heard[1..], s) {
      var i :| 0 <= i < |peers| - 1 && i < |heard| - 1 && peers[1..][i] == s && heard[1..][i];
      assert peers[i + 1] == s && heard[i + 1];
    }
  }

  predicate TakesNothing(actions: seq<Action>) {
    forall i :: 0 <= i < |actions| ==> !actions[i].Take?
  }

  /** What one action does to the fan-out under way. */
  lemma ActionDelivers(h: Hub, n: nat, peers: seq<Socket>, a: Action, s: Socket)
    requires h.limit >= 1 && IsEnabled(h, a) && !a.Take? && h.writer == WriterFor(n, peers)
    ensures a.Transmit? ==> peers != []
    ensures var next := Step(h, a);
      && next.writer == WriterFor(n, if a.Transmit? then peers[1..] else peers)
      && Seen(next, s) == Seen(h, s) + if a.Transmit? && peers[0] == s && a.seen then [n] else []
  {
  }

  /** While one frame is being sent, each peer in turn is sent it once, whatever is queued and whoever comes and goes. */
  lemma {:induction false} FanOutDelivers(h: Hub, n: nat, peers: seq<Socket>, actions: seq<Action>, s: Socket)
    requires h.limit >= 1 && AreEnabled(h, actions) && TakesNothing(actions)
    requires h.writer == WriterFor(n, peers) && AreDistinct(peers)
    ensures |Heard(actions)| <= |peers|
    ensures var after := Run(h, actions);
      && after.writer == WriterFor(n, peers[|Heard(actions)|..])
      && Seen(after, s) == Seen(h, s) + if WasHeard(peers, Heard(actions), s) then [n] else []
    decreases |actions|
  {
    hide Step, Seen, WriterFor, WasHeard, TakesNothing, IsEnabled;
    if actions != [] {
      var next := Step(h, actions[0]);
      TakesNothingFrom(actions);
      ActionDelivers(h, n, peers, actions[0], s);
      if actions[0].Transmit? {
        FanOutDelivers(next, n, peers[1..], actions[1..], s);
        HeardFrom(peers, Heard(actions), s);
        assert Heard(actions)[1..] == Heard(actions[1..]);
        assert peers[1..][|Heard(actions[1..])|..] == peers[|Heard(actions)|..];
      } else {
        assert Heard(actions) == Heard(actions[1..]);
        FanOutDelivers(next, n, peers, actions[1..], s);
      }
    } else {
      NobodyIsHeard(peers, s);
    }
  }

  lemma TakesNothingFrom(actions: seq<Action>)
    requires TakesNothing(actions) && actions != []
    ensures !actions[0].Take? && TakesNothing(actions[1..])
  {
    assert forall i :: 0 <= i < |actions| - 1 ==> actions[1..][i] == actions[i + 1];
  }

  lemma NobodyIsHeard(peers: seq<Socket>, s: Socket)
    ensures !WasHeard(peers, [], s)
  {
  }

  /** A frame for all, drained and sent to the end: every subscriber listed gets its number once, and nobody else. */
  lemma BroadcastReachesEverybody(h: Hub, snapshot: seq<Socket>, actions: seq<Action>, s: Socket)
    requires h.limit >= 1 && IsEnabled(h, Take(snapshot)) && h.queue[0].target.None?
    requires AreEnabled(Step(h, Take(snapshot)), actions) && TakesNothing(actions) && |Heard(actions)| == |snapshot|
    ensures var after := Run(Step(h, Take(snapshot)), actions);
      && after.writer == Idle
      && (s !in h.connections ==> Seen(after, s) == Seen(h, s))
      && ((forall i :: 0 <= i < |Heard(actions)| ==> Heard(actions)[i]) && s in h.connections ==>
            Seen(after, s) == Seen(h, s) + [h.sequence + 1])
  {
    FanOutDelivers(Step(h, Take(snapshot)), h.sequence + 1, snapshot, actions, s);
    if s in h.connections {
      var i :| 0 <= i < |snapshot| && snapshot[i] == s;
      hide AreEnabled, Run;
    }
  }

  /** An addressed frame gets to its own subscriber, whether or not it is still listed, and to nobody else. */
  lemma AddressedFrameReachesItsOwn(h: Hub, snapshot: seq<Socket>, actions: seq<Action>, s: Socket)
    requires h.limit >= 1 && IsEnabled(h, Take(snapshot)) && h.queue[0].target.Some?
    requires AreEnabled(Step(h, Take(snapshot)), actions) && TakesNothing(actions) && Heard(actions) == [true]
    ensures var after := Run(Step(h, Take(snapshot)), actions);
      && after.writer == Idle
      && Seen(after, s) == Seen(h, s) + if h.queue[0].target == Some(s) then [h.sequence + 1] else []
  {
    var peers := [h.queue[0].target.value];
    FanOutDelivers(Step(h, Take(snapshot)), h.sequence + 1, peers, actions, s);
    assert peers[0] == s ==> WasHeard(peers, [true], s);
    hide AreEnabled, Run;
  }

  /** A frame nobody can be sent, for instance one that does not serialise, empties the pool and counts as nothing. */
  lemma {:induction false} UnsendableFrameEmptiesThePool(h: Hub, snapshot: seq<Socket>)
    requires h.limit >= 1 && h.writer == WriterFor(h.sequence, snapshot) && AreDistinct(snapshot)
    requires forall c :: c in h.connections ==> c in snapshot
    ensures var failures := seq(|snapshot|, i => Transmit(false, false));
      && AreEnabled(h, failures)
      && Run(h, failures).connections == {}
      && Run(h, failures).dropped == h.dropped
      && Run(h, failures).writer == Idle
    decreases |snapshot|
  {
    var failures := seq(|snapshot|, i => Transmit(false, false));
    if snapshot != [] {
      var next := Step(h, failures[0]);
      assert failures[1..] == seq(|snapshot| - 1, i => Transmit(false, false));
      UnsendableFrameEmptiesThePool(next, snapshot[1..]);
    }
  }
}

/** The hub as the object that changes in place, one writer step at a time. */
module OutboxManager {
  import opened Wrappers
  import opened Outbox

  class ConnectionManager {
    const outboxLimit: nat
    var outbox: seq<Frame>
    var dropped: nat
    var sequence: nat
    var connections: set<Socket>
    ghost var received: map<Socket, seq<nat>>
    ghost var enqueued: seq<Frame>
    ghost var taken: seq<bool>
    ghost var drained: seq<Frame>
    ghost var refused: nat

    constructor (limit: nat)
      requires limit >= 1
      ensures Value() == Start(limit)
    {
      outboxLimit := limit;
      outbox, dropped, sequence, connections := [], 0, 0, {};
      received, enqueued, taken, drained, refused := map[], [], [], [], 0;
    }

    /** The hub while its writer is waiting for a frame. */
    ghost function Value(): Hub
      reads this
    {
      ValueWhile(Idle)
    }

    ghost function ValueWhile(writer: Writer): Hub
      reads this
    {
      Hub(outboxLimit, outbox, dropped, sequence, connections, writer, received, enqueued, taken, drained, refused)
    }

    method AddConnection(s: Socket)
      requires outboxLimit >= 1
      modifies this`connections
      ensures Value() == Step(old(Value()), Connect(s))
    {
      connections := connections + {s};
    }

    /** Idempotent. */
    method RemoveConnection(s: Socket)
      requires outboxLimit >= 1
      modifies this`connections
      ensures forall w :: ValueWhile(w) == Step(old(ValueWhile(w)), Disconnect(s))
    {
      connections := connections - {s};
    }

    /** Queue a frame without touching a socket, shedding the oldest when full. */
    method Enqueue(f: Frame, hasLoop: bool)
      requires outboxLimit >= 1
      modifies this
      ensures Value() == Step(old(Value()), Action.Enqueue(f, hasLoop))
    {
      if !hasLoop {
        dropped := dropped + 1;
        refused := refused + 1;
        return;
      }
      if |outbox| < outboxLimit {
        outbox := outbox + [f];
        enqueued := enqueued + [f];
        return;
      }
      dropped := dropped + 1;
      ghost var before := outbox;
      outbox := outbox[1..];
      taken := taken + [false];
      outbox := outbox + [f];
      enqueued := enqueued + [f];
      assert outbox == (before + [f])[1..];
    }

    /** Write one envelope to one socket, pruning it on any failure. */
    method Send(s: Socket, seqNo: nat, ghost rest: seq<Socket>, seen: bool, ok: bool) returns (delivered: bool)
      requires outboxLimit >= 1 && (ok ==> seen)
      modifies this`connections, this`received
      ensures delivered == ok
      ensures ValueWhile(WriterFor(seqNo, rest)) ==
              Step(old(ValueWhile(Sending(seqNo, [s] + rest))), Transmit(seen, ok))
    {
      assert ([s] + rest)[1..] == rest;
      if seen {
        received := received[s := (if s in received then received[s] else []) + [seqNo]];
      }
      if !ok {
        RemoveConnection(s);
      }
      delivered := ok;
    }

    /** Send one envelope to every listed subscriber and prune the dead ones; a peer that fails stops nobody else. */
    method Broadcast(seqNo: nat, targets: seq<Socket>, outcomes: seq<(bool, bool)>) returns (delivered: nat)
      requires outboxLimit >= 1 && |outcomes| == |targets|
      requires forall i :: 0 <= i < |outcomes| ==> outcomes[i].1 ==> outcomes[i].0
      modifies this`connections, this`received
      ensures AreEnabled(old(ValueWhile(WriterFor(seqNo, targets))), Sends(outcomes))
      ensures Value() == Run(old(ValueWhile(WriterFor(seqNo, targets))), Sends(outcomes))
      ensures delivered == Successes(outcomes)
    {
      delivered := 0;
      ghost var start := ValueWhile(WriterFor(seqNo, targets));
      var i := 0;
      while i < |targets|
        invariant i <= |targets|
        invariant AreEnabled(start, Sends(outcomes[..i]))
        invariant ValueWhile(WriterFor(seqNo, targets[i..])) == Run(start, Sends(outcomes[..i]))
        invariant delivered == Successes(outcomes[..i])
      {
        assert targets[i..] == [targets[i]] + targets[i + 1..];
        ghost var now := ValueWhile(WriterFor(seqNo, targets[i..]));
        var ok := Send(targets[i], seqNo, targets[i + 1..], outcomes[i].0, outcomes[i].1);
        RunOneMore(start, Sends(outcomes[..i]), Transmit(outcomes[i].0, outcomes[i].1));
        assert outcomes[..i + 1][..i] == outcomes[..i];
        assert Sends(outcomes[..i + 1]) == Sends(outcomes[..i]) + [Transmit(outcomes[i].0, outcomes[i].1)];
        if ok {
          delivered := delivered + 1;
        }
        i := i + 1;
      }
      assert outcomes[..i] == outcomes && targets[i..] == [];
    }

    /** One turn of the drain loop. */
    method DrainOne(snapshot: seq<Socket>, outcomes: seq<(bool, bool)>)
      requires outboxLimit >= 1 && outbox != [] && IsSnapshot(connections, snapshot)
      requires |outcomes| == |Targets(outbox[0], snapshot)|
      requires forall i :: 0 <= i < |outcomes| ==> outcomes[i].1 ==> outcomes[i].0
      modifies this
      ensures AreEnabled(old(Value()), [Take(snapshot)] + Sends(outcomes))
      ensures Value() == Run(old(Value()), [Take(snapshot)] + Sends(outcomes))
    {
      ghost var actions := [Take(snapshot)] + Sends(outcomes);
      assert actions[1..] == Sends(outcomes);
      var frame := outbox[0];
      outbox := outbox[1..];
      drained := drained + [frame];
      taken := taken + [true];
      sequence := sequence + 1;
      var n := Broadcast(sequence, Targets(frame, snapshot), outcomes);
    }
  }

  function Sends(outcomes: seq<(bool, bool)>): (r: seq<Action>)
    ensures |r| == |outcomes|
    ensures forall i :: 0 <= i < |r| ==> r[i] == Transmit(outcomes[i].0, outcomes[i].1)
  {
    seq(|outcomes|, i requires 0 <= i < |outcomes| => Transmit(outcomes[i].0, outcomes[i].1))
  }

  function Successes(outcomes: seq<(bool, bool)>): nat {
    if outcomes == [] then 0
    else Successes(outcomes[..|outcomes| - 1]) + if outcomes[|outcomes| - 1].1 then 1 else 0
  }

  lemma {:induction false} RunOneMore(h: Hub, actions: seq<Action>, a: Action)
    requires h.limit >= 1 && AreEnabled(h, actions) && IsEnabled(Run(h, actions), a)
    ensures AreEnabled(h, actions + [a])
    ensures Run(h, actions + [a]) == Step(Run(h, actions), a)
    decreases |actions|
  {
    hide Step;
    if actions != [] {
      RunOneMore(Step(h, actions[0]), actions[1..], a);
      assert (actions + [a])[1..] == actions[1..] + [a];
    } else {
      assert actions + [a] == [a] && [a][1..] == [];
    }
  }
}
