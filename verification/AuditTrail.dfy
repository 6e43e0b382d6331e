/** The shared audit trail, and any number of writers racing to append to it. */
module AuditTrail {
  import opened Wrappers
  import opened KillSwitch

  /** The hash of the last record, or None for an empty trail. */
  type Tip = Option<string>

  /** One appended record; the operation that wrote it stands for its unique audit id. */
  datatype Record = Record(operation: nat, entry: TrailEntry, prev: Tip, current: string)

  type Hash = (nat, TrailEntry, Tip) -> string

  function NewRecord(h: Hash, operation: nat, entry: TrailEntry, prev: Tip): Record {
    Record(operation, entry, prev, h(operation, entry, prev))
  }

  function TipOf(trail: seq<Record>): Tip {
    if trail == [] then None else Some(trail[|trail| - 1].current)
  }

  /** Each record hashes to its own stored value, and no two were written by the same operation. */
  ghost predicate IsHashed(h: Hash, trail: seq<Record>) {
    && (forall i :: 0 <= i < |trail| ==> trail[i].current == h(trail[i].operation, trail[i].entry, trail[i].prev))
    && (forall i, j :: 0 <= i < j < |trail| ==> trail[i].operation != trail[j].operation)
  }

  /** Each record names the one right before it. */
  ghost predicate IsChain(trail: seq<Record>) {
    && (trail != [] ==> trail[0].prev == None)
    && (forall i, j :: 0 <= i < j < |trail| && j == i + 1 ==> trail[j].prev == Some(trail[i].current))
  }

  /** The record is the one that was last when the trail was n long, or that trail was empty. */
  predicate Names(trail: seq<Record>, prev: Tip, n: nat) {
    n <= |trail| && prev == TipOf(trail[..n])
  }

  ghost predicate NamesEarlier(trail: seq<Record>, i: nat)
    requires i < |trail|
  {
    exists n :: 0 <= n <= i && Names(trail, trail[i].prev, n)
  }

  /** Each record names one somewhere before it, or the empty trail. */
  ghost predicate IsTree(trail: seq<Record>) {
    forall i :: 0 <= i < |trail| ==> NamesEarlier(trail, i)
  }

  predicate IsOn(trail: seq<Record>, operation: nat) {
    exists i :: 0 <= i < |trail| && trail[i].operation == operation
  }

  ghost predicate IsHash(h: Hash) {
    forall o, e, p, o', e', p' :: h(o, e, p) == h(o', e', p') ==> o == o' && e == e' && p == p'
  }

  // ---------------------------------------------------------------- one more record

  /** On a trail of distinct records the tip tells how long it was. */
  lemma TipTellsLength(h: Hash, trail: seq<Record>, n: nat)
    requires IsHash(h) && IsHashed(h, trail) && n <= |trail|
    ensures TipOf(trail[..n]) == TipOf(trail) <==> n == |trail|
  {
    if n == |trail| {
      assert trail[..n] == trail;
    } else if n > 0 {
      assert trail[n - 1].operation != trail[|trail| - 1].operation;
    }
  }

  /** A record that names an earlier tip keeps the trail a chain if and only if it names the last one. */
  lemma GrowsTheChainExactlyAtTheHead(h: Hash, trail: seq<Record>, r: Record, n: nat)
    requires IsHash(h) && IsHashed(h, trail) && Names(trail, r.prev, n)
    ensures IsChain(trail + [r]) <==> IsChain(trail) && n == |trail|
  {
    TipTellsLength(h, trail, n);
    var grown := trail + [r];
    assert trail[..|trail|] == trail;
    if IsChain(grown) {
      forall i, j | 0 <= i < j < |trail| && j == i + 1
        ensures trail[j].prev == Some(trail[i].current)
      {
        assert grown[j].prev == Some(grown[i].current);
      }
      if trail != [] {
        assert grown[|trail|].prev == Some(grown[|trail| - 1].current);
        assert trail[0] == grown[0];
      }
    }
  }

  /** A fork is for ever. */
  lemma PrefixIsChain(trail: seq<Record>, longer: seq<Record>)
    requires trail <= longer && IsChain(longer)
    ensures IsChain(trail)
  {
    forall i, j | 0 <= i < j < |trail| && j == i + 1
      ensures trail[j].prev == Some(trail[i].current)
    {
      assert longer[j].prev == Some(longer[i].current);
    }
  }

  lemma GrowsTheTree(trail: seq<Record>, r: Record, n: nat)
    requires IsTree(trail) && Names(trail, r.prev, n)
    ensures IsTree(trail + [r])
  {
    var grown := trail + [r];
    forall i | 0 <= i < |grown|
      ensures NamesEarlier(grown, i)
    {
      if i < |trail| {
        assert NamesEarlier(trail, i);
        var m :| 0 <= m <= i && Names(trail, trail[i].prev, m);
        assert grown[i] == trail[i] && grown[..m] == trail[..m];
        assert Names(grown, grown[i].prev, m);
      } else {
        assert grown[..n] == trail[..n];
        assert Names(grown, grown[i].prev, n);
      }
    }
  }

  // ---------------------------------------------------------------- writers as state machines

  /**
    * A writer between two of its atomic actions. An engine remembers the tip it last saw; a kill switch starts
    * every write with an empty memory. The comparison with the head and the insertion are two actions, the second
    * of which does not look at the head again.
    */
  datatype Writer =
    | Idle(memory: Option<Tip>)
    | Armed(memory: Option<Tip>, operation: nat, entry: TrailEntry, prev: Tip, retrying: bool)
    // The head was as remembered when the trail was seen records long.
    | Checked(memory: Option<Tip>, operation: nat, entry: TrailEntry, prev: Tip, seen: nat)
    | Refused(memory: Option<Tip>, operation: nat, entry: TrailEntry)

  /** How a write ended: at which place on the trail, or nowhere. */
  datatype Fate = Landed(at: nat) | Lost

  datatype System = System(
    trail: seq<Record>,
    writers: map<nat, Writer>,
    fates: map<nat, Fate>,
    next: nat)

  datatype Action =
    // Start a write with the remembered tip, or one freshly read.
    | Begin(w: nat, entry: TrailEntry, forget: bool)
    // Compare the tip with the head; the trail refuses a record whose tip is not the head.
    | Check(w: nat)
    // Insert what was not refused.
    | Insert(w: nat)
    // After a refusal, read the tip again, once.
    | Reread(w: nat)
    // The trail cannot be reached: the write is given up.
    | Break(w: nat)

  function WriterOf(s: System, w: nat): Writer {
    if w in s.writers then s.writers[w] else Idle(None)
  }

  function Put(s: System, w: nat, to: Writer): System {
    s.(writers := s.writers[w := to])
  }

  function Finish(s: System, w: nat, operation: nat, memory: Option<Tip>, fate: Fate): System {
    Put(s.(fates := s.fates[operation := fate]), w, Idle(memory))
  }

  function Act(h: Hash, s: System, a: Action): System {
    var me := WriterOf(s, a.w);
    match a
    case Begin(w, entry, forget) =>
      if !me.Idle? then s
      else
        var prev := if forget || me.memory.None? then TipOf(s.trail) else me.memory.value;
        Put(s.(next := s.next + 1), w, Armed(if forget then None else Some(prev), s.next, entry, prev, false))
    case Check(w) =>
      if !me.Armed? then s
      else if me.prev == TipOf(s.trail) then
        Put(s, w, Checked(me.memory, me.operation, me.entry, me.prev, |s.trail|))
      else if me.retrying then Finish(s, w, me.operation, me.memory, Lost)
      else Put(s, w, Refused(me.memory, me.operation, me.entry))
    case Insert(w) =>
      if !me.Checked? then s
      else
        var r := NewRecord(h, me.operation, me.entry, me.prev);
        Finish(s.(trail := s.trail + [r]), w, me.operation,
               if me.memory.None? then None else Some(Some(r.current)), Landed(|s.trail|))
    case Reread(w) =>
      if !me.Refused? then s
      else Put(s, w, Armed(me.memory, me.operation, me.entry, TipOf(s.trail), true))
    case Break(w) =>
      if me.Idle? then s else Finish(s, w, me.operation, me.memory, Lost)
  }

  function Run(h: Hash, s: System, actions: seq<Action>): System
    decreases |actions|
  {
    if actions == [] then s else Run(h, Act(h, s, actions[0]), actions[1..])
  }

  const START := System([], map[], map[], 0)

  /** Each record is the one its operation was told had landed there. */
  ghost predicate IsAccounted(s: System) {
    forall i :: 0 <= i < |s.trail| ==>
      s.trail[i].operation in s.fates && s.fates[s.trail[i].operation] == Landed(i)
  }

  /** A write said to have landed did, where it was said to. */
  ghost predicate IsTruthful(s: System) {
    forall o :: o in s.fates ==>
      && o < s.next
      && (s.fates[o].Landed? ==> s.fates[o].at < |s.trail| && s.trail[s.fates[o].at].operation == o)
  }

  /** A write under way is in one writer's hands and not settled yet. */
  ghost predicate IsExclusive(s: System) {
    && (forall w :: w in s.writers && !s.writers[w].Idle? ==>
          s.writers[w].operation < s.next && s.writers[w].operation !in s.fates)
    && (forall v, w :: v in s.writers && w in s.writers && v != w && !s.writers[v].Idle? && !s.writers[w].Idle? ==>
          s.writers[v].operation != s.writers[w].operation)
  }

  /** A write that passed its check names what was the head then. */
  ghost predicate IsWatched(s: System) {
    forall w :: w in s.writers && s.writers[w].Checked? ==> Names(s.trail, s.writers[w].prev, s.writers[w].seen)
  }

  /** Every record is a tree node that hashes to itself, and every write is on the trail once or not at all. */
  ghost predicate IsOrderly(h: Hash, s: System) {
    IsHashed(h, s.trail) && IsTree(s.trail) && IsAccounted(s) && IsTruthful(s) && IsExclusive(s) && IsWatched(s)
  }

  lemma ActIsExclusive(h: Hash, s: System, a: Action)
    requires IsExclusive(s) && IsTruthful(s)
    ensures IsExclusive(Act(h, s, a))
  {
  }

  lemma ActIsTruthful(h: Hash, s: System, a: Action)
    requires IsExclusive(s) && IsTruthful(s)
    ensures IsTruthful(Act(h, s, a))
  {
  }

  lemma ActIsAccounted(h: Hash, s: System, a: Action)
    requires IsHashed(h, s.trail) && IsExclusive(s) && IsAccounted(s)
    ensures IsHashed(h, Act(h, s, a).trail) && IsAccounted(Act(h, s, a))
  {
  }

  lemma ActIsWatched(h: Hash, s: System, a: Action)
    requires IsTree(s.trail) && IsWatched(s)
    ensures IsTree(Act(h, s, a).trail) && IsWatched(Act(h, s, a))
  {
    hide IsTree;
    var me, after := WriterOf(s, a.w), Act(h, s, a);
    if a.Insert? && me.Checked? {
      GrowsTheTree(s.trail, NewRecord(h, me.operation, me.entry, me.prev), me.seen);
    }
    forall w | w in after.writers && after.writers[w].Checked?
      ensures Names(after.trail, after.writers[w].prev, after.writers[w].seen)
    {
      var n := after.writers[w].seen;
      assert after.trail[..n] == s.trail[..n];
      assert s.trail[..|s.trail|] == s.trail;
    }
  }

  lemma ActIsOrderly(h: Hash, s: System, a: Action)
    requires IsOrderly(h, s)
    ensures IsOrderly(h, Act(h, s, a))
  {
    hide IsHashed, IsTree, IsAccounted, IsTruthful, IsExclusive, IsWatched, Act;
    ActIsExclusive(h, s, a);
    ActIsTruthful(h, s, a);
    ActIsAccounted(h, s, a);
    ActIsWatched(h, s, a);
  }

  lemma {:induction false} RunIsOrderly(h: Hash, s: System, actions: seq<Action>)
    requires IsOrderly(h, s)
    ensures IsOrderly(h, Run(h, s, actions))
    decreases |actions|
  {
    hide IsOrderly, Act;
    if actions != [] {
      ActIsOrderly(h, s, actions[0]);
      RunIsOrderly(h, Act(h, s, actions[0]), actions[1..]);
    }
  }

  /** From an empty trail, whatever the writers do. */
  lemma EveryRunIsOrderly(h: Hash, actions: seq<Action>)
    ensures IsOrderly(h, Run(h, START, actions))
  {
    RunIsOrderly(h, START, actions);
  }

  // ---------------------------------------------------------------- when the trail forks

  /** The insertion of a record after another one landed since its check. */
  predicate Races(s: System, a: Action) {
    a.Insert? && WriterOf(s, a.w).Checked? && WriterOf(s, a.w).seen != |s.trail|
  }

  predicate HasRace(h: Hash, s: System, actions: seq<Action>)
    decreases |actions|
  {
    actions != [] && (Races(s, actions[0]) || HasRace(h, Act(h, s, actions[0]), actions[1..]))
  }

  lemma ActForksExactlyOnRace(h: Hash, s: System, a: Action)
    requires IsHash(h) && IsOrderly(h, s)
    ensures IsChain(Act(h, s, a).trail) <==> IsChain(s.trail) && !Races(s, a)
  {
    hide IsChain, IsTree, IsAccounted, IsTruthful, IsExclusive, IsHash, IsHashed;
    var me := WriterOf(s, a.w);
    if a.Insert? && me.Checked? {
      GrowsTheChainExactlyAtTheHead(h, s.trail, NewRecord(h, me.operation, me.entry, me.prev), me.seen);
    }
  }

  lemma {:induction false} RunForksExactlyOnRace(h: Hash, s: System, actions: seq<Action>)
    requires IsHash(h) && IsOrderly(h, s)
    ensures IsChain(Run(h, s, actions).trail) <==> IsChain(s.trail) && !HasRace(h, s, actions)
    decreases |actions|
  {
    hide IsHash, IsOrderly, IsChain, Act, Races;
    if actions != [] {
      ActForksExactlyOnRace(h, s, actions[0]);
      ActIsOrderly(h, s, actions[0]);
      RunForksExactlyOnRace(h, Act(h, s, actions[0]), actions[1..]);
    }
  }

  /** The trail is one chain if and only if no record landed between another's check and its insertion. */
  lemma TrailIsChainExactlyWithoutRaces(h: Hash, actions: seq<Action>)
    requires IsHash(h)
    ensures IsChain(Run(h, START, actions).trail) <==> !HasRace(h, START, actions)
  {
    EveryRunIsOrderly(h, []);
    RunForksExactlyOnRace(h, START, actions);
  }

  /** Two writers who both pass the check put two records under the same parent. */
  lemma TwoWritersFork(h: Hash, first: TrailEntry, second: TrailEntry)
    ensures var after := Run(h, START, [Begin(0, first, true), Begin(1, second, true), Check(0), Check(1), Insert(0),
                                        Insert(1)]);
      && after.trail == [NewRecord(h, 0, first, None), NewRecord(h, 1, second, None)]
      && after.fates == map[0 := Landed(0), 1 := Landed(1)]
      && !IsChain(after.trail)
  {
    var a, b, c, d, e, f := Begin(0, first, true), Begin(1, second, true), Check(0), Check(1), Insert(0), Insert(1);
    var sa := Act(h, START, a);
    var sb := Act(h, sa, b);
    var sc := Act(h, sb, c);
    var sd := Act(h, sc, d);
    var se := Act(h, sd, e);
    var sf := Act(h, se, f);
    assert Run(h, START, [a, b, c, d, e, f]) == sf by {
      hide Act;
      assert [a, b, c, d, e, f][1..] == [b, c, d, e, f];
      assert [b, c, d, e, f][1..] == [c, d, e, f];
      assert [c, d, e, f][1..] == [d, e, f];
      assert [d, e, f][1..] == [e, f];
      assert [e, f][1..] == [f];
      assert Run(h, se, [f]) == Run(h, sf, []);
      assert Run(h, sd, [e, f]) == Run(h, se, [f]);
      assert Run(h, sc, [d, e, f]) == Run(h, sd, [e, f]);
      assert Run(h, sb, [c, d, e, f]) == Run(h, sc, [d, e, f]);
      assert Run(h, sa, [b, c, d, e, f]) == Run(h, sb, [c, d, e, f]);
    }
    assert sf.trail[1].prev == None;
  }

  // ---------------------------------------------------------------- one write among others

  predicate AllOthers(actions: seq<Action>, w: nat) {
    forall i :: 0 <= i < |actions| ==> actions[i].w != w
  }

  /** Other writers extend the trail, settle their own writes, and leave this writer's state alone. */
  lemma {:induction false} OthersOnlyExtend(h: Hash, s: System, actions: seq<Action>, w: nat)
    requires AllOthers(actions, w) && w in s.writers && IsOrderly(h, s)
    ensures var after := Run(h, s, actions);
      && s.trail <= after.trail && w in after.writers && after.writers[w] == s.writers[w]
      && (forall o :: o in s.fates ==> o in after.fates && after.fates[o] == s.fates[o])
    decreases |actions|
  {
    hide IsHashed, IsTree, IsAccounted, IsTruthful, IsWatched, TipOf, NewRecord;
    if actions != [] {
      assert actions[0].w != w;
      ActIsOrderly(h, s, actions[0]);
      OthersOnlyExtend(h, Act(h, s, actions[0]), actions[1..], w);
    }
  }

  /**
    * The retry after a refusal lands exactly when no record landed between the re-read and the check, however
    * stale the remembered tip had been. It keeps the chain exactly when none landed between the check and the
    * insertion either.
    */
  lemma RetryLandsExactlyWhenUndisturbed(h: Hash, s: System, w: nat, between: seq<Action>, later: seq<Action>)
    requires IsHash(h) && IsOrderly(h, s)
    requires w in s.writers && s.writers[w].Refused?
    requires AllOthers(between, w) && AllOthers(later, w)
    ensures var o := s.writers[w].operation;
      var waited := Run(h, Act(h, s, Reread(w)), between);
      var late := Run(h, Act(h, waited, Check(w)), later);
      var tried := Act(h, late, Insert(w));
      && o in tried.fates
      && (tried.fates[o].Landed? <==> waited.trail == s.trail)
      && (tried.fates[o].Landed? ==>
            tried.trail == late.trail + [NewRecord(h, o, s.writers[w].entry, TipOf(s.trail))])
      && (!tried.fates[o].Landed? ==> tried.trail == late.trail)
      && (tried.fates[o].Landed? ==>
            (IsChain(tried.trail) <==> IsChain(late.trail) && late.trail == waited.trail))
  {
    hide IsTree, IsAccounted, IsTruthful, IsExclusive, IsWatched, IsHash, IsHashed, IsChain;
    var read := Act(h, s, Reread(w));
    ActIsOrderly(h, s, Reread(w));
    var waited := Run(h, read, between);
    RunIsOrderly(h, read, between);
    OthersOnlyExtend(h, read, between, w);
    TipTellsLength(h, waited.trail, |s.trail|);
    assert waited.trail[..|s.trail|] == s.trail;
    var checked := Act(h, waited, Check(w));
    ActIsOrderly(h, waited, Check(w));
    var late := Run(h, checked, later);
    RunIsOrderly(h, checked, later);
    OthersOnlyExtend(h, checked, later, w);
    ActForksExactlyOnRace(h, late, Insert(w));
  }

  /** With nobody else about, a write lands whatever tip the engine remembered. */
  lemma StaleTipStillLands(h: Hash, s: System, w: nat, entry: TrailEntry)
    requires WriterOf(s, w).Idle?
    ensures var after := Run(h, s, [Begin(w, entry, false), Check(w), Reread(w), Check(w), Insert(w)]);
      after.trail == s.trail + [NewRecord(h, s.next, entry, TipOf(s.trail))]
  {
    var a, b, c, d, e := Begin(w, entry, false), Check(w), Reread(w), Check(w), Insert(w);
    hide NewRecord;
    var begun := Act(h, s, a);
    var tried := Act(h, begun, b);
    var read := Act(h, tried, c);
    var checked := Act(h, read, d);
    var after := Act(h, checked, e);
    assert Run(h, s, [a, b, c, d, e]) == after by {
      hide Act;
      assert [a, b, c, d, e][1..] == [b, c, d, e];
      assert [b, c, d, e][1..] == [c, d, e];
      assert [c, d, e][1..] == [d, e];
      assert [d, e][1..] == [e];
      assert Run(h, checked, [e]) == Run(h, after, []);
      assert Run(h, read, [d, e]) == Run(h, checked, [e]);
      assert Run(h, tried, [c, d, e]) == Run(h, read, [d, e]);
      assert Run(h, begun, [b, c, d, e]) == Run(h, tried, [c, d, e]);
    }
  }
}
