/** The append-only audit ledger of the governed task manager, linked by hash. */
module Ledger {
  import opened Wrappers
  import opened WorkflowStates
  import opened RoleCatalog

  /** Why a state was written: the codes the source stores as text. */
  datatype Reason =
    | NoReason
    | GateSaid(code: ReasonCode)
    | HumanApproved
    | HumanRejected
    | EngineSucceeded
    | EngineFailed

  /** The sentence stored beside a reason: a note as given, or one of the source's own phrases. */
  datatype Remark =
    | Silent
    | GateRemark(code: ReasonCode)
    | Note(text: string)
    | ApprovedBy(who: string, role: string)
    | ReleasedBy(who: string)
    | RejectedBy(who: string)
    | TaskIs(state: State)

  datatype EventType = TaskProposed | TaskMoved(to: State)

  /** The task facts every ledger row carries. */
  datatype Facts = Facts(
    capability: string,
    engine: Option<string>,
    cost: int,
    limit: Option<int>,
    classification: string,
    confidence: real)

  datatype Outcome = Allowed | Held | Denied

  /** The signed columns of a ledger row. */
  datatype Signed = Signed(
    eventId: string,
    occurredAt: string,
    correlationId: string,
    actorId: string,
    actorRole: string,
    eventType: EventType,
    decision: Outcome,
    reason: Reason,
    remark: Remark,
    taskId: string,
    fromState: Option<State>,
    toState: State,
    facts: Facts,
    prevHash: string)

  datatype Entry = Entry(signed: Signed, recordHash: string)

  type Hash = Signed -> string

  /** What is asked of the hash: no collisions, and never the empty string that marks an empty ledger. */
  ghost predicate IsHash(h: Hash) {
    && (forall p, q :: h(p) == h(q) ==> p == q)
    && (forall p :: h(p) != "")
  }

  const VERIFY_LIMIT: nat := 100000

  function Head(ledger: seq<Entry>): string {
    if ledger == [] then "" else ledger[|ledger| - 1].recordHash
  }

  /** Every row hashes to its stored value and names the row before it. */
  ghost predicate Linked(h: Hash, ledger: seq<Entry>) {
    && (forall i :: 0 <= i < |ledger| ==> ledger[i].recordHash == h(ledger[i].signed))
    && (ledger != [] ==> ledger[0].signed.prevHash == "")
    && (forall i, j :: 0 <= i < j < |ledger| && j == i + 1 ==> ledger[j].signed.prevHash == ledger[i].recordHash)
  }

  function Walked(ledger: seq<Entry>): seq<Entry> {
    if |ledger| <= VERIFY_LIMIT then ledger else ledger[..VERIFY_LIMIT]
  }

  /** What verify_audit_chain answers. */
  ghost predicate Verifies(h: Hash, ledger: seq<Entry>) {
    Linked(h, Walked(ledger))
  }

  function Appended(h: Hash, ledger: seq<Entry>, s: Signed): seq<Entry> {
    var signed := s.(prevHash := Head(ledger));
    ledger + [Entry(signed, h(signed))]
  }

  lemma AppendKeepsLinked(h: Hash, ledger: seq<Entry>, s: Signed)
    requires Linked(h, ledger)
    ensures Linked(h, Appended(h, ledger, s))
  {
  }

  lemma PrefixOfLinked(h: Hash, ledger: seq<Entry>, n: nat)
    requires Linked(h, ledger) && n <= |ledger|
    ensures Linked(h, ledger[..n])
    ensures n < |ledger| ==> ledger[n].signed.prevHash == Head(ledger[..n])
  {
    if 0 < n < |ledger| {
      assert ledger[n].signed.prevHash == ledger[n - 1].recordHash;
    }
  }

  /** A linked ledger is determined, row by row, by its head hash alone. */
  lemma {:induction false} HeadDeterminesLedger(h: Hash, a: seq<Entry>, b: seq<Entry>)
    requires IsHash(h)
    requires Linked(h, a) && Linked(h, b)
    requires Head(a) == Head(b)
    ensures a == b
  {
    if a != [] && b != [] {
      var m, n := |a| - 1, |b| - 1;
      assert h(a[m].signed) == h(b[n].signed);
      PrefixOfLinked(h, a, m);
      PrefixOfLinked(h, b, n);
      HeadDeterminesLedger(h, a[..m], b[..n]);
      assert a == a[..m] + [a[m]] && b == b[..n] + [b[n]];
    }
  }

  /** The history of n copies of one signed record, as the manager would append it. */
  function Repeated(h: Hash, s: Signed, n: nat): (r: seq<Entry>)
    ensures |r| == n
  {
    if n == 0 then [] else Appended(h, Repeated(h, s, n - 1), s)
  }

  lemma {:induction false} RepeatedIsLinked(h: Hash, s: Signed, n: nat)
    ensures Linked(h, Repeated(h, s, n))
  {
    if n > 0 {
      RepeatedIsLinked(h, s, n - 1);
      AppendKeepsLinked(h, Repeated(h, s, n - 1), s);
    }
  }

  /** Ledgers of n rows that verify and share a head are the same ledger. */
  ghost predicate HeadIsBinding(h: Hash, n: nat) {
    forall a, b :: |a| == n && |b| == n && Verifies(h, a) && Verifies(h, b) && Head(a) == Head(b) ==> a == b
  }

  /** Any row past the walked prefix can be rewritten in place without verification noticing. */
  lemma TailIsUnchecked(h: Hash, ledger: seq<Entry>, signed: Signed)
    requires |ledger| > VERIFY_LIMIT && Verifies(h, ledger)
    ensures var n := |ledger| - 1;
      var rewritten := ledger[n := ledger[n].(signed := signed)];
      Verifies(h, rewritten) && Head(rewritten) == Head(ledger)
  {
    var n := |ledger| - 1;
    var rewritten := ledger[n := ledger[n].(signed := signed)];
    assert Walked(rewritten) == Walked(ledger);
  }

  lemma LongLedgerIsNotBound(h: Hash, n: nat)
    requires n > VERIFY_LIMIT
    ensures !HeadIsBinding(h, n)
  {
    var s := Signed("", "", "", "", "", TaskProposed, Allowed, NoReason, Silent, "", None, Proposed,
                    Facts("", None, 0, None, "", 0.0), "");
    var a := Repeated(h, s, n);
    RepeatedIsLinked(h, s, n);
    PrefixOfLinked(h, a, VERIFY_LIMIT);
    var was := a[n - 1].signed;
    var signed := was.(decision := if was.decision == Held then Denied else Held);
    TailIsUnchecked(h, a, signed);
    var b := a[n - 1 := a[n - 1].(signed := signed)];
    assert a[n - 1].signed.decision != b[n - 1].signed.decision;
    assert a != b;
  }

  /** Verification binds the whole history exactly up to the number of rows it walks. */
  lemma HeadIsBindingExactlyWhenWalked(h: Hash, n: nat)
    requires IsHash(h)
    ensures HeadIsBinding(h, n) <==> n <= VERIFY_LIMIT
  {
    if n <= VERIFY_LIMIT {
      forall a, b | |a| == n && |b| == n && Verifies(h, a) && Verifies(h, b) && Head(a) == Head(b)
        ensures a == b
      {
        HeadDeterminesLedger(h, a, b);
      }
    } else {
      LongLedgerIsNotBound(h, n);
    }
  }
}
