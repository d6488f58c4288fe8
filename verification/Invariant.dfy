/** The inductive invariant of the ideal multi-producer protocol. */
module Invariant {
  import opened Slots
  import opened Sums
  import opened Protocol

  // ------------------------------------------------------------------
  // Vocabulary.
  // ------------------------------------------------------------------

  /** The sequences a producer has claimed and not yet published are [Lo, Hi). */
  function Lo(pc: ProducerPc): int {
    match pc
    case PWait(first, _, _, _) => first
    case PWrite(first, _, _) => first
    case PPublish(first, _, k) => first + k
    case _ => 0
  }

  function Hi(pc: ProducerPc): int {
    match pc
    case PWait(first, count, _, _) => first + count
    case PWrite(first, count, _) => first + count
    case PPublish(first, count, _) => first + count
    case _ => 0
  }

  /** The claim has been granted: the producer may write its slots. */
  predicate Granted(pc: ProducerPc) { pc.PWrite? || pc.PPublish? }

  /** In `try_claim` or `try_claim_until`. */
  predicate Trying(pc: ProducerPc) { pc.PScan? || pc.PLoad? || pc.PCas? || pc.PTimedWait? }

  /** Sequence x has been published; all sequences before 0 count as published. */
  predicate Pub(owner: seq<(nat, nat)>, sent: seq<nat>, x: int) {
    x < |owner| && (0 <= x ==> owner[x].0 < |sent| && owner[x].1 < sent[owner[x].0])
  }

  ghost predicate AllPub(owner: seq<(nat, nat)>, sent: seq<nat>, k: int) {
    forall x :: x <= k ==> Pub(owner, sent, x)
  }

  /** Claims up to x keep within n of every gating barrier. */
  predicate Under(cfg: Config, barrier: seq<int>, x: int)
    requires cfg.Shape() && |barrier| == |cfg.deps|
  {
    forall i :: 0 <= i < |cfg.gate| ==> x - cfg.n <= barrier[cfg.gate[i]]
  }

  /** The ring slot of x holds the item for which x was claimed. */
  predicate Holds(cfg: Config, owner: seq<(nat, nat)>, ring: seq<int>, x: int)
    requires cfg.n > 0 && |ring| == cfg.n
  {
    0 <= x < |owner| && ring[Slot(cfg.n, x)] == ItemOf(cfg, owner[x])
  }

  // ------------------------------------------------------------------
  // The invariant, part by part.
  // ------------------------------------------------------------------

  ghost predicate ClaimOk(owner: seq<(nat, nat)>, sent: nat, p: nat, pc: ProducerPc) {
    && 0 <= Lo(pc) <= Hi(pc) <= |owner|
    && forall x :: Lo(pc) <= x < Hi(pc) ==> owner[x].0 == p && owner[x].1 == sent + x - Lo(pc)
  }

  predicate OwnerOk(cfg: Config, sent: seq<nat>, ppc: seq<ProducerPc>, x: int, o: (nat, nat)) {
    && o.0 < |ppc| && o.0 < |sent| && o.0 < |cfg.script| && o.1 < |cfg.script[o.0]|
    && (o.1 < sent[o.0] || Lo(ppc[o.0]) <= x < Hi(ppc[o.0]))
  }

  /** Claims partition [0, next), and the unpublished ones are those still held. */
  ghost predicate ClaimsInv(cfg: Config, next: int, owner: seq<(nat, nat)>, sent: seq<nat>, ppc: seq<ProducerPc>) {
    && next == |owner| && |sent| == |ppc| == |cfg.script|
    && (forall p: nat :: p < |ppc| ==> ClaimOk(owner, sent[p], p, ppc[p]))
    && (forall x :: 0 <= x < |owner| ==> OwnerOk(cfg, sent, ppc, x, owner[x]))
  }

  predicate SlotOk(n: int, owner: seq<(nat, nat)>, sent: seq<nat>, i: int, q: int)
    requires n > 0
  {
    Slot(n, q) == i && -n <= q && Pub(owner, sent, q)
  }

  /** Each word of the published array is the greatest published sequence of its slot. */
  ghost predicate SlotsInv(n: int, owner: seq<(nat, nat)>, sent: seq<nat>, pub: seq<int>)
    requires n > 0
  {
    && |pub| == n
    && (forall i :: 0 <= i < n ==> SlotOk(n, owner, sent, i, pub[i]))
    && (forall x :: 0 <= x < |owner| ==> (Pub(owner, sent, x) <==> x <= pub[Slot(n, x)]))
  }

  ghost predicate GateInv(cfg: Config, pub: seq<int>, barrier: seq<int>, ppc: seq<ProducerPc>)
    requires cfg.Shape() && |barrier| == |cfg.deps|
  {
    && (forall i :: 0 <= i < |pub| ==> Under(cfg, barrier, pub[i]))
    && (forall p: nat :: p < |ppc| && Granted(ppc[p]) ==> Under(cfg, barrier, Hi(ppc[p]) - 1))
  }

  /** What a producer's unfinished scan and its local copies still mean. */
  ghost predicate ScanOk(cfg: Config, next: int, barrier: seq<int>, pc: ProducerPc)
    requires cfg.Shape() && |barrier| == |cfg.deps|
  {
    match pc
    case PIdle => true
    case PWait(first, count, i, minDelta) =>
      count <= cfg.n && i < |cfg.gate| && (i > 0 ==> minDelta >= 0) &&
      forall j :: 0 <= j < i ==> first + count - 1 - cfg.n + minDelta <= barrier[cfg.gate[j]]
    case PScan(_, _, i, min) =>
      i < |cfg.gate| && forall j :: 0 <= j < i ==> min <= barrier[cfg.gate[j]]
    case PLoad(_, _, limit) => Under(cfg, barrier, limit)
    case PCas(want, timed, count, limit, seen) =>
      Under(cfg, barrier, limit) && 0 <= seen <= next && (timed ==> count == want) &&
      (count < want ==> limit - seen + 1 <= count)
    case PTimedWait(_, seen, i, minDelta) =>
      0 <= seen <= next && i < |cfg.gate| && (i > 0 ==> minDelta >= 0) &&
      forall j :: 0 <= j < i ==> seen - cfg.n + minDelta <= barrier[cfg.gate[j]]
    case PWrite(_, count, _) => count <= cfg.n
    case PPublish(_, count, _) => 1 <= count <= cfg.n
  }

  ghost predicate ScansInv(cfg: Config, next: int, barrier: seq<int>, ppc: seq<ProducerPc>)
    requires cfg.Shape() && |barrier| == |cfg.deps|
  {
    forall p: nat :: p < |ppc| ==> ScanOk(cfg, next, barrier, ppc[p])
  }

  /** Every barrier that c waits for has reached x. */
  predicate Upstream(cfg: Config, barrier: seq<int>, c: nat, x: int)
    requires cfg.Shape() && c < |barrier| == |cfg.deps|
  {
    forall j :: 0 <= j < |cfg.deps[c]| ==> x <= barrier[cfg.deps[c][j]]
  }

  ghost predicate ConsOk(cfg: Config, owner: seq<(nat, nat)>, sent: seq<nat>, barrier: seq<int>, c: nat, pos: int,
      pc: ConsumerPc)
    requires cfg.Shape() && c < |barrier| == |cfg.deps|
  {
    && -1 <= barrier[c] < pos && AllPub(owner, sent, pos - 1) && Upstream(cfg, barrier, c, pos - 1)
    && match pc
       case CIdle => barrier[c] == pos - 1
       case CCheck(target, sq) =>
         cfg.deps[c] == [] && barrier[c] == pos - 1 && pos < cfg.Total() &&
         pos <= sq <= target < pos + cfg.n && AllPub(owner, sent, sq - 1)
       case CSpin(target, sq) =>
         cfg.deps[c] == [] && barrier[c] == pos - 1 && pos < cfg.Total() &&
         pos <= sq <= target < pos + cfg.n && AllPub(owner, sent, sq - 1)
       case CExtend(last) =>
         cfg.deps[c] == [] && barrier[c] == pos - 1 && pos < cfg.Total() && pos <= last && AllPub(owner, sent, last)
       case CWait(target, i, minDelta) =>
         barrier[c] == pos - 1 && pos < cfg.Total() && pos <= target < pos + cfg.n && i < |cfg.deps[c]| &&
         (i > 0 ==> minDelta >= 0) &&
         forall j :: 0 <= j < i ==> target + minDelta <= barrier[cfg.deps[c][j]]
       case CRead(available) =>
         pos <= available && AllPub(owner, sent, available) && Upstream(cfg, barrier, c, available)
       case CRelease(available) => barrier[c] < available == pos - 1
  }

  ghost predicate ConsInv(cfg: Config, owner: seq<(nat, nat)>, sent: seq<nat>, barrier: seq<int>, pos: seq<int>,
      cpc: seq<ConsumerPc>)
    requires cfg.Shape() && |barrier| == |cfg.deps|
  {
    |pos| == |cpc| == |cfg.deps| &&
    forall c: nat :: c < |cpc| ==> ConsOk(cfg, owner, sent, barrier, c, pos[c], cpc[c])
  }

  ghost predicate FilledOk(cfg: Config, owner: seq<(nat, nat)>, ring: seq<int>, pc: ProducerPc)
    requires cfg.n > 0 && |ring| == cfg.n
  {
    match pc
    case PWrite(first, _, k) => forall x :: first <= x < first + k ==> Holds(cfg, owner, ring, x)
    case PPublish(first, count, k) => forall x :: first + k <= x < first + count ==> Holds(cfg, owner, ring, x)
    case _ => true
  }

  /** Slots hold the log's items from the moment they are filled until every consumer
      has released them. */
  ghost predicate RingInv(cfg: Config, owner: seq<(nat, nat)>, sent: seq<nat>, ppc: seq<ProducerPc>, ring: seq<int>,
      barrier: seq<int>)
    requires cfg.n > 0
  {
    && |ring| == cfg.n
    && (forall p: nat :: p < |ppc| ==> FilledOk(cfg, owner, ring, ppc[p]))
    && (forall c, x :: 0 <= c < |barrier| && barrier[c] < x && 0 <= x && Pub(owner, sent, x) ==>
          Holds(cfg, owner, ring, x))
  }

  predicate ReadOk(cfg: Config, owner: seq<(nat, nat)>, pos: int, got: seq<int>) {
    pos == |got| <= |owner| && forall x :: 0 <= x < |got| ==> got[x] == ItemOf(cfg, owner[x])
  }

  ghost predicate ReadsInv(cfg: Config, owner: seq<(nat, nat)>, pos: seq<int>, got: seq<seq<int>>) {
    |pos| == |got| && forall c :: 0 <= c < |pos| ==> ReadOk(cfg, owner, pos[c], got[c])
  }

  /** How many items each producer has claimed so far. */
  function Claimed(sent: seq<nat>, ppc: seq<ProducerPc>): seq<int>
    requires |sent| == |ppc|
  {
    seq(|ppc|, p requires 0 <= p < |ppc| => sent[p] + Hi(ppc[p]) - Lo(ppc[p]))
  }

  ghost predicate Inv(cfg: Config, s: State) {
    && cfg.Valid() && Shape(cfg, s)
    && ClaimsInv(cfg, s.next, s.owner, s.sent, s.ppc)
    && SlotsInv(cfg.n, s.owner, s.sent, s.pub)
    && GateInv(cfg, s.pub, s.barrier, s.ppc)
    && ScansInv(cfg, s.next, s.barrier, s.ppc)
    && ConsInv(cfg, s.owner, s.sent, s.barrier, s.pos, s.cpc)
    && RingInv(cfg, s.owner, s.sent, s.ppc, s.ring, s.barrier)
    && ReadsInv(cfg, s.owner, s.pos, s.got)
    && s.next == Sum(Claimed(s.sent, s.ppc))
  }

  // ------------------------------------------------------------------
  // Consequences used throughout.
  // ------------------------------------------------------------------

  /** Transitive gating: some gating barrier is at or behind any given consumer's. */
  lemma {:induction false} SomeGateBehind(cfg: Config, s: State, c: nat) returns (i: nat)
    requires Inv(cfg, s) && c < |cfg.deps|
    ensures i < |cfg.gate| && s.barrier[cfg.gate[i]] <= s.barrier[c]
    decreases |cfg.deps| - c
  {
    assert cfg.Gated(c);
    if c in cfg.gate {
      i :| 0 <= i < |cfg.gate| && cfg.gate[i] == c;
    } else {
      var d: nat :| c < d < |cfg.deps| && c in cfg.deps[d];
      i := SomeGateBehind(cfg, s, d);
      assert ConsOk(cfg, s.owner, s.sent, s.barrier, d, s.pos[d], s.cpc[d]);
    }
  }

  /** So a claim that keeps within n of the gate keeps within n of every consumer. */
  lemma UnderMeansAll(cfg: Config, s: State, x: int, c: nat)
    requires Inv(cfg, s) && c < |cfg.deps| && Under(cfg, s.barrier, x)
    ensures x - cfg.n <= s.barrier[c]
  {
    var i := SomeGateBehind(cfg, s, c);
  }

  /** Published sequences keep within n of every consumer. */
  lemma PublishedIsNear(cfg: Config, s: State, x: int, c: nat)
    requires Inv(cfg, s) && c < |cfg.deps| && 0 <= x && Pub(s.owner, s.sent, x)
    ensures x - cfg.n <= s.barrier[c]
  {
    UnderMeansAll(cfg, s, s.pub[Slot(cfg.n, x)], c);
  }

  /** A held sequence is not published. */
  lemma HeldIsUnpublished(cfg: Config, s: State, p: nat, x: int)
    requires Inv(cfg, s) && p < |s.ppc| && Lo(s.ppc[p]) <= x < Hi(s.ppc[p])
    ensures 0 <= x < |s.owner| && !Pub(s.owner, s.sent, x)
  {
  }

  /** The slot of a granted, unpublished sequence x holds exactly x - n. */
  lemma GrantedSlot(cfg: Config, s: State, p: nat, x: int)
    requires Inv(cfg, s) && p < |s.ppc| && Granted(s.ppc[p]) && Lo(s.ppc[p]) <= x < Hi(s.ppc[p])
    ensures s.pub[Slot(cfg.n, x)] == x - cfg.n
  {
    var n := cfg.n;
    HeldIsUnpublished(cfg, s, p, x);
    var q := s.pub[Slot(n, x)];
    assert SlotOk(n, s.owner, s.sent, Slot(n, x), q);
    SameSlot(n, q, x);
    SlotPeriod(n, x);
    var g := cfg.gate[0];
    assert Under(cfg, s.barrier, Hi(s.ppc[p]) - 1);
    assert x - n <= s.barrier[g];
    assert ConsOk(cfg, s.owner, s.sent, s.barrier, g, s.pos[g], s.cpc[g]);
    assert Pub(s.owner, s.sent, x - n);
    if q < x - n {
      SameSlot(n, q, x - n);
    }
  }

  /** No other granted, unpublished sequence shares its slot. */
  lemma GrantedSlotsDistinct(cfg: Config, s: State, p: nat, x: int, p': nat, x': int)
    requires Inv(cfg, s)
    requires p < |s.ppc| && Granted(s.ppc[p]) && Lo(s.ppc[p]) <= x < Hi(s.ppc[p])
    requires p' < |s.ppc| && Granted(s.ppc[p']) && Lo(s.ppc[p']) <= x' < Hi(s.ppc[p'])
    requires Slot(cfg.n, x) == Slot(cfg.n, x')
    ensures x == x' && p == p'
  {
    GrantedSlot(cfg, s, p, x);
    GrantedSlot(cfg, s, p', x');
    assert ClaimOk(s.owner, s.sent[p], p, s.ppc[p]);
    assert ClaimOk(s.owner, s.sent[p'], p', s.ppc[p']);
  }

  /** A published sequence in the slot of a granted, unpublished one is released by all. */
  lemma GrantedSlotReleased(cfg: Config, s: State, p: nat, x: int, y: int, c: nat)
    requires Inv(cfg, s) && c < |cfg.deps|
    requires p < |s.ppc| && Granted(s.ppc[p]) && Lo(s.ppc[p]) <= x < Hi(s.ppc[p])
    requires 0 <= y && Pub(s.owner, s.sent, y) && Slot(cfg.n, x) == Slot(cfg.n, y)
    ensures y <= s.barrier[c]
  {
    GrantedSlot(cfg, s, p, x);
    assert Under(cfg, s.barrier, Hi(s.ppc[p]) - 1);
    UnderMeansAll(cfg, s, Hi(s.ppc[p]) - 1, c);
  }
}
