/** Every step of the ideal protocol keeps the invariant. */
module Preservation {
  import opened Sequences
  import opened Slots
  import opened Sums
  import opened Protocol
  import opened Invariant

  lemma InitInv(cfg: Config)
    requires cfg.Valid()
    ensures Inv(cfg, Init(Ideal, cfg))
  {
    var s := Init(Ideal, cfg);
    var n := cfg.n;
    forall i | 0 <= i < n
      ensures SlotOk(n, s.owner, s.sent, i, s.pub[i]) && Under(cfg, s.barrier, s.pub[i])
    {
      SlotPeriod(n, i);
      ModOf(n, 0, i, i);
    }
    SumZeros(Claimed(s.sent, s.ppc));
  }

  // ------------------------------------------------------------------
  // Producer steps that touch no shared memory but read it.
  // ------------------------------------------------------------------

  /** The claim a producer holds is the same before and after. */
  predicate SameClaim(pc: ProducerPc, pc': ProducerPc) {
    && Hi(pc') - Lo(pc') == Hi(pc) - Lo(pc) && 0 <= Lo(pc')
    && (Lo(pc') == Lo(pc) || (Hi(pc) == Lo(pc) && Lo(pc') == 0))
  }

  lemma LocalStep(cfg: Config, s: State, p: nat, pc: ProducerPc)
    requires Inv(cfg, s) && p < |s.ppc| && PcOk(cfg, p, s.sent[p], pc)
    requires SameClaim(s.ppc[p], pc)
    requires Granted(pc) ==> Under(cfg, s.barrier, Hi(pc) - 1)
    requires ScanOk(cfg, s.next, s.barrier, pc)
    requires FilledOk(cfg, s.owner, s.ring, pc)
    ensures Inv(cfg, SetPc(cfg, s, p, pc))
  {
    SameClaims(cfg, s.next, s.owner, s.sent, s.ppc, p, pc);
    OtherGrants(cfg, s.pub, s.barrier, s.ppc, p, pc);
    LaterScans(cfg, s.next, s.barrier, s.ppc, p, 0, pc);
  }

  lemma WaitInv(cfg: Config, s: State, p: nat)
    requires Inv(cfg, s) && p < |s.ppc| && s.ppc[p].PWait?
    ensures Inv(cfg, ProducerStep(Ideal, cfg, s, p, false).value)
  {
    var pc := s.ppc[p];
    assert PcOk(cfg, p, s.sent[p], pc) && ScanOk(cfg, s.next, s.barrier, pc) && ClaimOk(s.owner, s.sent[p], p, pc);
    LocalStep(cfg, s, p, AfterWait(Ideal, cfg, s, pc));
  }

  lemma ScanInv(cfg: Config, s: State, p: nat)
    requires Inv(cfg, s) && p < |s.ppc| && s.ppc[p].PScan?
    ensures Inv(cfg, ProducerStep(Ideal, cfg, s, p, false).value)
  {
    var pc := s.ppc[p];
    assert PcOk(cfg, p, s.sent[p], pc) && ScanOk(cfg, s.next, s.barrier, pc);
    LocalStep(cfg, s, p, AfterScan(Ideal, cfg, s, pc));
  }

  lemma TimedWaitInv(cfg: Config, s: State, p: nat, timeout: bool)
    requires Inv(cfg, s) && p < |s.ppc| && s.ppc[p].PTimedWait?
    ensures Inv(cfg, ProducerStep(Ideal, cfg, s, p, timeout).value)
  {
    var pc := s.ppc[p];
    assert PcOk(cfg, p, s.sent[p], pc) && ScanOk(cfg, s.next, s.barrier, pc);
    LocalStep(cfg, s, p, AfterTimedWait(Ideal, cfg, s, pc, timeout));
  }

  // ------------------------------------------------------------------
  // Claims: fetch_add and a successful compare-exchange.
  // ------------------------------------------------------------------

  lemma ClaimStep(cfg: Config, s: State, p: nat, count: nat, pc: ProducerPc)
    requires Inv(cfg, s) && p < |s.ppc| && PcOk(cfg, p, s.sent[p], pc) && 1 <= count <= |cfg.script[p]| - s.sent[p]
    requires Lo(s.ppc[p]) == Hi(s.ppc[p])
    requires Lo(pc) == s.next && Hi(pc) == s.next + count
    requires Granted(pc) ==> Under(cfg, s.barrier, Hi(pc) - 1)
    requires ScanOk(cfg, s.next + count, s.barrier, pc)
    requires FilledOk(cfg, s.owner, s.ring, pc)
    ensures Inv(cfg, Advance(Ideal, cfg, s, p, count, pc))
  {
    var t := Advance(Ideal, cfg, s, p, count, pc);
    var block := Block(p, s.sent[p], count);
    ClaimKeepsClaims(cfg, s.next, s.owner, s.sent, s.ppc, p, count, pc);
    ClaimKeepsSlots(cfg.n, s.owner, s.sent, s.pub, block);
    PubGrows(s.owner, block, s.sent);
    MorePublished(cfg, s.owner, s.sent, s.owner + block, s.sent, s.barrier, s.pos, s.cpc);
    ClaimKeepsRing(cfg, s.owner, s.sent, s.ppc, s.ring, s.barrier, p, count, pc);
    LaterScans(cfg, s.next, s.barrier, s.ppc, p, count, pc);
    OtherGrants(cfg, s.pub, s.barrier, s.ppc, p, pc);
    LongerLog(cfg, s.owner, block, s.pos, s.got);
    ClaimedMore(s.sent, s.ppc, p, pc, count);
  }

  lemma PubGrows(owner: seq<(nat, nat)>, block: seq<(nat, nat)>, sent: seq<nat>)
    ensures forall x :: Pub(owner, sent, x) ==> Pub(owner + block, sent, x)
  {
  }

  lemma OtherGrants(cfg: Config, pub: seq<int>, barrier: seq<int>, ppc: seq<ProducerPc>, p: nat, pc: ProducerPc)
    requires cfg.Shape() && |barrier| == |cfg.deps| && p < |ppc| && GateInv(cfg, pub, barrier, ppc)
    requires Granted(pc) ==> Under(cfg, barrier, Hi(pc) - 1)
    ensures GateInv(cfg, pub, barrier, ppc[p := pc])
  {
  }

  lemma LongerLog(cfg: Config, owner: seq<(nat, nat)>, block: seq<(nat, nat)>, pos: seq<int>, got: seq<seq<int>>)
    requires ReadsInv(cfg, owner, pos, got)
    ensures ReadsInv(cfg, owner + block, pos, got)
  {
  }

  lemma ClaimedMore(sent: seq<nat>, ppc: seq<ProducerPc>, p: nat, pc: ProducerPc, count: nat)
    requires p < |ppc| == |sent| && Lo(ppc[p]) == Hi(ppc[p]) && Hi(pc) - Lo(pc) == count
    ensures Sum(Claimed(sent, ppc[p := pc])) == Sum(Claimed(sent, ppc)) + count
  {
    SumUpdate(Claimed(sent, ppc), p, sent[p] + count);
    assert Claimed(sent, ppc[p := pc]) == Claimed(sent, ppc)[p := sent[p] + count];
  }

  lemma ClaimKeepsClaims(cfg: Config, next: int, owner: seq<(nat, nat)>, sent: seq<nat>, ppc: seq<ProducerPc>,
                         p: nat, count: nat, pc: ProducerPc)
    requires ClaimsInv(cfg, next, owner, sent, ppc) && p < |ppc| && 1 <= count <= |cfg.script[p]| - sent[p]
    requires Lo(ppc[p]) == Hi(ppc[p]) && Lo(pc) == next && Hi(pc) == next + count
    ensures ClaimsInv(cfg, next + count, owner + Block(p, sent[p], count), sent, ppc[p := pc])
  {
  }

  lemma ClaimKeepsSlots(n: int, owner: seq<(nat, nat)>, sent: seq<nat>, pub: seq<int>, block: seq<(nat, nat)>)
    requires n > 0 && SlotsInv(n, owner, sent, pub)
    requires forall i :: 0 <= i < |block| ==> block[i].0 < |sent| && block[i].1 >= sent[block[i].0]
    ensures SlotsInv(n, owner + block, sent, pub)
  {
  }

  /** Consumers lose nothing when more is published. */
  lemma MorePublished(cfg: Config, owner: seq<(nat, nat)>, sent: seq<nat>, owner': seq<(nat, nat)>, sent': seq<nat>,
                      barrier: seq<int>, pos: seq<int>, cpc: seq<ConsumerPc>)
    requires cfg.Shape() && |barrier| == |cfg.deps| && ConsInv(cfg, owner, sent, barrier, pos, cpc)
    requires forall x :: Pub(owner, sent, x) ==> Pub(owner', sent', x)
    ensures ConsInv(cfg, owner', sent', barrier, pos, cpc)
  {
  }

  lemma ClaimKeepsRing(cfg: Config, owner: seq<(nat, nat)>, sent: seq<nat>, ppc: seq<ProducerPc>, ring: seq<int>,
      barrier: seq<int>,
                       p: nat, count: nat, pc: ProducerPc)
    requires cfg.n > 0 && p < |ppc| == |sent| && RingInv(cfg, owner, sent, ppc, ring, barrier)
    requires FilledOk(cfg, owner, ring, pc)
    ensures RingInv(cfg, owner + Block(p, sent[p], count), sent, ppc[p := pc], ring, barrier)
  {
    var owner', ppc' := owner + Block(p, sent[p], count), ppc[p := pc];
    forall q: nat | q < |ppc'|
      ensures FilledOk(cfg, owner', ring, ppc'[q])
    {
      assert FilledOk(cfg, owner, ring, ppc[q]);
      assert forall x :: Holds(cfg, owner, ring, x) ==> Holds(cfg, owner', ring, x);
    }
    forall c, x | 0 <= c < |barrier| && barrier[c] < x && 0 <= x && Pub(owner', sent, x)
      ensures Holds(cfg, owner', ring, x)
    {
      assert Pub(owner, sent, x);
    }
  }

  lemma LaterScans(cfg: Config, next: int, barrier: seq<int>, ppc: seq<ProducerPc>, p: nat, count: nat, pc: ProducerPc)
    requires cfg.Shape() && |barrier| == |cfg.deps| && p < |ppc| && ScansInv(cfg, next, barrier, ppc)
    requires ScanOk(cfg, next + count, barrier, pc)
    ensures ScansInv(cfg, next + count, barrier, ppc[p := pc])
  {
  }

  /** `claim` and `claim_one`. */
  lemma FetchAddInv(cfg: Config, s: State, p: nat, count: nat)
    requires Inv(cfg, s) && Step(Ideal, cfg, s, Claim(p, count)).Some?
    ensures Inv(cfg, Step(Ideal, cfg, s, Claim(p, count)).value)
  {
    var taken := Min(count, cfg.n);
    ClaimStep(cfg, s, p, taken, PWait(s.next, taken, 0, 0));
  }

  /** `try_claim` and `try_claim_until`: the check and the compare-exchange. */
  lemma CasInv(cfg: Config, s: State, p: nat, weakFailure: bool)
    requires Inv(cfg, s) && p < |s.ppc| && s.ppc[p].PCas?
    ensures Inv(cfg, CasStep(Ideal, cfg, s, p, weakFailure))
  {
    var room := s.ppc[p].limit - s.ppc[p].seen;
    if room >= 0 && s.next == s.ppc[p].seen && !weakFailure {
      CasSucceedsInv(cfg, s, p);
    } else {
      CasFailsInv(cfg, s, p, weakFailure);
    }
  }

  lemma CasSucceedsInv(cfg: Config, s: State, p: nat)
    requires Inv(cfg, s) && p < |s.ppc| && s.ppc[p].PCas?
    requires s.ppc[p].limit >= s.ppc[p].seen == s.next
    ensures Inv(cfg, CasStep(Ideal, cfg, s, p, false))
  {
    var PCas(want, timed, count, limit, seen) := s.ppc[p];
    assert PcOk(cfg, p, s.sent[p], s.ppc[p]) && ScanOk(cfg, s.next, s.barrier, s.ppc[p]);
    var take := Take(count, limit - seen);
    var pc := PWrite(seen, take, 0);
    assert CasStep(Ideal, cfg, s, p, false) == Advance(Ideal, cfg, s, p, take, pc);
    TakeFits(cfg, s, limit);
    ClaimStep(cfg, s, p, take, pc);
  }

  lemma CasFailsInv(cfg: Config, s: State, p: nat, weakFailure: bool)
    requires Inv(cfg, s) && p < |s.ppc| && s.ppc[p].PCas?
    requires s.ppc[p].limit < s.ppc[p].seen || s.next != s.ppc[p].seen || weakFailure
    ensures Inv(cfg, CasStep(Ideal, cfg, s, p, weakFailure))
  {
    var PCas(want, timed, count, limit, seen) := s.ppc[p];
    assert PcOk(cfg, p, s.sent[p], s.ppc[p]) && ScanOk(cfg, s.next, s.barrier, s.ppc[p]);
    var pc := if limit < seen then if timed then PTimedWait(want, seen, 0, 0) else PIdle
              else PCas(want, timed, if timed then count else Take(count, limit - seen), limit, s.next);
    assert CasStep(Ideal, cfg, s, p, weakFailure) == SetPc(cfg, s, p, pc);
    LocalStep(cfg, s, p, pc);
  }

  /** The room a compare-exchange that succeeds has seen is at most the whole buffer. */
  lemma TakeFits(cfg: Config, s: State, limit: int)
    requires Inv(cfg, s) && Under(cfg, s.barrier, limit)
    ensures limit - s.next + 1 <= cfg.n
  {
    var g := cfg.gate[0];
    assert ConsOk(cfg, s.owner, s.sent, s.barrier, g, s.pos[g], s.cpc[g]);
    assert Pub(s.owner, s.sent, s.barrier[g]);
  }

  // ------------------------------------------------------------------
  // Writing a slot.
  // ------------------------------------------------------------------

  lemma WriteInv(cfg: Config, s: State, p: nat)
    requires Inv(cfg, s) && p < |s.ppc| && s.ppc[p].PWrite?
    ensures Inv(cfg, WriteStep(Ideal, cfg, s, p))
  {
    var t := WriteStep(Ideal, cfg, s, p);
    WriteKeepsRing(cfg, s, p);
    assert PcOk(cfg, p, s.sent[p], s.ppc[p]) && ScanOk(cfg, s.next, s.barrier, s.ppc[p]);
    assert ClaimOk(s.owner, s.sent[p], p, s.ppc[p]);
    SameClaims(cfg, s.next, s.owner, s.sent, s.ppc, p, t.ppc[p]);
    OtherGrants(cfg, s.pub, s.barrier, s.ppc, p, t.ppc[p]);
    LaterScans(cfg, s.next, s.barrier, s.ppc, p, 0, t.ppc[p]);
  }

  lemma SameClaims(cfg: Config, next: int, owner: seq<(nat, nat)>, sent: seq<nat>, ppc: seq<ProducerPc>, p: nat,
      pc: ProducerPc)
    requires ClaimsInv(cfg, next, owner, sent, ppc) && p < |ppc| && SameClaim(ppc[p], pc)
    ensures ClaimsInv(cfg, next, owner, sent, ppc[p := pc])
    ensures Claimed(sent, ppc[p := pc]) == Claimed(sent, ppc)
  {
  }

  lemma WriteKeepsRing(cfg: Config, s: State, p: nat)
    requires Inv(cfg, s) && p < |s.ppc| && s.ppc[p].PWrite?
    ensures var t := WriteStep(Ideal, cfg, s, p);
            RingInv(cfg, t.owner, t.sent, t.ppc, t.ring, t.barrier)
  {
    var t := WriteStep(Ideal, cfg, s, p);
    var x := s.ppc[p].first + s.ppc[p].k;
    WriteHolds(cfg, s, p);
    forall q: nat | q < |t.ppc|
      ensures FilledOk(cfg, t.owner, t.ring, t.ppc[q])
    {
      WriteKeepsFilled(cfg, s, p, q);
    }
    forall c: nat, y | c < |s.barrier| && s.barrier[c] < y && 0 <= y && Pub(s.owner, s.sent, y)
      ensures Holds(cfg, t.owner, t.ring, y)
    {
      if Slot(cfg.n, x) == Slot(cfg.n, y) {
        GrantedSlotReleased(cfg, s, p, x, y, c);
      }
      assert Holds(cfg, s.owner, s.ring, y);
    }
  }

  /** The write fills the slot of x = first + k and keeps the slot of any other y. */
  lemma WriteHolds(cfg: Config, s: State, p: nat)
    requires Inv(cfg, s) && p < |s.ppc| && s.ppc[p].PWrite?
    ensures var t, x := WriteStep(Ideal, cfg, s, p), s.ppc[p].first + s.ppc[p].k;
            && Lo(s.ppc[p]) <= x < Hi(s.ppc[p])
            && Holds(cfg, t.owner, t.ring, x)
            && forall y :: Holds(cfg, s.owner, s.ring, y) && Slot(cfg.n, y) != Slot(cfg.n, x) ==>
                 Holds(cfg, t.owner, t.ring, y)
  {
  }

  lemma WriteKeepsFilled(cfg: Config, s: State, p: nat, q: nat)
    requires Inv(cfg, s) && p < |s.ppc| && s.ppc[p].PWrite? && q < |s.ppc|
    ensures var t := WriteStep(Ideal, cfg, s, p);
            FilledOk(cfg, t.owner, t.ring, t.ppc[q])
  {
    var t, x := WriteStep(Ideal, cfg, s, p), s.ppc[p].first + s.ppc[p].k;
    assert PcOk(cfg, q, s.sent[q], s.ppc[q]) && FilledOk(cfg, s.owner, s.ring, s.ppc[q]);
    if Granted(s.ppc[q]) {
      WriteKeepsOthers(cfg, s, p, q, x);
      if q == p {
        WriteHolds(cfg, s, p);
        OwnStaysFilled(cfg, s.owner, s.ring, t.ring, s.ppc[p], t.ppc[p]);
      } else {
        OtherStaysFilled(cfg, s.owner, s.ring, t.ring, s.ppc[q]);
      }
    }
  }

  lemma OwnStaysFilled(cfg: Config, owner: seq<(nat, nat)>, ring: seq<int>, ring': seq<int>, pc: ProducerPc,
      pc': ProducerPc)
    requires cfg.n > 0 && |ring| == |ring'| == cfg.n && pc.PWrite? && pc.k < pc.count && FilledOk(cfg, owner, ring, pc)
    requires Holds(cfg, owner, ring', pc.first + pc.k)
    requires forall y :: Lo(pc) <= y < Hi(pc) && y != pc.first + pc.k && Holds(cfg, owner, ring, y) ==>
               Holds(cfg, owner, ring', y)
    requires pc' == if pc.k + 1 < pc.count then PWrite(pc.first, pc.count, pc.k + 1)
                    else PPublish(pc.first, pc.count, 0)
    ensures FilledOk(cfg, owner, ring', pc')
  {
  }

  lemma OtherStaysFilled(cfg: Config, owner: seq<(nat, nat)>, ring: seq<int>, ring': seq<int>, pc: ProducerPc)
    requires cfg.n > 0 && |ring| == |ring'| == cfg.n && Granted(pc) && FilledOk(cfg, owner, ring, pc)
    requires pc.k <= pc.count
    requires forall y :: Lo(pc) <= y < Hi(pc) && Holds(cfg, owner, ring, y) ==> Holds(cfg, owner, ring', y)
    ensures FilledOk(cfg, owner, ring', pc)
  {
  }

  lemma WriteKeepsOthers(cfg: Config, s: State, p: nat, q: nat, x: int)
    requires Inv(cfg, s) && p < |s.ppc| && s.ppc[p].PWrite? && x == s.ppc[p].first + s.ppc[p].k
    requires q < |s.ppc| && Granted(s.ppc[q])
    ensures var t := WriteStep(Ideal, cfg, s, p);
            forall y :: Lo(s.ppc[q]) <= y < Hi(s.ppc[q]) && (y, q) != (x, p) && Holds(cfg, s.owner, s.ring, y) ==>
              Holds(cfg, t.owner, t.ring, y)
  {
    var t := WriteStep(Ideal, cfg, s, p);
    WriteHolds(cfg, s, p);
    forall y | Lo(s.ppc[q]) <= y < Hi(s.ppc[q]) && (y, q) != (x, p) && Holds(cfg, s.owner, s.ring, y)
      ensures Holds(cfg, t.owner, t.ring, y)
    {
      if Slot(cfg.n, x) == Slot(cfg.n, y) {
        GrantedSlotsDistinct(cfg, s, p, x, q, y);
      }
    }
  }

  // ------------------------------------------------------------------
  // Publishing.
  // ------------------------------------------------------------------

  /** One store of `set_published` publishes exactly x. */
  lemma PublishesOne(cfg: Config, s: State, p: nat)
    requires Inv(cfg, s) && p < |s.ppc| && s.ppc[p].PPublish? && s.ppc[p].k < s.ppc[p].count
    ensures var x, sent := s.ppc[p].first + s.ppc[p].k, s.sent[p := s.sent[p] + 1];
            && 0 <= x < |s.owner| && !Pub(s.owner, s.sent, x)
            && forall y :: Pub(s.owner, sent, y) <==> Pub(s.owner, s.sent, y) || y == x
  {
  }

  lemma PublishStepIs(cfg: Config, s: State, p: nat)
    requires Shape(cfg, s) && p < |s.ppc| && s.ppc[p].PPublish?
    ensures var PPublish(first, count, k) := s.ppc[p];
            PublishStep(Ideal, cfg, s, p) ==
              if k < count then
                s.(pub := s.pub[Slot(cfg.n, first + k) := first + k], sent := s.sent[p := s.sent[p] + 1],
                   ppc := s.ppc[p := PPublish(first, count, k + 1)])
              else s.(ppc := s.ppc[p := PIdle])
  {
    assert PcOk(cfg, p, s.sent[p], s.ppc[p]);
  }

  lemma PublishInv(cfg: Config, s: State, p: nat)
    requires Inv(cfg, s) && p < |s.ppc| && s.ppc[p].PPublish?
    ensures Inv(cfg, PublishStep(Ideal, cfg, s, p))
  {
    assert PcOk(cfg, p, s.sent[p], s.ppc[p]);
    PublishStepIs(cfg, s, p);
    if s.ppc[p].k < s.ppc[p].count {
      StorePublishedInv(cfg, s, p, PublishStep(Ideal, cfg, s, p));
    } else {
      SignalInv(cfg, s, p, PublishStep(Ideal, cfg, s, p));
    }
  }

  lemma SignalInv(cfg: Config, s: State, p: nat, t: State)
    requires Inv(cfg, s) && p < |s.ppc| && s.ppc[p].PPublish? && s.ppc[p].k == s.ppc[p].count
    requires t == s.(ppc := s.ppc[p := PIdle])
    ensures Inv(cfg, t)
  {
    assert PcOk(cfg, p, s.sent[p], s.ppc[p]);
    LocalStep(cfg, s, p, PIdle);
  }

  lemma StorePublishedInv(cfg: Config, s: State, p: nat, t: State)
    requires Inv(cfg, s) && p < |s.ppc| && s.ppc[p].PPublish? && s.ppc[p].k < s.ppc[p].count && Shape(cfg, t)
    requires var PPublish(first, count, k) := s.ppc[p];
             t == s.(pub := s.pub[Slot(cfg.n, first + k) := first + k], sent := s.sent[p := s.sent[p] + 1],
                     ppc := s.ppc[p := PPublish(first, count, k + 1)])
    ensures Inv(cfg, t)
  {
    PublishKeepsProducers(cfg, s, p);
    PublishKeepsConsumers(cfg, s, p);
    PublishKeepsRing(cfg, s, p);
  }

  lemma PublishKeepsProducers(cfg: Config, s: State, p: nat)
    requires Inv(cfg, s) && p < |s.ppc| && s.ppc[p].PPublish? && s.ppc[p].k < s.ppc[p].count
    ensures var PPublish(first, count, k) := s.ppc[p];
            var pub, sent := s.pub[Slot(cfg.n, first + k) := first + k], s.sent[p := s.sent[p] + 1];
            var ppc := s.ppc[p := PPublish(first, count, k + 1)];
            && ClaimsInv(cfg, s.next, s.owner, sent, ppc)
            && SlotsInv(cfg.n, s.owner, sent, pub)
            && GateInv(cfg, pub, s.barrier, ppc)
            && ScansInv(cfg, s.next, s.barrier, ppc)
            && s.next == Sum(Claimed(sent, ppc))
  {
    PublishKeepsClaims(cfg, s.next, s.owner, s.sent, s.ppc, p);
    PublishKeepsSlots(cfg, s, p);
    PublishKeepsLoads(cfg, s, p);
  }

  lemma PublishKeepsLoads(cfg: Config, s: State, p: nat)
    requires Inv(cfg, s) && p < |s.ppc| && s.ppc[p].PPublish? && s.ppc[p].k < s.ppc[p].count
    ensures var PPublish(first, count, k) := s.ppc[p];
            var pub, ppc := s.pub[Slot(cfg.n, first + k) := first + k], s.ppc[p := PPublish(first, count, k + 1)];
            GateInv(cfg, pub, s.barrier, ppc) && ScansInv(cfg, s.next, s.barrier, ppc)
  {
    PublishKeepsGate(cfg, s, p);
    PublishKeepsScans(cfg, s.next, s.barrier, s.ppc, p);
  }

  lemma PublishKeepsScans(cfg: Config, next: int, barrier: seq<int>, ppc: seq<ProducerPc>, p: nat)
    requires cfg.Shape() && |barrier| == |cfg.deps| && p < |ppc| && ScansInv(cfg, next, barrier, ppc)
             && ppc[p].PPublish?
    ensures ScansInv(cfg, next, barrier, ppc[p := PPublish(ppc[p].first, ppc[p].count, ppc[p].k + 1)])
  {
  }

  lemma PublishKeepsConsumers(cfg: Config, s: State, p: nat)
    requires Inv(cfg, s) && p < |s.ppc| && s.ppc[p].PPublish? && s.ppc[p].k < s.ppc[p].count
    ensures ConsInv(cfg, s.owner, s.sent[p := s.sent[p] + 1], s.barrier, s.pos, s.cpc)
  {
    PublishesOne(cfg, s, p);
    MorePublished(cfg, s.owner, s.sent, s.owner, s.sent[p := s.sent[p] + 1], s.barrier, s.pos, s.cpc);
  }

  lemma PublishKeepsClaims(cfg: Config, next: int, owner: seq<(nat, nat)>, sent: seq<nat>, ppc: seq<ProducerPc>, p: nat)
    requires ClaimsInv(cfg, next, owner, sent, ppc) && p < |ppc| && ppc[p].PPublish? && ppc[p].k < ppc[p].count
    ensures var pc := PPublish(ppc[p].first, ppc[p].count, ppc[p].k + 1);
            && ClaimsInv(cfg, next, owner, sent[p := sent[p] + 1], ppc[p := pc])
            && Claimed(sent[p := sent[p] + 1], ppc[p := pc]) == Claimed(sent, ppc)
  {
  }

  lemma PublishKeepsSlots(cfg: Config, s: State, p: nat)
    requires Inv(cfg, s) && p < |s.ppc| && s.ppc[p].PPublish? && s.ppc[p].k < s.ppc[p].count
    ensures var x := s.ppc[p].first + s.ppc[p].k;
            SlotsInv(cfg.n, s.owner, s.sent[p := s.sent[p] + 1], s.pub[Slot(cfg.n, x) := x])
  {
    var n, x := cfg.n, s.ppc[p].first + s.ppc[p].k;
    PublishesOne(cfg, s, p);
    GrantedSlot(cfg, s, p, x);
    SlotsAfterPublish(n, s.owner, s.sent, s.sent[p := s.sent[p] + 1], s.pub, x);
  }

  lemma SlotsAfterPublish(n: int, owner: seq<(nat, nat)>, sent: seq<nat>, sent': seq<nat>, pub: seq<int>, x: int)
    requires n > 0 && SlotsInv(n, owner, sent, pub) && 0 <= x < |owner|
    requires pub[Slot(n, x)] == x - n
    requires forall y :: Pub(owner, sent', y) <==> Pub(owner, sent, y) || y == x
    ensures SlotsInv(n, owner, sent', pub[Slot(n, x) := x])
  {
    var pub' := pub[Slot(n, x) := x];
    forall i | 0 <= i < n
      ensures SlotOk(n, owner, sent', i, pub'[i])
    {
      assert SlotOk(n, owner, sent, i, pub[i]);
    }
    forall y | 0 <= y < |owner|
      ensures Pub(owner, sent', y) <==> y <= pub'[Slot(n, y)]
    {
      if Slot(n, y) == Slot(n, x) && y < x {
        SameSlot(n, y, x);
      }
    }
  }

  lemma PublishKeepsGate(cfg: Config, s: State, p: nat)
    requires Inv(cfg, s) && p < |s.ppc| && s.ppc[p].PPublish? && s.ppc[p].k < s.ppc[p].count
    ensures var PPublish(first, count, k) := s.ppc[p];
            GateInv(cfg, s.pub[Slot(cfg.n, first + k) := first + k], s.barrier,
              s.ppc[p := PPublish(first, count, k + 1)])
  {
  }

  lemma PublishKeepsRing(cfg: Config, s: State, p: nat)
    requires Inv(cfg, s) && p < |s.ppc| && s.ppc[p].PPublish? && s.ppc[p].k < s.ppc[p].count
    ensures var PPublish(first, count, k) := s.ppc[p];
            RingInv(cfg, s.owner, s.sent[p := s.sent[p] + 1], s.ppc[p := PPublish(first, count, k + 1)], s.ring,
              s.barrier)
  {
  }

  // ------------------------------------------------------------------
  // Consumers.
  // ------------------------------------------------------------------

  lemma ConsumerLocal(cfg: Config, s: State, c: nat, pc: ConsumerPc)
    requires Inv(cfg, s) && c < |s.cpc| && CpcOk(cfg, c, pc)
    requires ConsOk(cfg, s.owner, s.sent, s.barrier, c, s.pos[c], pc)
    ensures Inv(cfg, s.(cpc := s.cpc[c := pc]))
  {
  }

  /** What a load of the published array tells about x. */
  lemma SlotTells(n: int, owner: seq<(nat, nat)>, sent: seq<nat>, pub: seq<int>, x: int)
    requires n > 0 && SlotsInv(n, owner, sent, pub) && AllPub(owner, sent, x - 1) && pub[Slot(n, x)] >= x
    ensures AllPub(owner, sent, x)
  {
  }

  lemma LoadOk(cfg: Config, s: State, c: nat)
    requires Inv(cfg, s) && c < |s.cpc| && !s.cpc[c].CIdle? && !s.cpc[c].CRead? && !s.cpc[c].CRelease?
    ensures ConsOk(cfg, s.owner, s.sent, s.barrier, c, s.pos[c], AfterLoad(Ideal, cfg, s, c))
  {
    assert ConsOk(cfg, s.owner, s.sent, s.barrier, c, s.pos[c], s.cpc[c]);
    if s.cpc[c].CWait? {
      WaitLoadOk(cfg, s, c);
    } else {
      PublishedLoadOk(cfg, s, c);
    }
  }

  lemma PublishedLoadOk(cfg: Config, s: State, c: nat)
    requires Shape(cfg, s) && c < |s.cpc| && (s.cpc[c].CCheck? || s.cpc[c].CSpin? || s.cpc[c].CExtend?)
    requires SlotsInv(cfg.n, s.owner, s.sent, s.pub) && ConsOk(cfg, s.owner, s.sent, s.barrier, c, s.pos[c], s.cpc[c])
    ensures ConsOk(cfg, s.owner, s.sent, s.barrier, c, s.pos[c], AfterLoad(Ideal, cfg, s, c))
  {
    var x := if s.cpc[c].CExtend? then s.cpc[c].last + 1 else s.cpc[c].sq;
    if s.pub[Slot(cfg.n, x)] >= x {
      SlotTells(cfg.n, s.owner, s.sent, s.pub, x);
    }
  }

  lemma WaitLoadOk(cfg: Config, s: State, c: nat)
    requires Inv(cfg, s) && c < |s.cpc| && s.cpc[c].CWait?
    ensures ConsOk(cfg, s.owner, s.sent, s.barrier, c, s.pos[c], AfterLoad(Ideal, cfg, s, c))
  {
    assert ConsOk(cfg, s.owner, s.sent, s.barrier, c, s.pos[c], s.cpc[c]);
    var d := cfg.deps[c][0];
    assert ConsOk(cfg, s.owner, s.sent, s.barrier, d, s.pos[d], s.cpc[d]);
    assert AllPub(s.owner, s.sent, s.barrier[d]);
    WaitAdvances(cfg, s.owner, s.sent, s.barrier, c, s.pos[c], s.cpc[c]);
  }

  lemma WaitAdvances(cfg: Config, owner: seq<(nat, nat)>, sent: seq<nat>, barrier: seq<int>, c: nat, pos: int,
      pc: ConsumerPc)
    requires cfg.Shape() && c < |barrier| == |cfg.deps| && pc.CWait?
    requires ConsOk(cfg, owner, sent, barrier, c, pos, pc) && AllPub(owner, sent, barrier[cfg.deps[c][0]])
    ensures var CWait(target, i, minDelta) := pc;
            match ScanLoad(Ideal, barrier[cfg.deps[c][i]], target, i, |cfg.deps[c]|, minDelta)
            case Failed => ConsOk(cfg, owner, sent, barrier, c, pos, CWait(target, 0, 0))
            case More(delta) => ConsOk(cfg, owner, sent, barrier, c, pos, CWait(target, i + 1, delta))
            case Passed(result) => ConsOk(cfg, owner, sent, barrier, c, pos, CRead(result))
  {
  }

  lemma ReadInv(cfg: Config, s: State, c: nat)
    requires Inv(cfg, s) && c < |s.cpc| && s.cpc[c].CRead?
    ensures Inv(cfg, ConsumerStep(Ideal, cfg, s, c).value)
  {
    var t := ConsumerStep(Ideal, cfg, s, c).value;
    assert ConsOk(cfg, s.owner, s.sent, s.barrier, c, s.pos[c], s.cpc[c]);
    assert Pub(s.owner, s.sent, s.pos[c]);
    assert Holds(cfg, s.owner, s.ring, s.pos[c]);
    assert ReadOk(cfg, s.owner, s.pos[c], s.got[c]);
    assert ReadOk(cfg, t.owner, t.pos[c], t.got[c]);
  }

  lemma ReleaseInv(cfg: Config, s: State, c: nat)
    requires Inv(cfg, s) && c < |s.cpc| && s.cpc[c].CRelease?
    ensures Inv(cfg, ConsumerStep(Ideal, cfg, s, c).value)
  {
    var t := ConsumerStep(Ideal, cfg, s, c).value;
    assert ConsOk(cfg, s.owner, s.sent, s.barrier, c, s.pos[c], s.cpc[c]);
    var available := s.cpc[c].available;
    assert s.barrier[c] <= available == s.pos[c] - 1;
    assert t == s.(barrier := s.barrier[c := available], cpc := s.cpc[c := CIdle]);
    ReleaseKeepsGate(cfg, s.pub, s.barrier, s.ppc, c, available);
    ReleaseKeepsScans(cfg, s.next, s.barrier, s.ppc, c, available);
    ReleaseKeepsConsumers(cfg, s.owner, s.sent, s.barrier, s.pos, s.cpc, c);
  }

  lemma ReleaseKeepsGate(cfg: Config, pub: seq<int>, barrier: seq<int>, ppc: seq<ProducerPc>, c: nat, b: int)
    requires cfg.Shape() && c < |barrier| == |cfg.deps| && barrier[c] <= b && GateInv(cfg, pub, barrier, ppc)
    ensures GateInv(cfg, pub, barrier[c := b], ppc)
  {
  }

  lemma ReleaseKeepsScans(cfg: Config, next: int, barrier: seq<int>, ppc: seq<ProducerPc>, c: nat, b: int)
    requires cfg.Shape() && c < |barrier| == |cfg.deps| && barrier[c] <= b && ScansInv(cfg, next, barrier, ppc)
    ensures ScansInv(cfg, next, barrier[c := b], ppc)
  {
  }

  lemma ReleaseKeepsConsumers(cfg: Config, owner: seq<(nat, nat)>, sent: seq<nat>, barrier: seq<int>, pos: seq<int>,
      cpc: seq<ConsumerPc>, c: nat)
    requires cfg.Shape() && |barrier| == |cfg.deps| && ConsInv(cfg, owner, sent, barrier, pos, cpc)
    requires c < |cpc| && cpc[c].CRelease?
    ensures ConsInv(cfg, owner, sent, barrier[c := cpc[c].available], pos, cpc[c := CIdle])
  {
  }

  lemma StartWaitInv(cfg: Config, s: State, c: nat, ahead: nat)
    requires Inv(cfg, s) && Step(Ideal, cfg, s, Wait(c, ahead)).Some?
    ensures Inv(cfg, Step(Ideal, cfg, s, Wait(c, ahead)).value)
  {
  }

  // ------------------------------------------------------------------
  // All steps, all runs.
  // ------------------------------------------------------------------

  lemma ProducerInv(cfg: Config, s: State, p: nat, flag: bool)
    requires Inv(cfg, s) && p < |s.ppc| && ProducerStep(Ideal, cfg, s, p, flag).Some?
    ensures Inv(cfg, ProducerStep(Ideal, cfg, s, p, flag).value)
  {
    match s.ppc[p]
    case PWait(_, _, _, _) => WaitInv(cfg, s, p);
    case PScan(_, _, _, _) => ScanInv(cfg, s, p);
    case PLoad(want, timed, limit) => LoadInv(cfg, s, p);
    case PCas(_, _, _, _, _) => CasInv(cfg, s, p, flag);
    case PTimedWait(_, _, _, _) => TimedWaitInv(cfg, s, p, flag);
    case PWrite(_, _, _) => WriteInv(cfg, s, p);
    case PPublish(_, _, _) => PublishInv(cfg, s, p);
  }

  lemma LoadInv(cfg: Config, s: State, p: nat)
    requires Inv(cfg, s) && p < |s.ppc| && s.ppc[p].PLoad?
    ensures Inv(cfg, ProducerStep(Ideal, cfg, s, p, false).value)
  {
    var PLoad(want, timed, limit) := s.ppc[p];
    assert PcOk(cfg, p, s.sent[p], s.ppc[p]) && ScanOk(cfg, s.next, s.barrier, s.ppc[p]);
    LocalStep(cfg, s, p, PCas(want, timed, want, limit, s.next));
  }

  lemma ConsumerInv(cfg: Config, s: State, c: nat)
    requires Inv(cfg, s) && c < |s.cpc| && ConsumerStep(Ideal, cfg, s, c).Some?
    ensures Inv(cfg, ConsumerStep(Ideal, cfg, s, c).value)
  {
    if s.cpc[c].CRead? {
      ReadInv(cfg, s, c);
    } else if s.cpc[c].CRelease? {
      ReleaseInv(cfg, s, c);
    } else {
      LoadOk(cfg, s, c);
      ConsumerLocal(cfg, s, c, AfterLoad(Ideal, cfg, s, c));
    }
  }

  /** Every step of every thread keeps the invariant. */
  lemma StepInv(cfg: Config, s: State, l: Label)
    requires Inv(cfg, s) && Step(Ideal, cfg, s, l).Some?
    ensures Inv(cfg, Step(Ideal, cfg, s, l).value)
  {
    match l
    case Claim(p, count) => FetchAddInv(cfg, s, p, count);
    case Try(p, count, timed) => LocalStep(cfg, s, p, PScan(count, timed, 0, 0));
    case Producer(p, flag) => ProducerInv(cfg, s, p, flag);
    case Wait(c, ahead) => StartWaitInv(cfg, s, c, ahead);
    case Consumer(c) => ConsumerInv(cfg, s, c);
  }

  /** The invariant holds after every run. */
  lemma {:induction false} RunInv(cfg: Config, ls: seq<Label>)
    requires cfg.Valid() && Run(Ideal, cfg, ls).Some?
    ensures Inv(cfg, Run(Ideal, cfg, ls).value)
  {
    if ls == [] {
      InitInv(cfg);
    } else {
      RunInv(cfg, ls[..|ls| - 1]);
      StepInv(cfg, Run(Ideal, cfg, ls[..|ls| - 1]).value, ls[|ls| - 1]);
    }
  }
}
