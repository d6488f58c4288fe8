/** The protocol on 64-bit words takes the same branch as the protocol on unbounded
    sequence numbers, at every step of every run, including runs that pass 2^64. */
module WrapAround {
  import opened Sequences
  import opened Slots
  import opened Protocol
  import opened Invariant
  import opened Preservation
  import opened Safety
  import opened Progress

  const QUARTER: int := 0x4000_0000_0000_0000

  // ------------------------------------------------------------------
  // The machine state that an ideal state stands for.
  // ------------------------------------------------------------------

  function WrapPc(pc: ProducerPc): ProducerPc {
    match pc
    case PIdle => pc
    case PWait(first, count, i, minDelta) => PWait(Wrap(first), count, i, minDelta)
    case PScan(want, timed, i, min) => PScan(want, timed, i, Wrap(min))
    case PLoad(want, timed, limit) => PLoad(want, timed, Wrap(limit))
    case PCas(want, timed, count, limit, seen) => PCas(want, timed, count, Wrap(limit), Wrap(seen))
    case PTimedWait(want, seen, i, minDelta) => PTimedWait(want, Wrap(seen), i, minDelta)
    case PWrite(first, count, k) => PWrite(Wrap(first), count, k)
    case PPublish(first, count, k) => PPublish(Wrap(first), count, k)
  }

  function WrapCpc(pc: ConsumerPc): ConsumerPc {
    match pc
    case CIdle => pc
    case CCheck(target, sq) => CCheck(Wrap(target), Wrap(sq))
    case CSpin(target, sq) => CSpin(Wrap(target), Wrap(sq))
    case CExtend(last) => CExtend(Wrap(last))
    case CWait(target, i, minDelta) => CWait(Wrap(target), i, minDelta)
    case CRead(available) => CRead(Wrap(available))
    case CRelease(available) => CRelease(Wrap(available))
  }

  function WrapAll(xs: seq<int>): (r: seq<int>)
    ensures |r| == |xs|
  {
    seq(|xs|, i requires 0 <= i < |xs| => Wrap(xs[i]))
  }

  function WrapPcs(pcs: seq<ProducerPc>): (r: seq<ProducerPc>)
    ensures |r| == |pcs|
  {
    seq(|pcs|, i requires 0 <= i < |pcs| => WrapPc(pcs[i]))
  }

  function WrapCpcs(pcs: seq<ConsumerPc>): (r: seq<ConsumerPc>)
    ensures |r| == |pcs|
  {
    seq(|pcs|, i requires 0 <= i < |pcs| => WrapCpc(pcs[i]))
  }

  function Wrapped(s: State): State {
    s.(next := Wrap(s.next), ppc := WrapPcs(s.ppc), pub := WrapAll(s.pub), barrier := WrapAll(s.barrier),
       pos := WrapAll(s.pos), cpc := WrapCpcs(s.cpc))
  }

  function WrappedOption(r: Option<State>): Option<State> {
    match r case None => None case Some(s) => Some(Wrapped(s))
  }

  lemma WrappedShape(cfg: Config, s: State)
    requires Shape(cfg, s)
    ensures Shape(cfg, Wrapped(s))
  {
  }

  // ------------------------------------------------------------------
  // The assumptions.
  // ------------------------------------------------------------------

  /** The spread assumption of sequence.hpp, discharged by the counting bound. */
  predicate Fits(cfg: Config) {
    0 < cfg.n && 0 < (|cfg.script| + 2) * cfg.n < QUARTER && cfg.n < QUARTER
  }

  /** Where a step compares a local copy of a non-blocking claim, the difference fits into
      64 signed bits.  (Barriers and the counter are never far behind the copies.) */
  predicate LagOk(cfg: Config, s: State, pc: ProducerPc)
    requires Shape(cfg, s)
  {
    match pc
    case PScan(_, _, i, min) => 0 < i < |cfg.gate| ==> s.barrier[cfg.gate[i]] - min < HALF
    case PCas(_, _, _, limit, seen) => s.next - seen < WORD && -HALF <= limit - seen < HALF
    case PTimedWait(_, seen, i, _) => i < |cfg.gate| ==> s.barrier[cfg.gate[i]] - (seen - cfg.n) < HALF
    case _ => true
  }

  /** The same, with 2^64 for 2^63. */
  predicate WithinWord(cfg: Config, s: State, pc: ProducerPc)
    requires Shape(cfg, s)
  {
    match pc
    case PScan(_, _, i, min) => 0 < i < |cfg.gate| ==> s.barrier[cfg.gate[i]] - min < WORD
    case PCas(_, _, _, limit, seen) => s.next - seen < WORD && -WORD <= limit - seen < WORD
    case PTimedWait(_, seen, i, _) => i < |cfg.gate| ==> s.barrier[cfg.gate[i]] - (seen - cfg.n) < WORD
    case _ => true
  }

  /** So it is for the producer that takes the step l, if one does. */
  predicate StepLag(cfg: Config, s: State, l: Label)
    requires Shape(cfg, s)
  {
    l.Producer? && l.p < |s.ppc| ==> LagOk(cfg, s, s.ppc[l.p])
  }

  predicate StepWithin(cfg: Config, s: State, l: Label)
    requires Shape(cfg, s)
  {
    l.Producer? && l.p < |s.ppc| ==> WithinWord(cfg, s, s.ppc[l.p])
  }

  // ------------------------------------------------------------------
  // Arithmetic.
  // ------------------------------------------------------------------

  lemma SameDiff(a: int, b: int)
    requires -HALF <= a - b < HALF
    ensures Machine.Diff(Wrap(a), Wrap(b)) == Ideal.Diff(a, b)
  {
  }

  function WrapScan(r: Scan): Scan {
    if r.Passed? then Passed(Wrap(r.result)) else r
  }

  lemma SameScan(value: int, target: int, i: nat, count: nat, minDelta: int)
    requires -HALF <= value - target < HALF
    ensures ScanLoad(Machine, Wrap(value), Wrap(target), i, count, minDelta)
         == WrapScan(ScanLoad(Ideal, value, target, i, count, minDelta))
  {
    SameDiff(value, target);
    var d := value - target;
    var delta := if i == 0 then d else Min(minDelta, d);
    WrapSum(target, delta);
  }

  // ------------------------------------------------------------------
  // Where the live values are.
  // ------------------------------------------------------------------

  lemma BarrierNear(cfg: Config, s: State, c: nat)
    requires Inv(cfg, s) && Fits(cfg) && c < |s.barrier|
    ensures s.next - QUARTER < s.barrier[c] < s.next
  {
    InvCounting(cfg, s, c);
    var P := |cfg.script|;
    assert (P + 2) * cfg.n == (P + 1) * cfg.n + cfg.n;
    assert ConsOk(cfg, s.owner, s.sent, s.barrier, c, s.pos[c], s.cpc[c]);
    assert Pub(s.owner, s.sent, s.pos[c] - 1);
  }

  /** A load of the published array for a sequence near the reader's barrier. */
  lemma PubNear(cfg: Config, s: State, c: nat, x: int)
    requires Inv(cfg, s) && Fits(cfg) && c < |s.barrier| && s.barrier[c] < x <= s.next + cfg.n
    ensures -HALF <= s.pub[Slot(cfg.n, x)] - x < HALF
  {
    var q := s.pub[Slot(cfg.n, x)];
    BarrierNear(cfg, s, c);
    PubNotFarBehind(cfg, s, Slot(cfg.n, x), c);
    assert SlotOk(cfg.n, s.owner, s.sent, Slot(cfg.n, x), q);
  }

  // ------------------------------------------------------------------
  // Producer steps.
  // ------------------------------------------------------------------

  lemma SetPcAgrees(cfg: Config, s: State, p: nat, pc: ProducerPc)
    requires Shape(cfg, s) && p < |s.ppc| && PcOk(cfg, p, s.sent[p], pc)
    ensures Shape(cfg, Wrapped(s)) && PcOk(cfg, p, s.sent[p], WrapPc(pc))
    ensures SetPc(cfg, Wrapped(s), p, WrapPc(pc)) == Wrapped(SetPc(cfg, s, p, pc))
  {
  }

  lemma AdvanceAgrees(cfg: Config, s: State, p: nat, count: nat, pc: ProducerPc)
    requires Shape(cfg, s) && p < |s.ppc| && PcOk(cfg, p, s.sent[p], pc)
    ensures Shape(cfg, Wrapped(s)) && PcOk(cfg, p, s.sent[p], WrapPc(pc))
    ensures Advance(Machine, cfg, Wrapped(s), p, count, WrapPc(pc)) == Wrapped(Advance(Ideal, cfg, s, p, count, pc))
  {
  }

  lemma GateScanAgrees(cfg: Config, s: State, target: int, i: nat, minDelta: int)
    requires Shape(cfg, s) && i < |cfg.gate| && -HALF <= s.barrier[cfg.gate[i]] - target < HALF
    ensures Shape(cfg, Wrapped(s))
    ensures GateScan(Machine, cfg, Wrapped(s), Wrap(target), i, minDelta)
            == WrapScan(GateScan(Ideal, cfg, s, target, i, minDelta))
  {
    WrappedShape(cfg, s);
    SameScan(s.barrier[cfg.gate[i]], target, i, |cfg.gate|, minDelta);
  }

  lemma WaitAgrees(cfg: Config, s: State, p: nat)
    requires Inv(cfg, s) && Fits(cfg) && p < |s.ppc| && s.ppc[p].PWait?
    ensures PcOk(cfg, p, s.sent[p], s.ppc[p]) && Shape(cfg, Wrapped(s))
    ensures AfterWait(Machine, cfg, Wrapped(s), WrapPc(s.ppc[p])) == WrapPc(AfterWait(Ideal, cfg, s, s.ppc[p]))
  {
    var PWait(first, count, i, minDelta) := s.ppc[p];
    assert PcOk(cfg, p, s.sent[p], s.ppc[p]) && ScanOk(cfg, s.next, s.barrier, s.ppc[p]);
    assert ClaimOk(s.owner, s.sent[p], p, s.ppc[p]);
    ClaimNear(cfg, s, p);
    BarrierNear(cfg, s, cfg.gate[i]);
    WrapSum(first, count - 1 - cfg.n);
    GateScanAgrees(cfg, s, first + count - 1 - cfg.n, i, minDelta);
  }

  /** A waiting claim's target is near the barriers. */
  lemma ClaimNear(cfg: Config, s: State, p: nat)
    requires Inv(cfg, s) && Fits(cfg) && p < |s.ppc| && s.ppc[p].PWait?
    ensures s.next - HALF < s.ppc[p].first + s.ppc[p].count - 1 - cfg.n < s.next
  {
    var first, g := s.ppc[p].first, cfg.gate[0];
    assert PcOk(cfg, p, s.sent[p], s.ppc[p]) && ScanOk(cfg, s.next, s.barrier, s.ppc[p]);
    assert ClaimOk(s.owner, s.sent[p], p, s.ppc[p]);
    BarrierNear(cfg, s, g);
    assert ConsOk(cfg, s.owner, s.sent, s.barrier, g, s.pos[g], s.cpc[g]);
    HeldIsUnpublished(cfg, s, p, first);
    assert first <= s.barrier[g] ==> Pub(s.owner, s.sent, first);
  }

  lemma ScanAgrees(cfg: Config, s: State, p: nat)
    requires Inv(cfg, s) && Fits(cfg) && p < |s.ppc| && s.ppc[p].PScan? && LagOk(cfg, s, s.ppc[p])
    ensures PcOk(cfg, p, s.sent[p], s.ppc[p]) && Shape(cfg, Wrapped(s))
    ensures AfterScan(Machine, cfg, Wrapped(s), WrapPc(s.ppc[p])) == WrapPc(AfterScan(Ideal, cfg, s, s.ppc[p]))
  {
    var PScan(want, timed, i, min) := s.ppc[p];
    assert PcOk(cfg, p, s.sent[p], s.ppc[p]) && ScanOk(cfg, s.next, s.barrier, s.ppc[p]);
    WrappedShape(cfg, s);
    var g := cfg.gate[i];
    BarrierNear(cfg, s, g);
    if i > 0 {
      BarrierNear(cfg, s, cfg.gate[0]);
      SameDiff(s.barrier[g], min);
    }
    WrapSum(s.barrier[g], cfg.n);
    WrapSum(min, cfg.n);
  }

  lemma TimedWaitAgrees(cfg: Config, s: State, p: nat, timeout: bool)
    requires Inv(cfg, s) && Fits(cfg) && p < |s.ppc| && s.ppc[p].PTimedWait? && LagOk(cfg, s, s.ppc[p])
    ensures PcOk(cfg, p, s.sent[p], s.ppc[p]) && Shape(cfg, Wrapped(s))
    ensures AfterTimedWait(Machine, cfg, Wrapped(s), WrapPc(s.ppc[p]), timeout)
            == WrapPc(AfterTimedWait(Ideal, cfg, s, s.ppc[p], timeout))
  {
    var PTimedWait(want, seen, i, minDelta) := s.ppc[p];
    assert PcOk(cfg, p, s.sent[p], s.ppc[p]) && ScanOk(cfg, s.next, s.barrier, s.ppc[p]);
    BarrierNear(cfg, s, cfg.gate[i]);
    WrapSum(seen, -cfg.n);
    GateScanAgrees(cfg, s, seen - cfg.n, i, minDelta);
    match GateScan(Ideal, cfg, s, seen - cfg.n, i, minDelta)
    case Failed =>
    case More(delta) =>
    case Passed(result) => WrapSum(result, cfg.n);
  }

  lemma CasAgrees(cfg: Config, s: State, p: nat, flag: bool)
    requires Inv(cfg, s) && Fits(cfg) && p < |s.ppc| && s.ppc[p].PCas? && LagOk(cfg, s, s.ppc[p])
    ensures Shape(cfg, Wrapped(s))
    ensures CasStep(Machine, cfg, Wrapped(s), p, flag) == Wrapped(CasStep(Ideal, cfg, s, p, flag))
  {
    var PCas(want, timed, count, limit, seen) := s.ppc[p];
    assert PcOk(cfg, p, s.sent[p], s.ppc[p]) && ScanOk(cfg, s.next, s.barrier, s.ppc[p]);
    WrappedShape(cfg, s);
    BarrierNear(cfg, s, cfg.gate[0]);
    SameDiff(limit, seen);
    WrapInjective(s.next, seen);
    var room := limit - seen;
    if room < 0 {
      SetPcAgrees(cfg, s, p, if timed then PTimedWait(want, seen, 0, 0) else PIdle);
    } else {
      var take := Take(count, room);
      if s.next == seen && !flag {
        AdvanceAgrees(cfg, s, p, take, PWrite(seen, take, 0));
      } else {
        SetPcAgrees(cfg, s, p, PCas(want, timed, if timed then count else take, limit, s.next));
      }
    }
  }

  /** The word and the slot of the k-th sequence of a claim. */
  lemma ElementAgrees(n: int, first: int, k: int)
    requires IsPow2(n) && n < WORD
    ensures Machine.Norm(Wrap(first) + k) == Wrap(first + k)
    ensures n > 0 && Slot(n, Wrap(first + k)) == Slot(n, first + k)
  {
    WrapSum(first, k);
    SlotOfWord(n, first + k);
  }

  lemma WriteAgrees(cfg: Config, s: State, p: nat)
    requires cfg.Valid() && Shape(cfg, s) && Fits(cfg) && p < |s.ppc| && s.ppc[p].PWrite?
    ensures Shape(cfg, Wrapped(s))
    ensures WriteStep(Machine, cfg, Wrapped(s), p) == Wrapped(WriteStep(Ideal, cfg, s, p))
  {
    var PWrite(first, count, k) := s.ppc[p];
    assert PcOk(cfg, p, s.sent[p], s.ppc[p]);
    var pc := if k + 1 < count then PWrite(first, count, k + 1) else PPublish(first, count, 0);
    SetPcAgrees(cfg, s, p, pc);
    ElementAgrees(cfg.n, first, k);
    var w, ring := Wrapped(s), s.ring[Slot(cfg.n, first + k) := cfg.script[p][s.sent[p] + k]];
    assert WriteStep(Machine, cfg, w, p) == SetPc(cfg, w, p, WrapPc(pc)).(ring := ring) by {
      assert w.ppc[p] == PWrite(Wrap(first), count, k);
    }
    assert WriteStep(Ideal, cfg, s, p) == SetPc(cfg, s, p, pc).(ring := ring);
  }

  lemma PublishAgrees(cfg: Config, s: State, p: nat)
    requires cfg.Valid() && Shape(cfg, s) && Fits(cfg) && p < |s.ppc| && s.ppc[p].PPublish?
    ensures Shape(cfg, Wrapped(s))
    ensures PublishStep(Machine, cfg, Wrapped(s), p) == Wrapped(PublishStep(Ideal, cfg, s, p))
  {
    assert PcOk(cfg, p, s.sent[p], s.ppc[p]);
    if s.ppc[p].k < s.ppc[p].count {
      StorePublishedAgrees(cfg, s, p);
    } else {
      SetPcAgrees(cfg, s, p, PIdle);
    }
  }

  lemma StorePublishedAgrees(cfg: Config, s: State, p: nat)
    requires cfg.Valid() && Shape(cfg, s) && Fits(cfg) && p < |s.ppc| && s.ppc[p].PPublish?
             && s.ppc[p].k < s.ppc[p].count
    ensures Shape(cfg, Wrapped(s))
    ensures PublishStep(Machine, cfg, Wrapped(s), p) == Wrapped(PublishStep(Ideal, cfg, s, p))
  {
    var PPublish(first, count, k) := s.ppc[p];
    WrappedShape(cfg, s);
    ElementAgrees(cfg.n, first, k);
    var w, x, i, pc := Wrapped(s), first + k, Slot(cfg.n, first + k), PPublish(first, count, k + 1);
    var sent := s.sent[p := s.sent[p] + 1];
    StoreAgrees(s.pub, i, x, s.ppc, p, pc);
    assert PublishStep(Machine, cfg, w, p)
           == w.(pub := w.pub[i := Wrap(x)], sent := sent, ppc := w.ppc[p := WrapPc(pc)]);
    assert PublishStep(Ideal, cfg, s, p) == s.(pub := s.pub[i := x], sent := sent, ppc := s.ppc[p := pc]);
  }

  lemma StoreAgrees(pub: seq<int>, i: int, x: int, ppc: seq<ProducerPc>, p: nat, pc: ProducerPc)
    requires 0 <= i < |pub| && p < |ppc|
    ensures WrapAll(pub[i := x]) == WrapAll(pub)[i := Wrap(x)]
    ensures WrapPcs(ppc[p := pc]) == WrapPcs(ppc)[p := WrapPc(pc)]
  {
  }

  lemma BarrierScanAgrees(cfg: Config, s: State, p: nat, flag: bool)
    requires Inv(cfg, s) && Fits(cfg) && p < |s.ppc| && LagOk(cfg, s, s.ppc[p])
    requires s.ppc[p].PWait? || s.ppc[p].PScan? || s.ppc[p].PTimedWait?
    ensures Shape(cfg, Wrapped(s))
    ensures ProducerStep(Machine, cfg, Wrapped(s), p, flag) == WrappedOption(ProducerStep(Ideal, cfg, s, p, flag))
  {
    WrappedShape(cfg, s);
    var pc := s.ppc[p];
    assert PcOk(cfg, p, s.sent[p], pc);
    if pc.PWait? {
      WaitAgrees(cfg, s, p);
      SetPcAgrees(cfg, s, p, AfterWait(Ideal, cfg, s, pc));
    } else if pc.PScan? {
      ScanAgrees(cfg, s, p);
      SetPcAgrees(cfg, s, p, AfterScan(Ideal, cfg, s, pc));
    } else {
      TimedWaitAgrees(cfg, s, p, flag);
      SetPcAgrees(cfg, s, p, AfterTimedWait(Ideal, cfg, s, pc, flag));
    }
  }

  lemma ProducerAgrees(cfg: Config, s: State, p: nat, flag: bool)
    requires Inv(cfg, s) && Fits(cfg) && p < |s.ppc| && LagOk(cfg, s, s.ppc[p])
    ensures Shape(cfg, Wrapped(s))
    ensures ProducerStep(Machine, cfg, Wrapped(s), p, flag) == WrappedOption(ProducerStep(Ideal, cfg, s, p, flag))
  {
    WrappedShape(cfg, s);
    assert PcOk(cfg, p, s.sent[p], s.ppc[p]);
    match s.ppc[p]
    case PIdle =>
    case PLoad(want, timed, limit) => SetPcAgrees(cfg, s, p, PCas(want, timed, want, limit, s.next));
    case PCas(_, _, _, _, _) => CasAgrees(cfg, s, p, flag);
    case PWrite(_, _, _) => WriteAgrees(cfg, s, p);
    case PPublish(_, _, _) => PublishAgrees(cfg, s, p);
    case _ => BarrierScanAgrees(cfg, s, p, flag);
  }

  // ------------------------------------------------------------------
  // Consumer steps.
  // ------------------------------------------------------------------

  lemma NextToCheckAgrees(target: int, sq: int)
    requires -HALF < sq - target < HALF - 1
    ensures NextToCheck(Machine, Wrap(target), Wrap(sq)) == WrapCpc(NextToCheck(Ideal, target, sq))
  {
    WrapSum(sq, 1);
    SameDiff(sq + 1, target);
  }

  lemma LoadAgrees(cfg: Config, s: State, c: nat)
    requires Inv(cfg, s) && Fits(cfg) && c < |s.cpc| && (s.cpc[c].CCheck? || s.cpc[c].CSpin? || s.cpc[c].CExtend?)
    ensures Shape(cfg, Wrapped(s))
    ensures AfterLoad(Machine, cfg, Wrapped(s), c) == WrapCpc(AfterLoad(Ideal, cfg, s, c))
  {
    var pc := s.cpc[c];
    WrappedShape(cfg, s);
    assert ConsOk(cfg, s.owner, s.sent, s.barrier, c, s.pos[c], pc);
    if pc.CExtend? {
      ExtendAgrees(cfg, s, c);
    } else {
      assert Pub(s.owner, s.sent, pc.sq - 1);
      LoadedWordAgrees(cfg, s, c, pc.sq);
      NextToCheckAgrees(pc.target, pc.sq);
    }
  }

  lemma ExtendAgrees(cfg: Config, s: State, c: nat)
    requires Inv(cfg, s) && Fits(cfg) && c < |s.cpc| && s.cpc[c].CExtend?
    ensures Shape(cfg, Wrapped(s))
    ensures AfterLoad(Machine, cfg, Wrapped(s), c) == WrapCpc(AfterLoad(Ideal, cfg, s, c))
  {
    var last := s.cpc[c].last;
    WrappedShape(cfg, s);
    assert ConsOk(cfg, s.owner, s.sent, s.barrier, c, s.pos[c], s.cpc[c]);
    assert Pub(s.owner, s.sent, last);
    LoadedWordAgrees(cfg, s, c, last + 1);
    ExtendTestAgrees(cfg, s, c, last);
  }

  lemma ExtendTestAgrees(cfg: Config, s: State, c: nat, last: int)
    requires cfg.Valid() && Shape(cfg, s) && Fits(cfg) && c < |s.cpc| && s.cpc[c] == CExtend(last)
    requires WrapAll(s.pub)[Slot(cfg.n, last + 1)] == Wrap(last + 1) <==> s.pub[Slot(cfg.n, last + 1)] == last + 1
    ensures Shape(cfg, Wrapped(s))
    ensures AfterLoad(Machine, cfg, Wrapped(s), c) == WrapCpc(AfterLoad(Ideal, cfg, s, c))
  {
    WrappedShape(cfg, s);
    ElementAgrees(cfg.n, last, 1);
  }

  lemma LoadedWordAgrees(cfg: Config, s: State, c: nat, x: int)
    requires Inv(cfg, s) && Fits(cfg) && c < |s.barrier| && s.barrier[c] < x <= s.next
    ensures Slot(cfg.n, Wrap(x)) == Slot(cfg.n, x)
    ensures WrapAll(s.pub)[Slot(cfg.n, x)] == Wrap(x) <==> s.pub[Slot(cfg.n, x)] == x
    ensures ScanLoad(Machine, WrapAll(s.pub)[Slot(cfg.n, x)], Wrap(x), 0, 1, 0)
            == WrapScan(ScanLoad(Ideal, s.pub[Slot(cfg.n, x)], x, 0, 1, 0))
  {
    SlotOfWord(cfg.n, x);
    PubNear(cfg, s, c, x);
    WrapInjective(s.pub[Slot(cfg.n, x)], x);
    SameScan(s.pub[Slot(cfg.n, x)], x, 0, 1, 0);
  }

  lemma BarrierLoadAgrees(cfg: Config, s: State, c: nat)
    requires Inv(cfg, s) && Fits(cfg) && c < |s.cpc| && s.cpc[c].CWait?
    ensures Shape(cfg, Wrapped(s))
    ensures AfterLoad(Machine, cfg, Wrapped(s), c) == WrapCpc(AfterLoad(Ideal, cfg, s, c))
  {
    var CWait(target, i, minDelta) := s.cpc[c];
    WrappedShape(cfg, s);
    assert CpcOk(cfg, c, s.cpc[c]) && ConsOk(cfg, s.owner, s.sent, s.barrier, c, s.pos[c], s.cpc[c]);
    BarrierNear(cfg, s, c);
    var d := cfg.deps[c][i];
    BarrierNear(cfg, s, d);
    SameScan(s.barrier[d], target, i, |cfg.deps[c]|, minDelta);
  }

  lemma ConsumerAgrees(cfg: Config, s: State, c: nat)
    requires Inv(cfg, s) && Fits(cfg) && c < |s.cpc|
    ensures Shape(cfg, Wrapped(s))
    ensures ConsumerStep(Machine, cfg, Wrapped(s), c) == WrappedOption(ConsumerStep(Ideal, cfg, s, c))
  {
    WrappedShape(cfg, s);
    var pc := s.cpc[c];
    assert Wrapped(s).cpc[c] == WrapCpc(pc);
    if pc.CRead? {
      ReadAgrees(cfg, s, c);
    } else if pc.CRelease? {
      ConsumerStoreAgrees(s.barrier, s.cpc, c, pc.available, CIdle);
    } else if !pc.CIdle? {
      if pc.CWait? { BarrierLoadAgrees(cfg, s, c); } else { LoadAgrees(cfg, s, c); }
      ConsumerStoreAgrees(s.pos, s.cpc, c, 0, AfterLoad(Ideal, cfg, s, c));
    }
  }

  lemma ConsumerStoreAgrees(xs: seq<int>, cpc: seq<ConsumerPc>, c: nat, x: int, pc: ConsumerPc)
    requires c < |xs| == |cpc|
    ensures WrapAll(xs[c := x]) == WrapAll(xs)[c := Wrap(x)]
    ensures WrapCpcs(cpc[c := pc]) == WrapCpcs(cpc)[c := WrapCpc(pc)]
  {
  }

  lemma ReadAgrees(cfg: Config, s: State, c: nat)
    requires Inv(cfg, s) && Fits(cfg) && c < |s.cpc| && s.cpc[c].CRead?
    ensures Shape(cfg, Wrapped(s))
    ensures ConsumerStep(Machine, cfg, Wrapped(s), c) == WrappedOption(ConsumerStep(Ideal, cfg, s, c))
  {
    WrappedShape(cfg, s);
    var available, pos, w := s.cpc[c].available, s.pos[c], Wrapped(s);
    var pc := if pos == available then CRelease(available) else CRead(available);
    ReadWordsAgree(cfg, s, c);
    ConsumerStoreAgrees(s.pos, s.cpc, c, pos + 1, pc);
    var got := s.got[c := s.got[c] + [s.ring[Slot(cfg.n, pos)]]];
    assert ConsumerStep(Machine, cfg, w, c)
           == Some(w.(got := got, pos := w.pos[c := Wrap(pos + 1)], cpc := w.cpc[c := WrapCpc(pc)]));
    assert ConsumerStep(Ideal, cfg, s, c) == Some(s.(got := got, pos := s.pos[c := pos + 1], cpc := s.cpc[c := pc]));
  }

  lemma ReadWordsAgree(cfg: Config, s: State, c: nat)
    requires Inv(cfg, s) && Fits(cfg) && c < |s.cpc| && s.cpc[c].CRead?
    ensures Slot(cfg.n, Wrap(s.pos[c])) == Slot(cfg.n, s.pos[c])
    ensures Wrap(s.pos[c]) == Wrap(s.cpc[c].available) <==> s.pos[c] == s.cpc[c].available
    ensures Machine.Norm(Wrap(s.pos[c]) + 1) == Wrap(s.pos[c] + 1)
  {
    BatchNear(cfg, s, c);
    ElementAgrees(cfg.n, s.pos[c], 0);
    ElementAgrees(cfg.n, s.pos[c], 1);
    WrapInjective(s.pos[c], s.cpc[c].available);
  }

  lemma BatchNear(cfg: Config, s: State, c: nat)
    requires Inv(cfg, s) && Fits(cfg) && c < |s.cpc| && s.cpc[c].CRead?
    ensures s.pos[c] <= s.cpc[c].available < s.pos[c] + QUARTER
  {
    assert ConsOk(cfg, s.owner, s.sent, s.barrier, c, s.pos[c], s.cpc[c]);
    assert Pub(s.owner, s.sent, s.cpc[c].available);
    BarrierNear(cfg, s, c);
  }

  // ------------------------------------------------------------------
  // Steps and runs.
  // ------------------------------------------------------------------

  lemma StartAgrees(cfg: Config, s: State, l: Label)
    requires Shape(cfg, s) && (l.Claim? || l.Try? || l.Wait?)
    ensures Shape(cfg, Wrapped(s))
    ensures Step(Machine, cfg, Wrapped(s), l) == WrappedOption(Step(Ideal, cfg, s, l))
  {
    WrappedShape(cfg, s);
    if Step(Ideal, cfg, s, l).Some? {
      match l
      case Claim(p, count) =>
        var taken := Min(count, cfg.n);
        AdvanceAgrees(cfg, s, p, taken, PWait(s.next, taken, 0, 0));
      case Try(p, count, timed) =>
        SetPcAgrees(cfg, s, p, PScan(count, timed, 0, 0));
      case Wait(c, ahead) =>
        WrapSum(s.pos[c], ahead);
        var target := s.pos[c] + ahead;
        var pc := if cfg.deps[c] == [] then CCheck(target, s.pos[c]) else CWait(target, 0, 0);
        ConsumerStoreAgrees(s.pos, s.cpc, c, 0, pc);
    }
  }

  /** The same branch at every step. */
  lemma StepAgrees(cfg: Config, s: State, l: Label)
    requires Inv(cfg, s) && Fits(cfg) && StepLag(cfg, s, l)
    ensures Shape(cfg, Wrapped(s))
    ensures Step(Machine, cfg, Wrapped(s), l) == WrappedOption(Step(Ideal, cfg, s, l))
  {
    WrappedShape(cfg, s);
    match l
    case Producer(p, flag) =>
      if p < |s.ppc| { ProducerAgrees(cfg, s, p, flag); }
    case Consumer(c) =>
      if c < |s.cpc| { ConsumerAgrees(cfg, s, c); }
    case _ => StartAgrees(cfg, s, l);
  }

  /** The lag assumption on a whole run. */
  ghost predicate RunLag(cfg: Config, ls: seq<Label>)
    requires cfg.Shape()
  {
    forall k :: 0 <= k < |ls| && Run(Ideal, cfg, ls[..k]).Some? ==> StepLag(cfg, Run(Ideal, cfg, ls[..k]).value, ls[k])
  }

  /** On 64-bit words the system has exactly the runs it has on unbounded sequence
      numbers, state for state. */
  lemma {:induction false} RunAgrees(cfg: Config, ls: seq<Label>)
    requires cfg.Valid() && Fits(cfg) && RunLag(cfg, ls)
    ensures Run(Machine, cfg, ls) == WrappedOption(Run(Ideal, cfg, ls))
  {
    if ls == [] {
      InitAgrees(cfg);
    } else {
      var k := |ls| - 1;
      LagOfPrefix(cfg, ls, k);
      RunAgrees(cfg, ls[..k]);
      LastStepAgrees(cfg, ls);
    }
  }

  lemma LagOfPrefix(cfg: Config, ls: seq<Label>, k: nat)
    requires cfg.Shape() && k <= |ls| && RunLag(cfg, ls)
    ensures RunLag(cfg, ls[..k])
  {
    assert forall j :: 0 <= j < k ==> ls[..k][..j] == ls[..j];
  }

  lemma LastStepAgrees(cfg: Config, ls: seq<Label>)
    requires cfg.Valid() && Fits(cfg) && |ls| > 0 && RunLag(cfg, ls)
    requires Run(Machine, cfg, ls[..|ls| - 1]) == WrappedOption(Run(Ideal, cfg, ls[..|ls| - 1]))
    ensures Run(Machine, cfg, ls) == WrappedOption(Run(Ideal, cfg, ls))
  {
    var k := |ls| - 1;
    if Run(Ideal, cfg, ls[..k]).Some? {
      RunInv(cfg, ls[..k]);
      StepAgrees(cfg, Run(Ideal, cfg, ls[..k]).value, ls[k]);
    }
  }

  lemma InitAgrees(cfg: Config)
    requires cfg.Shape()
    ensures Init(Machine, cfg) == Wrapped(Init(Ideal, cfg))
  {
  }

  /** So on 64-bit words, too, every consumer reads a prefix of the one log, and the
      assertion in `set_published` never fails, however often the words wrap. */
  lemma MachineReadsTheLog(cfg: Config, ls: seq<Label>, w: State)
    requires cfg.Valid() && Fits(cfg) && RunLag(cfg, ls) && Run(Machine, cfg, ls) == Some(w)
    ensures forall c :: 0 <= c < |w.got| ==> w.got[c] <= Log(cfg, w.owner)
    ensures forall p: nat :: p < |w.ppc| ==> SetPublishedAssertion(Machine, cfg, w, p)
  {
    RunAgrees(cfg, ls);
    var s := Run(Ideal, cfg, ls).value;
    forall c: nat | c < |w.got|
      ensures w.got[c] <= Log(cfg, w.owner)
    {
      ConsumersReadTheLog(cfg, ls, s, c);
    }
    forall p: nat | p < |w.ppc|
      ensures SetPublishedAssertion(Machine, cfg, w, p)
    {
      SetPublishedNeverFails(cfg, ls, s, p);
      AssertionAgrees(cfg, s, p);
    }
  }

  lemma AssertionAgrees(cfg: Config, s: State, p: nat)
    requires Shape(cfg, s) && p < |s.ppc| && SetPublishedAssertion(Ideal, cfg, s, p) && IsPow2(cfg.n) && Fits(cfg)
    ensures Shape(cfg, Wrapped(s)) && SetPublishedAssertion(Machine, cfg, Wrapped(s), p)
  {
    WrappedShape(cfg, s);
    if s.ppc[p].PPublish? && s.ppc[p].k < s.ppc[p].count {
      var x := s.ppc[p].first + s.ppc[p].k;
      ElementAgrees(cfg.n, s.ppc[p].first, s.ppc[p].k);
      WrapSum(x, -cfg.n);
    }
  }

  // ------------------------------------------------------------------
  // Runs that need no lag assumption.
  // ------------------------------------------------------------------

  /** Nobody but p is in a non-blocking claim. */
  ghost predicate OnlyTries(s: State, p: nat) {
    forall q: nat :: q < |s.ppc| && q != p ==> !Trying(s.ppc[q])
  }

  /** A step that starts no non-blocking claim and is not p's. */
  predicate LeavesAlone(l: Label, p: nat) { !l.Try? && ThreadOf(l) != Prod(p) }

  lemma QuietStepLag(cfg: Config, s: State, l: Label, p: nat)
    requires Shape(cfg, s) && OnlyTries(s, p) && LeavesAlone(l, p) && Step(Ideal, cfg, s, l).Some?
    ensures StepLag(cfg, s, l) && OnlyTries(Step(Ideal, cfg, s, l).value, p)
    ensures p < |s.ppc| ==> Step(Ideal, cfg, s, l).value.ppc[p] == s.ppc[p]
  {
    assert l.Producer? ==> PcOk(cfg, l.p, s.sent[l.p], s.ppc[l.p]);
  }

  lemma OneMoreLag(cfg: Config, ls: seq<Label>, s: State, l: Label)
    requires cfg.Shape() && Run(Ideal, cfg, ls) == Some(s) && RunLag(cfg, ls) && StepLag(cfg, s, l)
    ensures RunLag(cfg, ls + [l])
  {
    var all := ls + [l];
    forall k | 0 <= k < |all| && Run(Ideal, cfg, all[..k]).Some?
      ensures StepLag(cfg, Run(Ideal, cfg, all[..k]).value, all[k])
    {
      assert all[..k] == if k < |ls| then ls[..k] else ls;
    }
  }

  /** While p stays where it is and nobody starts a non-blocking claim, nothing lags. */
  lemma {:induction false} QuietRunLag(cfg: Config, ls: seq<Label>, s: State, more: seq<Label>, t: State, p: nat)
    requires Reached(cfg, ls, s) && RunLag(cfg, ls) && OnlyTries(s, p) && Reached(cfg, ls + more, t)
    requires forall l :: l in more ==> LeavesAlone(l, p)
    ensures RunLag(cfg, ls + more) && OnlyTries(t, p) && (p < |s.ppc| ==> |t.ppc| == |s.ppc| && t.ppc[p] == s.ppc[p])
  {
    if more == [] {
      assert ls + more == ls;
    } else {
      var before, u := LastOf(cfg, ls, more);
      QuietRunLag(cfg, ls, s, before, u, p);
      QuietStepLag(cfg, u, more[|more| - 1], p);
      OneMoreLag(cfg, ls + before, u, more[|more| - 1]);
      LastApart(ls, more);
    }
  }

  /** Runs that use `claim` and `claim_one` only, as all the benchmarks do, agree on words
      whatever their length. */
  lemma {:induction false} ClaimsNeedNoLag(cfg: Config, ls: seq<Label>)
    requires cfg.Valid() && forall l :: l in ls ==> !l.Try?
    ensures RunLag(cfg, ls)
  {
    if ls != [] && !RunLag(cfg, ls) {
      var k :| 0 <= k < |ls| && Run(Ideal, cfg, ls[..k]).Some? && !StepLag(cfg, Run(Ideal, cfg, ls[..k]).value, ls[k]);
      NobodyTries(cfg, ls[..k]);
    }
  }

  lemma {:induction false} NobodyTries(cfg: Config, ls: seq<Label>)
    requires cfg.Valid() && Run(Ideal, cfg, ls).Some? && forall l :: l in ls ==> !l.Try?
    ensures OnlyTries(Run(Ideal, cfg, ls).value, |cfg.script|)
  {
    if ls != [] {
      NobodyTries(cfg, ls[..|ls| - 1]);
      TriesStart(cfg, Run(Ideal, cfg, ls[..|ls| - 1]).value, ls[|ls| - 1]);
    }
  }

  lemma TriesStart(cfg: Config, s: State, l: Label)
    requires Shape(cfg, s) && OnlyTries(s, |cfg.script|) && !l.Try? && Step(Ideal, cfg, s, l).Some?
    ensures OnlyTries(Step(Ideal, cfg, s, l).value, |cfg.script|)
  {
    assert l.Producer? ==> PcOk(cfg, l.p, s.sent[l.p], s.ppc[l.p]);
  }

  lemma RunOfClaimsAgrees(cfg: Config, ls: seq<Label>)
    requires cfg.Valid() && Fits(cfg) && forall l :: l in ls ==> !l.Try?
    ensures Run(Machine, cfg, ls) == WrappedOption(Run(Ideal, cfg, ls))
  {
    ClaimsNeedNoLag(cfg, ls);
    RunAgrees(cfg, ls);
  }

  // ------------------------------------------------------------------
  // What exactly the compare-exchange needs.
  // ------------------------------------------------------------------

  /** Copies less than 2^64 from the counter and from each other are compared as on
      unbounded numbers exactly when limit - seen fits in 64 signed bits: outside, the
      words refuse a claim there is room for, or grant one there is not. */
  lemma CasAgreesExactly(cfg: Config, s: State, p: nat, flag: bool)
    requires Shape(cfg, s) && p < |s.ppc| && s.ppc[p].PCas?
    requires 0 <= s.next - s.ppc[p].seen < WORD && -WORD <= s.ppc[p].limit - s.ppc[p].seen < WORD
    ensures Shape(cfg, Wrapped(s))
    ensures CasStep(Machine, cfg, Wrapped(s), p, flag).ppc[p] == WrapPc(CasStep(Ideal, cfg, s, p, flag).ppc[p])
       <==> -HALF <= s.ppc[p].limit - s.ppc[p].seen < HALF
  {
    var PCas(want, timed, count, limit, seen) := s.ppc[p];
    WrappedShape(cfg, s);
    assert PcOk(cfg, p, s.sent[p], s.ppc[p]);
    WrapInjective(s.next, seen);
    var w, d := Wrapped(s), Machine.Diff(Wrap(limit), Wrap(seen));
    assert w.ppc[p] == PCas(want, timed, count, Wrap(limit), Wrap(seen));
    if -HALF <= limit - seen < HALF {
      SameDiff(limit, seen);
    } else {
      OtherSign(limit, seen);
    }
  }

  lemma OtherSign(limit: int, seen: int)
    requires -WORD <= limit - seen < -HALF || HALF <= limit - seen < WORD
    ensures Machine.Diff(Wrap(limit), Wrap(seen)) >= 0 <==> limit - seen < 0
  {
    WrapSub(limit, seen);
    WrapPeriod(limit - seen, if limit < seen then 1 else -1);
  }

  // ------------------------------------------------------------------
  // And what every step and every run need.
  // ------------------------------------------------------------------

  lemma ScanDiffers(cfg: Config, s: State, p: nat)
    requires Inv(cfg, s) && p < |s.ppc| && s.ppc[p].PScan? && 0 < s.ppc[p].i < |cfg.gate|
    requires HALF <= s.barrier[cfg.gate[s.ppc[p].i]] - s.ppc[p].min < WORD
    ensures Shape(cfg, Wrapped(s))
    ensures AfterScan(Machine, cfg, Wrapped(s), WrapPc(s.ppc[p])) != WrapPc(AfterScan(Ideal, cfg, s, s.ppc[p]))
  {
    var PScan(want, timed, i, min) := s.ppc[p];
    var value := s.barrier[cfg.gate[i]];
    WrappedShape(cfg, s);
    OtherSign(value, min);
    WrapInjective(value, min);
    WrapInjective(value + cfg.n, min + cfg.n);
    WrapSum(value, cfg.n);
    WrapSum(min, cfg.n);
  }

  lemma TimedWaitDiffers(cfg: Config, s: State, p: nat, timeout: bool)
    requires Inv(cfg, s) && p < |s.ppc| && s.ppc[p].PTimedWait? && s.ppc[p].i < |cfg.gate|
    requires HALF <= s.barrier[cfg.gate[s.ppc[p].i]] - (s.ppc[p].seen - cfg.n) < WORD
    ensures Shape(cfg, Wrapped(s))
    ensures AfterTimedWait(Machine, cfg, Wrapped(s), WrapPc(s.ppc[p]), timeout)
            != WrapPc(AfterTimedWait(Ideal, cfg, s, s.ppc[p], timeout))
  {
    var PTimedWait(want, seen, i, minDelta) := s.ppc[p];
    assert ScanOk(cfg, s.next, s.barrier, s.ppc[p]);
    WrappedShape(cfg, s);
    WrapSum(seen, -cfg.n);
    OtherSign(s.barrier[cfg.gate[i]], seen - cfg.n);
    assert GateScan(Machine, cfg, Wrapped(s), Wrap(seen - cfg.n), i, minDelta).Failed?;
    assert !GateScan(Ideal, cfg, s, seen - cfg.n, i, minDelta).Failed?;
  }

  /** Outside those bounds the producer's next position differs. */
  lemma PcDiffers(cfg: Config, s: State, p: nat, flag: bool)
    requires Inv(cfg, s) && p < |s.ppc| && WithinWord(cfg, s, s.ppc[p]) && !LagOk(cfg, s, s.ppc[p])
    ensures Shape(cfg, Wrapped(s)) && ProducerStep(Machine, cfg, Wrapped(s), p, flag).Some?
    ensures ProducerStep(Ideal, cfg, s, p, flag).Some?
    ensures ProducerStep(Machine, cfg, Wrapped(s), p, flag).value.ppc[p]
            != WrapPc(ProducerStep(Ideal, cfg, s, p, flag).value.ppc[p])
  {
    WrappedShape(cfg, s);
    assert PcOk(cfg, p, s.sent[p], s.ppc[p]) && ScanOk(cfg, s.next, s.barrier, s.ppc[p]);
    assert Wrapped(s).ppc[p] == WrapPc(s.ppc[p]);
    if s.ppc[p].PScan? {
      ScanDiffers(cfg, s, p);
    } else if s.ppc[p].PTimedWait? {
      TimedWaitDiffers(cfg, s, p, flag);
    } else {
      CasAgreesExactly(cfg, s, p, flag);
    }
  }

  /** With copies that lag by less than 2^64, a step on words is the image of the ideal
      step exactly when the differences it compares fit into 64 signed bits. */
  lemma StepAgreesExactly(cfg: Config, s: State, l: Label)
    requires Inv(cfg, s) && Fits(cfg) && StepWithin(cfg, s, l)
    ensures Shape(cfg, Wrapped(s))
    ensures Step(Machine, cfg, Wrapped(s), l) == WrappedOption(Step(Ideal, cfg, s, l)) <==> StepLag(cfg, s, l)
  {
    WrappedShape(cfg, s);
    if StepLag(cfg, s, l) {
      StepAgrees(cfg, s, l);
    } else {
      PcDiffers(cfg, s, l.p, l.flag);
      var t := ProducerStep(Ideal, cfg, s, l.p, l.flag).value;
      assert Wrapped(t).ppc[l.p] == WrapPc(t.ppc[l.p]);
    }
  }

  ghost predicate RunWithin(cfg: Config, ls: seq<Label>)
    requires cfg.Shape()
  {
    forall k :: 0 <= k < |ls| && Run(Ideal, cfg, ls[..k]).Some?
      ==> StepWithin(cfg, Run(Ideal, cfg, ls[..k]).value, ls[k])
  }

  /** The two machines are in corresponding states all along the run. */
  ghost predicate AgreeAlong(cfg: Config, ls: seq<Label>)
    requires cfg.Shape()
  {
    forall k :: 0 <= k <= |ls| ==> Run(Machine, cfg, ls[..k]) == WrappedOption(Run(Ideal, cfg, ls[..k]))
  }

  lemma NextPrefix(m: Arith, cfg: Config, ls: seq<Label>, k: nat)
    requires cfg.Shape() && k < |ls| && Run(m, cfg, ls[..k]).Some?
    ensures Run(m, cfg, ls[..k + 1]) == Step(m, cfg, Run(m, cfg, ls[..k]).value, ls[k])
  {
    assert ls[..k + 1][..k] == ls[..k];
  }

  /** Along runs with copies that lag by less than 2^64, the two machines go the same way,
      state for state, exactly when no step compares a difference of 2^63 or more. */
  lemma RunAgreesExactly(cfg: Config, ls: seq<Label>)
    requires cfg.Valid() && Fits(cfg) && RunWithin(cfg, ls)
    ensures AgreeAlong(cfg, ls) <==> RunLag(cfg, ls)
  {
    if RunLag(cfg, ls) {
      forall k | 0 <= k <= |ls|
        ensures Run(Machine, cfg, ls[..k]) == WrappedOption(Run(Ideal, cfg, ls[..k]))
      {
        LagOfPrefix(cfg, ls, k);
        RunAgrees(cfg, ls[..k]);
      }
    }
    if AgreeAlong(cfg, ls) {
      forall k | 0 <= k < |ls| && Run(Ideal, cfg, ls[..k]).Some?
        ensures StepLag(cfg, Run(Ideal, cfg, ls[..k]).value, ls[k])
      {
        AgreementMeansLagOk(cfg, ls, k);
      }
    }
  }

  lemma AgreementMeansLagOk(cfg: Config, ls: seq<Label>, k: nat)
    requires cfg.Valid() && Fits(cfg) && RunWithin(cfg, ls) && AgreeAlong(cfg, ls)
    requires k < |ls| && Run(Ideal, cfg, ls[..k]).Some?
    ensures StepLag(cfg, Run(Ideal, cfg, ls[..k]).value, ls[k])
  {
    var s := Run(Ideal, cfg, ls[..k]).value;
    RunInv(cfg, ls[..k]);
    NextPrefix(Ideal, cfg, ls, k);
    NextPrefix(Machine, cfg, ls, k);
    StepAgreesExactly(cfg, s, ls[k]);
  }
}
