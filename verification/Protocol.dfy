/** The multi-producer protocol as a step system: one atomic access to shared memory
    (fetch_add, load, compare-exchange, ring access, store) per step, any thread next.

    The transition function is written once and interpreted over two arithmetics:
    `Ideal` (unbounded sequence numbers) and `Machine` (64-bit words that wrap).
    Source: include/disruptorplus/multi_threaded_claim_strategy.hpp,
    sequence_barrier.hpp, sequence_barrier_group.hpp, spin_wait_strategy.hpp and the
    client loops under benchmark/. */
module Protocol {
  import opened Sequences
  import opened Slots
  import opened Sums

  datatype Option<T> = None | Some(value: T)

  datatype Arith = Ideal | Machine {
    function Norm(x: int): int { if Ideal? then x else Wrap(x) }
    function Diff(a: int, b: int): int { if Ideal? then a - b else Signed(a - b) }
  }

  /** n: the buffer size.  script[p]: the items producer p publishes, in order.
      deps[c]: the consumers that consumer c waits for; a consumer with none waits for
      published items.  gate: the consumers whose barriers gate claims.
      blank: what the freshly allocated ring holds.
      ahead[c] and most: how far ahead of its next item c waits, and how many slots `claim`
      is asked for, at most.  Only what is said about progress depends on these two. */
  datatype Config = Config(n: int, script: seq<seq<int>>, deps: seq<seq<nat>>, gate: seq<nat>, blank: seq<int>,
                           ahead: seq<nat>, most: nat) {

    predicate Shape() {
      && n > 0 && |blank| == n && |gate| > 0 && |ahead| == |deps| && most > 0
      && (forall i :: 0 <= i < |gate| ==> gate[i] < |deps|)
      && (forall c, j :: 0 <= c < |deps| && 0 <= j < |deps[c]| ==> deps[c][j] < c)
    }

    /** Every consumer gates claims or is waited for by a later consumer. */
    predicate Gated(c: nat) {
      c in gate || exists d :: c < d < |deps| && c in deps[d]
    }

    ghost predicate Valid() {
      Shape() && IsPow2(n) && forall c: nat :: c < |deps| ==> Gated(c)
    }

    function Total(): int { Sum(seq(|script|, p requires 0 <= p < |script| => |script[p]|)) }
  }

  /** Where a producer is.
      PWait: in `claim_one`/`claim`, after fetch_add, scanning the claim barriers.
      PScan, PLoad, PCas: in `try_claim` or, when timed, `try_claim_until`.
      PTimedWait: the timed barrier wait inside `try_claim_until`.
      PWrite, PPublish: the client filling its slots, and `publish`. */
  datatype ProducerPc =
    | PIdle
    | PWait(first: int, count: nat, i: nat, minDelta: int)
    | PScan(want: nat, timed: bool, i: nat, min: int)
    | PLoad(want: nat, timed: bool, limit: int)
    | PCas(want: nat, timed: bool, count: nat, limit: int, seen: int)
    | PTimedWait(want: nat, seen: int, i: nat, minDelta: int)
    | PWrite(first: int, count: nat, k: nat)
    | PPublish(first: int, count: nat, k: nat)

  /** Where a consumer is.
      CCheck, CSpin, CExtend: in the claim strategy's `wait_until_published` (equality
      test, order test of the wait strategy, `last_published_after`).
      CWait: scanning the barriers it waits for.  CRead, CRelease: its batch. */
  datatype ConsumerPc =
    | CIdle
    | CCheck(target: int, sq: int)
    | CSpin(target: int, sq: int)
    | CExtend(last: int)
    | CWait(target: int, i: nat, minDelta: int)
    | CRead(available: int)
    | CRelease(available: int)

  /** next, pub, ring, barrier are shared memory.  sent[p] counts the items p has
      published; pos[c] is `nextToRead`.  owner and got are history: owner[s] is the
      producer and the item index for which sequence s was claimed, got[c] the values
      c has read. */
  datatype State = State(
    next: int, owner: seq<(nat, nat)>, sent: seq<nat>, ppc: seq<ProducerPc>,
    pub: seq<int>, ring: seq<int>, barrier: seq<int>,
    pos: seq<int>, got: seq<seq<int>>, cpc: seq<ConsumerPc>)

  /** Claim: start `claim(count)` (`claim_one` is count 1) by its fetch_add.
      Try: call `try_claim`/`try_claim_until`.  Producer: the next step of p; the flag
      lets a compare-exchange fail spuriously and a timed wait time out.
      Wait: c starts waiting for item pos+ahead.  Consumer: the next step of c. */
  datatype Label =
    | Claim(p: nat, count: nat)
    | Try(p: nat, count: nat, timed: bool)
    | Producer(p: nat, flag: bool)
    | Wait(c: nat, ahead: nat)
    | Consumer(c: nat)

  predicate PcOk(cfg: Config, p: nat, sent: nat, pc: ProducerPc)
    requires p < |cfg.script|
  {
    var len := |cfg.script[p]|;
    && sent <= len
    && match pc
       case PIdle => true
       case PWait(_, count, i, _) => 1 <= count <= len - sent && i < |cfg.gate|
       case PScan(want, _, i, _) => 1 <= want <= len - sent && i < |cfg.gate|
       case PLoad(want, _, _) => 1 <= want <= len - sent
       case PCas(want, _, count, _, _) => 1 <= count <= want <= len - sent
       case PTimedWait(want, _, i, _) => 1 <= want <= len - sent && i < |cfg.gate|
       case PWrite(_, count, k) => k < count <= len - sent
       case PPublish(_, count, k) => k <= count && k <= sent && count - k <= len - sent
  }

  predicate CpcOk(cfg: Config, c: nat, pc: ConsumerPc)
    requires c < |cfg.deps|
  {
    pc.CWait? ==> pc.i < |cfg.deps[c]|
  }

  predicate Shape(cfg: Config, s: State) {
    && cfg.Shape()
    && |s.sent| == |s.ppc| == |cfg.script|
    && |s.pub| == |s.ring| == cfg.n
    && |s.barrier| == |s.pos| == |s.got| == |s.cpc| == |cfg.deps|
    && (forall p: nat :: p < |s.ppc| ==> PcOk(cfg, p, s.sent[p], s.ppc[p]))
    && (forall c: nat :: c < |s.cpc| ==> CpcOk(cfg, c, s.cpc[c]))
  }

  /** The constructor's fill: the sequences of the lap before 0. */
  function InitialWords(m: Arith, n: int): (pub: seq<int>)
    requires n > 0
    ensures |pub| == n && forall i :: 0 <= i < n ==> pub[i] == m.Norm(i - n)
  {
    seq(n, i requires 0 <= i < n => m.Norm(i - n))
  }

  function Init(m: Arith, cfg: Config): (s: State)
    requires cfg.Shape()
    ensures Shape(cfg, s)
  {
    State(0, [], seq(|cfg.script|, _ => 0), seq(|cfg.script|, _ => PIdle),
          InitialWords(m, cfg.n), cfg.blank,
          seq(|cfg.deps|, _ => m.Norm(-1)), seq(|cfg.deps|, _ => 0),
          seq(|cfg.deps|, _ => []), seq(|cfg.deps|, _ => CIdle))
  }

  // ------------------------------------------------------------------
  // One load of a scan by `minimum_sequence_after`.
  // ------------------------------------------------------------------

  datatype Scan = Failed | More(minDelta: int) | Passed(result: int)

  function ScanLoad(m: Arith, value: int, target: int, i: nat, count: nat, minDelta: int): Scan {
    var d := m.Diff(value, target);
    var delta := if i == 0 then d else Min(minDelta, d);
    if delta < 0 then Failed
    else if i + 1 < count then More(delta)
    else Passed(m.Norm(delta + target))
  }

  /** A scan of words that do not change, from its i-th load on. */
  function ScanFrom(m: Arith, loads: seq<int>, target: int, i: nat, minDelta: int): Scan
    requires i < |loads|
    decreases |loads| - i
  {
    match ScanLoad(m, loads[i], target, i, |loads|, minDelta)
    case More(delta) => ScanFrom(m, loads, target, i + 1, delta)
    case r => r
  }

  /** Step by step, a scan meets the contract of `minimum_sequence_after`: it fails exactly
      when some word precedes the target, and otherwise yields the least advanced word. */
  lemma {:induction false} ScanMeetsContract(loads: seq<Word>, target: Word, i: nat, minDelta: int)
    requires i < |loads|
    requires i > 0 ==> minDelta >= 0 && exists k :: 0 <= k < i && minDelta == Difference(loads[k], target)
    requires i > 0 ==> forall k :: 0 <= k < i ==> minDelta <= Difference(loads[k], target)
    ensures match ScanFrom(Machine, loads, target, i, minDelta)
            case Failed => exists w :: w in loads && Difference(w, target) < 0
            case Passed(r) => r in loads && forall w :: w in loads ==>
              0 <= Difference(r, target) <= Difference(w, target)
            case More(_) => false
    decreases |loads| - i
  {
    var d := Difference(loads[i], target);
    var delta := if i == 0 then d else Min(minDelta, d);
    if delta >= 0 {
      assert exists k :: 0 <= k < i + 1 && delta == Difference(loads[k], target);
      if i + 1 < |loads| {
        ScanMeetsContract(loads, target, i + 1, delta);
      } else {
        var k :| 0 <= k < i + 1 && delta == Difference(loads[k], target);
        DifferenceAddsBack(loads[k], target);
      }
    } else {
      assert loads[i] in loads;
    }
  }

  // ------------------------------------------------------------------
  // Producer steps.
  // ------------------------------------------------------------------

  function Block(p: nat, start: nat, count: nat): (b: seq<(nat, nat)>) {
    seq(count, i requires 0 <= i < count => (p, start + i))
  }

  function SetPc(cfg: Config, s: State, p: nat, pc: ProducerPc): (t: State)
    requires Shape(cfg, s) && p < |s.ppc| && PcOk(cfg, p, s.sent[p], pc)
    ensures Shape(cfg, t)
  {
    s.(ppc := s.ppc[p := pc])
  }

  /** Advance the claim counter by count, for producer p. */
  function Advance(m: Arith, cfg: Config, s: State, p: nat, count: nat, pc: ProducerPc): (t: State)
    requires Shape(cfg, s) && p < |s.ppc| && PcOk(cfg, p, s.sent[p], pc)
    ensures Shape(cfg, t)
  {
    SetPc(cfg, s, p, pc).(next := m.Norm(s.next + count), owner := s.owner + Block(p, s.sent[p], count))
  }

  function GateScan(m: Arith, cfg: Config, s: State, target: int, i: nat, minDelta: int): Scan
    requires Shape(cfg, s) && i < |cfg.gate|
  {
    ScanLoad(m, s.barrier[cfg.gate[i]], target, i, |cfg.gate|, minDelta)
  }

  function AfterWait(m: Arith, cfg: Config, s: State, pc: ProducerPc): ProducerPc
    requires Shape(cfg, s) && pc.PWait? && pc.i < |cfg.gate|
  {
    var target := m.Norm(pc.first + pc.count - 1 - cfg.n);
    match GateScan(m, cfg, s, target, pc.i, pc.minDelta)
    case Failed => PWait(pc.first, pc.count, 0, 0)
    case More(delta) => PWait(pc.first, pc.count, pc.i + 1, delta)
    case Passed(_) => PWrite(pc.first, pc.count, 0)
  }

  /** One load of `minimum_sequence` over the claim barriers. */
  function AfterScan(m: Arith, cfg: Config, s: State, pc: ProducerPc): ProducerPc
    requires Shape(cfg, s) && pc.PScan? && pc.i < |cfg.gate|
  {
    var value := s.barrier[cfg.gate[pc.i]];
    var min := if pc.i == 0 || m.Diff(value, pc.min) < 0 then value else pc.min;
    if pc.i + 1 < |cfg.gate| then PScan(pc.want, pc.timed, pc.i + 1, min)
    else PLoad(pc.want, pc.timed, m.Norm(min + cfg.n))
  }

  function AfterTimedWait(m: Arith, cfg: Config, s: State, pc: ProducerPc, timeout: bool): ProducerPc
    requires Shape(cfg, s) && pc.PTimedWait? && pc.i < |cfg.gate|
  {
    match GateScan(m, cfg, s, m.Norm(pc.seen - cfg.n), pc.i, pc.minDelta)
    case Failed => if timeout then PIdle else PTimedWait(pc.want, pc.seen, 0, 0)
    case More(delta) => PTimedWait(pc.want, pc.seen, pc.i + 1, delta)
    case Passed(result) => PCas(pc.want, true, pc.want, m.Norm(result + cfg.n), pc.seen)
  }

  /** The slots a compare-exchange asks for, when room = difference(published, sequence) >= 0. */
  function Take(count: nat, room: int): (r: nat)
    requires count >= 1 && room >= 0
    ensures 1 <= r <= count && r <= room + 1
  {
    Min(count, room + 1)
  }

  function CasStep(m: Arith, cfg: Config, s: State, p: nat, weakFailure: bool): (t: State)
    requires Shape(cfg, s) && p < |s.ppc| && s.ppc[p].PCas?
    ensures Shape(cfg, t)
  {
    var PCas(want, timed, count, limit, seen) := s.ppc[p];
    assert PcOk(cfg, p, s.sent[p], s.ppc[p]);
    var room := m.Diff(limit, seen);
    if room < 0 then
      SetPc(cfg, s, p, if timed then PTimedWait(want, seen, 0, 0) else PIdle)
    else
      var take := Take(count, room);
      if s.next == seen && !weakFailure then
        Advance(m, cfg, s, p, take, PWrite(seen, take, 0))
      else
        SetPc(cfg, s, p, PCas(want, timed, if timed then count else take, limit, s.next))
  }

  function WriteStep(m: Arith, cfg: Config, s: State, p: nat): (t: State)
    requires Shape(cfg, s) && p < |s.ppc| && s.ppc[p].PWrite?
    ensures Shape(cfg, t)
  {
    var PWrite(first, count, k) := s.ppc[p];
    assert PcOk(cfg, p, s.sent[p], s.ppc[p]);
    var pc := if k + 1 < count then PWrite(first, count, k + 1) else PPublish(first, count, 0);
    SetPc(cfg, s, p, pc).(ring := s.ring[Slot(cfg.n, m.Norm(first + k)) := cfg.script[p][s.sent[p] + k]])
  }

  /** One iteration of `publish(range)`: `set_published`, or the final signal. */
  function PublishStep(m: Arith, cfg: Config, s: State, p: nat): (t: State)
    requires Shape(cfg, s) && p < |s.ppc| && s.ppc[p].PPublish?
    ensures Shape(cfg, t)
  {
    var PPublish(first, count, k) := s.ppc[p];
    assert PcOk(cfg, p, s.sent[p], s.ppc[p]);
    if k < count then
      var sq := m.Norm(first + k);
      s.(pub := s.pub[Slot(cfg.n, sq) := sq], sent := s.sent[p := s.sent[p] + 1],
         ppc := s.ppc[p := PPublish(first, count, k + 1)])
    else
      SetPc(cfg, s, p, PIdle)
  }

  /** The assertion in `set_published`. */
  predicate SetPublishedAssertion(m: Arith, cfg: Config, s: State, p: nat)
    requires Shape(cfg, s) && p < |s.ppc|
  {
    s.ppc[p].PPublish? && s.ppc[p].k < s.ppc[p].count ==>
      var sq := m.Norm(s.ppc[p].first + s.ppc[p].k);
      s.pub[Slot(cfg.n, sq)] == m.Norm(sq - cfg.n)
  }

  function ProducerStep(m: Arith, cfg: Config, s: State, p: nat, flag: bool): (r: Option<State>)
    requires Shape(cfg, s) && p < |s.ppc|
    ensures r.Some? ==> Shape(cfg, r.value)
  {
    var pc := s.ppc[p];
    assert PcOk(cfg, p, s.sent[p], pc);
    match pc
    case PIdle => None
    case PWait(_, _, _, _) => Some(SetPc(cfg, s, p, AfterWait(m, cfg, s, pc)))
    case PScan(_, _, _, _) => Some(SetPc(cfg, s, p, AfterScan(m, cfg, s, pc)))
    case PLoad(want, timed, limit) => Some(SetPc(cfg, s, p, PCas(want, timed, want, limit, s.next)))
    case PCas(_, _, _, _, _) => Some(CasStep(m, cfg, s, p, flag))
    case PTimedWait(_, _, _, _) => Some(SetPc(cfg, s, p, AfterTimedWait(m, cfg, s, pc, flag)))
    case PWrite(_, _, _) => Some(WriteStep(m, cfg, s, p))
    case PPublish(_, _, _) => Some(PublishStep(m, cfg, s, p))
  }

  // ------------------------------------------------------------------
  // Consumer steps.
  // ------------------------------------------------------------------

  function NextToCheck(m: Arith, target: int, sq: int): ConsumerPc {
    if m.Diff(m.Norm(sq + 1), target) <= 0 then CCheck(target, m.Norm(sq + 1)) else CExtend(target)
  }

  function AfterLoad(m: Arith, cfg: Config, s: State, c: nat): ConsumerPc
    requires Shape(cfg, s) && c < |s.cpc|
  {
    assert CpcOk(cfg, c, s.cpc[c]);
    match s.cpc[c]
    case CCheck(target, sq) =>
      if s.pub[Slot(cfg.n, sq)] == sq then NextToCheck(m, target, sq) else CSpin(target, sq)
    case CSpin(target, sq) =>
      if ScanLoad(m, s.pub[Slot(cfg.n, sq)], sq, 0, 1, 0).Passed? then NextToCheck(m, target, sq) else CSpin(target, sq)
    case CExtend(last) =>
      var sq := m.Norm(last + 1);
      if s.pub[Slot(cfg.n, sq)] == sq then CExtend(sq) else CRead(last)
    case CWait(target, i, minDelta) =>
      (match ScanLoad(m, s.barrier[cfg.deps[c][i]], target, i, |cfg.deps[c]|, minDelta)
       case Failed => CWait(target, 0, 0)
       case More(delta) => CWait(target, i + 1, delta)
       case Passed(result) => CRead(result))
    case _ => s.cpc[c]
  }

  function ConsumerStep(m: Arith, cfg: Config, s: State, c: nat): Option<State>
    requires Shape(cfg, s) && c < |s.cpc|
  {
    match s.cpc[c]
    case CIdle => None
    case CRead(available) =>
      Some(s.(got := s.got[c := s.got[c] + [s.ring[Slot(cfg.n, s.pos[c])]]],
              pos := s.pos[c := m.Norm(s.pos[c] + 1)],
              cpc := s.cpc[c := if s.pos[c] == available then CRelease(available) else CRead(available)]))
    case CRelease(available) =>
      Some(s.(barrier := s.barrier[c := available], cpc := s.cpc[c := CIdle]))
    case _ => Some(s.(cpc := s.cpc[c := AfterLoad(m, cfg, s, c)]))
  }

  // ------------------------------------------------------------------
  // The whole system.
  // ------------------------------------------------------------------

  function Step(m: Arith, cfg: Config, s: State, l: Label): (r: Option<State>)
    requires Shape(cfg, s)
    ensures r.Some? ==> Shape(cfg, r.value)
  {
    match l
    case Claim(p, count) =>
      if p < |s.ppc| && s.ppc[p].PIdle? && 1 <= count <= |cfg.script[p]| - s.sent[p] then
        var taken := Min(count, cfg.n);
        Some(Advance(m, cfg, s, p, taken, PWait(s.next, taken, 0, 0)))
      else None
    case Try(p, count, timed) =>
      if p < |s.ppc| && s.ppc[p].PIdle? && 1 <= count <= |cfg.script[p]| - s.sent[p] then
        Some(SetPc(cfg, s, p, PScan(count, timed, 0, 0)))
      else None
    case Producer(p, flag) => if p < |s.ppc| then ProducerStep(m, cfg, s, p, flag) else None
    case Wait(c, ahead) =>
      if c < |s.cpc| && s.cpc[c].CIdle? && |s.got[c]| < cfg.Total() && ahead < cfg.n then
        var target := m.Norm(s.pos[c] + ahead);
        Some(s.(cpc := s.cpc[c := if cfg.deps[c] == [] then CCheck(target, s.pos[c]) else CWait(target, 0, 0)]))
      else None
    case Consumer(c) => if c < |s.cpc| then ConsumerStep(m, cfg, s, c) else None
  }

  /** The state after the labels ls, if they can be taken in that order. */
  function Run(m: Arith, cfg: Config, ls: seq<Label>): (r: Option<State>)
    requires cfg.Shape()
    ensures r.Some? ==> Shape(cfg, r.value)
  {
    if ls == [] then Some(Init(m, cfg))
    else match Run(m, cfg, ls[..|ls| - 1])
      case None => None
      case Some(s) => Step(m, cfg, s, ls[|ls| - 1])
  }

  // ------------------------------------------------------------------
  // The unbounded log the queue stands for.
  // ------------------------------------------------------------------

  function ItemOf(cfg: Config, o: (nat, nat)): int {
    if o.0 < |cfg.script| && o.1 < |cfg.script[o.0]| then cfg.script[o.0][o.1] else 0
  }

  /** Entry x is the item for which sequence x was claimed. */
  function Log(cfg: Config, owner: seq<(nat, nat)>): (log: seq<int>)
    ensures |log| == |owner|
  {
    seq(|owner|, x requires 0 <= x < |owner| => ItemOf(cfg, owner[x]))
  }

  predicate Finished(cfg: Config, s: State)
    requires Shape(cfg, s)
  {
    && (forall p :: 0 <= p < |s.ppc| ==> s.ppc[p].PIdle? && s.sent[p] == |cfg.script[p]|)
    && (forall c :: 0 <= c < |s.cpc| ==> s.cpc[c].CIdle? && |s.got[c]| == cfg.Total())
  }
}
