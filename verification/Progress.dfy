/** Deadlock freedom and termination of the ideal multi-producer protocol, under every
    schedule that keeps all its threads running. */
module Progress {
  import opened Slots
  import opened Sums
  import opened Protocol
  import opened Invariant
  import opened Preservation
  import opened Safety

  // ------------------------------------------------------------------
  // Milestones: the steps after which less is left to do.  Every other step (a load within
  // a scan, a failed scan, a compare-exchange that fails, a polling call) changes only
  // where its own thread is.
  // ------------------------------------------------------------------

  predicate Milestone(cfg: Config, s: State, l: Label)
    requires Shape(cfg, s)
  {
    Step(Ideal, cfg, s, l).Some? &&
    match l
    case Claim(_, _) => true
    case Try(_, _, _) => false
    case Producer(p, flag) =>
      var pc := s.ppc[p];
      assert PcOk(cfg, p, s.sent[p], pc);
      pc.PWrite? || pc.PPublish? || (pc.PWait? && AfterWait(Ideal, cfg, s, pc).PWrite?)
      || (pc.PCas? && pc.limit >= pc.seen == s.next && !flag)
    case Wait(_, _) => true
    case Consumer(c) =>
      var pc := s.cpc[c];
      assert CpcOk(cfg, c, pc);
      if pc.CCheck? || pc.CSpin? then !AfterLoad(Ideal, cfg, s, c).CSpin?
      else if pc.CWait? then AfterLoad(Ideal, cfg, s, c).CRead?
      else true
  }

  /** For each unsent item one claim, grant, write, store and signal are left at most. */
  function ProducerWork(cfg: Config, p: nat, sent: nat, pc: ProducerPc): int
    requires p < |cfg.script|
  {
    5 * (|cfg.script[p]| - sent) +
    match pc
    case PWait(_, _, _, _) => -1
    case PWrite(_, _, k) => -2 - k
    case PPublish(_, count, k) => 4 * k - 2 - count
    case _ => 0
  }

  function ConsumerWork(cfg: Config, pos: int, pc: ConsumerPc): int {
    var T := cfg.Total();
    (T + cfg.n + 6) * (T - pos) +
    match pc
    case CIdle => T + cfg.n + 4
    case CCheck(target, sq) => T + 2 + target - sq
    case CSpin(target, sq) => T + 2 + target - sq
    case CExtend(last) => 1 + T - last
    case CWait(_, _, _) => 1
    case CRead(_) => 0
    case CRelease(_) => T + cfg.n + 5
  }

  function ProducerWorks(cfg: Config, s: State): seq<int>
    requires Shape(cfg, s)
  {
    seq(|s.ppc|, p requires 0 <= p < |s.ppc| => ProducerWork(cfg, p, s.sent[p], s.ppc[p]))
  }

  function ConsumerWorks(cfg: Config, s: State): seq<int>
    requires Shape(cfg, s)
  {
    seq(|s.cpc|, c requires 0 <= c < |s.cpc| => ConsumerWork(cfg, s.pos[c], s.cpc[c]))
  }

  /** A bound on the milestones left. */
  function Work(cfg: Config, s: State): int
    requires Shape(cfg, s)
  {
    Sum(ProducerWorks(cfg, s)) + Sum(ConsumerWorks(cfg, s))
  }

  // ------------------------------------------------------------------
  // The measure is bounded below.
  // ------------------------------------------------------------------

  lemma ClaimedWithinScripts(cfg: Config, s: State)
    requires Inv(cfg, s)
    ensures s.next <= cfg.Total()
    ensures forall c: nat :: c < |s.pos| ==> 0 <= s.pos[c] <= s.next
  {
    var lens := seq(|cfg.script|, p requires 0 <= p < |cfg.script| => |cfg.script[p]|);
    forall p: nat | p < |cfg.script|
      ensures Claimed(s.sent, s.ppc)[p] <= lens[p]
    {
      assert PcOk(cfg, p, s.sent[p], s.ppc[p]);
    }
    SumMonotone(Claimed(s.sent, s.ppc), lens);
    forall c: nat | c < |s.pos|
      ensures 0 <= s.pos[c] <= s.next
    {
      assert ReadOk(cfg, s.owner, s.pos[c], s.got[c]);
    }
  }

  lemma MulNonNegative(a: int, b: int)
    requires a >= 0 && b >= 0
    ensures a * b >= 0
  {
  }

  lemma ProducerWorkBounded(cfg: Config, s: State, p: nat)
    requires Inv(cfg, s) && p < |s.ppc|
    ensures ProducerWork(cfg, p, s.sent[p], s.ppc[p]) >= 0
  {
    assert PcOk(cfg, p, s.sent[p], s.ppc[p]) && ScanOk(cfg, s.next, s.barrier, s.ppc[p]);
  }

  lemma ConsumerWorkBounded(cfg: Config, s: State, c: nat)
    requires Inv(cfg, s) && c < |s.cpc|
    ensures ConsumerWork(cfg, s.pos[c], s.cpc[c]) >= 0
  {
    assert ConsOk(cfg, s.owner, s.sent, s.barrier, c, s.pos[c], s.cpc[c]);
    ClaimedWithinScripts(cfg, s);
    MulNonNegative(cfg.Total() + cfg.n + 6, cfg.Total() - s.pos[c]);
    if s.cpc[c].CExtend? {
      assert Pub(s.owner, s.sent, s.cpc[c].last);
    }
  }

  lemma WorkBounded(cfg: Config, s: State)
    requires Inv(cfg, s)
    ensures Work(cfg, s) >= 0
  {
    forall p: nat | p < |s.ppc| { ProducerWorkBounded(cfg, s, p); }
    forall c: nat | c < |s.cpc| { ConsumerWorkBounded(cfg, s, c); }
    SumNonNegative(ProducerWorks(cfg, s));
    SumNonNegative(ConsumerWorks(cfg, s));
  }

  // ------------------------------------------------------------------
  // Milestones decrease it, and other steps leave it as it is.
  // ------------------------------------------------------------------

  lemma OneProducerWorks(cfg: Config, s: State, t: State, p: nat)
    requires Shape(cfg, s) && Shape(cfg, t) && p < |s.ppc| && t.pos == s.pos && t.cpc == s.cpc
    requires t.ppc == s.ppc[p := t.ppc[p]] && t.sent == s.sent[p := t.sent[p]]
    ensures Work(cfg, t) - Work(cfg, s)
         == ProducerWork(cfg, p, t.sent[p], t.ppc[p]) - ProducerWork(cfg, p, s.sent[p], s.ppc[p])
  {
    var w := ProducerWork(cfg, p, t.sent[p], t.ppc[p]);
    assert ProducerWorks(cfg, t) == ProducerWorks(cfg, s)[p := w];
    SumUpdate(ProducerWorks(cfg, s), p, w);
    assert ConsumerWorks(cfg, t) == ConsumerWorks(cfg, s);
  }

  lemma OneConsumerWorks(cfg: Config, s: State, t: State, c: nat)
    requires Shape(cfg, s) && Shape(cfg, t) && c < |s.cpc| && t.ppc == s.ppc && t.sent == s.sent
    requires t.pos == s.pos[c := t.pos[c]] && t.cpc == s.cpc[c := t.cpc[c]]
    ensures Work(cfg, t) - Work(cfg, s)
         == ConsumerWork(cfg, t.pos[c], t.cpc[c]) - ConsumerWork(cfg, s.pos[c], s.cpc[c])
  {
    var w := ConsumerWork(cfg, t.pos[c], t.cpc[c]);
    assert ConsumerWorks(cfg, t) == ConsumerWorks(cfg, s)[c := w];
    SumUpdate(ConsumerWorks(cfg, s), c, w);
    assert ProducerWorks(cfg, t) == ProducerWorks(cfg, s);
  }

  /** From work before to work after: less at a milestone, and otherwise the same. */
  predicate Lowers(milestone: bool, before: int, after: int) {
    if milestone then after < before else after == before
  }

  lemma CasWorks(cfg: Config, s: State, p: nat, flag: bool)
    requires Inv(cfg, s) && p < |s.ppc| && s.ppc[p].PCas?
    ensures var t := CasStep(Ideal, cfg, s, p, flag);
            t.sent == s.sent && Lowers(s.ppc[p].limit >= s.ppc[p].seen == s.next && !flag,
                                       ProducerWork(cfg, p, s.sent[p], s.ppc[p]),
                                       ProducerWork(cfg, p, t.sent[p], t.ppc[p]))
  {
    assert PcOk(cfg, p, s.sent[p], s.ppc[p]);
  }

  lemma WriteWorks(cfg: Config, s: State, p: nat)
    requires Inv(cfg, s) && p < |s.ppc| && s.ppc[p].PWrite?
    ensures var t := WriteStep(Ideal, cfg, s, p);
            ProducerWork(cfg, p, t.sent[p], t.ppc[p]) < ProducerWork(cfg, p, s.sent[p], s.ppc[p])
  {
    assert PcOk(cfg, p, s.sent[p], s.ppc[p]);
  }

  lemma PublishWorks(cfg: Config, s: State, p: nat)
    requires Inv(cfg, s) && p < |s.ppc| && s.ppc[p].PPublish?
    ensures var t := PublishStep(Ideal, cfg, s, p);
            ProducerWork(cfg, p, t.sent[p], t.ppc[p]) < ProducerWork(cfg, p, s.sent[p], s.ppc[p])
  {
    assert PcOk(cfg, p, s.sent[p], s.ppc[p]) && ScanOk(cfg, s.next, s.barrier, s.ppc[p]);
  }

  lemma ScanWorks(cfg: Config, s: State, p: nat, flag: bool)
    requires Inv(cfg, s) && p < |s.ppc|
    requires s.ppc[p].PWait? || s.ppc[p].PScan? || s.ppc[p].PLoad? || s.ppc[p].PTimedWait?
    ensures Step(Ideal, cfg, s, Producer(p, flag)).Some?
    ensures var t := Step(Ideal, cfg, s, Producer(p, flag)).value;
            t.sent == s.sent && Lowers(Milestone(cfg, s, Producer(p, flag)),
                                       ProducerWork(cfg, p, s.sent[p], s.ppc[p]),
                                       ProducerWork(cfg, p, t.sent[p], t.ppc[p]))
  {
    assert PcOk(cfg, p, s.sent[p], s.ppc[p]);
  }

  lemma PositionWorks(cfg: Config, s: State, p: nat, flag: bool)
    requires Inv(cfg, s) && p < |s.ppc| && ProducerStep(Ideal, cfg, s, p, flag).Some?
    ensures Step(Ideal, cfg, s, Producer(p, flag)).Some?
    ensures var t := ProducerStep(Ideal, cfg, s, p, flag).value;
            Lowers(Milestone(cfg, s, Producer(p, flag)),
                   ProducerWork(cfg, p, s.sent[p], s.ppc[p]), ProducerWork(cfg, p, t.sent[p], t.ppc[p]))
  {
    assert PcOk(cfg, p, s.sent[p], s.ppc[p]);
    if s.ppc[p].PCas? {
      CasWorks(cfg, s, p, flag);
    } else if s.ppc[p].PWrite? {
      WriteWorks(cfg, s, p);
    } else if s.ppc[p].PPublish? {
      PublishWorks(cfg, s, p);
    } else {
      ScanWorks(cfg, s, p, flag);
    }
  }

  lemma OwnFieldsOnly(cfg: Config, s: State, p: nat, flag: bool)
    requires Shape(cfg, s) && p < |s.ppc| && ProducerStep(Ideal, cfg, s, p, flag).Some?
    ensures var t := ProducerStep(Ideal, cfg, s, p, flag).value;
            && t.ppc == s.ppc[p := t.ppc[p]] && t.sent == s.sent[p := t.sent[p]] && t.pos == s.pos && t.cpc == s.cpc
  {
    assert PcOk(cfg, p, s.sent[p], s.ppc[p]);
  }

  lemma ProducerStepWorks(cfg: Config, s: State, p: nat, flag: bool)
    requires Inv(cfg, s) && p < |s.ppc| && Step(Ideal, cfg, s, Producer(p, flag)).Some?
    ensures Lowers(Milestone(cfg, s, Producer(p, flag)),
                   Work(cfg, s), Work(cfg, Step(Ideal, cfg, s, Producer(p, flag)).value))
  {
    PositionWorks(cfg, s, p, flag);
    OwnFieldsOnly(cfg, s, p, flag);
    OneProducerWorks(cfg, s, ProducerStep(Ideal, cfg, s, p, flag).value, p);
  }

  lemma ReadWorks(cfg: Config, pos: int, available: int)
    requires cfg.n > 0 && cfg.Total() >= 0
    ensures ConsumerWork(cfg, pos + 1, CRead(available)) < ConsumerWork(cfg, pos, CRead(available))
    ensures ConsumerWork(cfg, pos + 1, CRelease(available)) < ConsumerWork(cfg, pos, CRead(available))
  {
  }

  lemma LoadWorks(cfg: Config, s: State, c: nat)
    requires Inv(cfg, s) && c < |s.cpc| && !s.cpc[c].CIdle? && !s.cpc[c].CRead? && !s.cpc[c].CRelease?
    ensures Lowers(Milestone(cfg, s, Consumer(c)),
                   ConsumerWork(cfg, s.pos[c], s.cpc[c]), ConsumerWork(cfg, s.pos[c], AfterLoad(Ideal, cfg, s, c)))
  {
    var pc := s.cpc[c];
    assert CpcOk(cfg, c, pc) && ConsOk(cfg, s.owner, s.sent, s.barrier, c, s.pos[c], pc);
    ClaimedWithinScripts(cfg, s);
    if pc.CExtend? {
      assert Pub(s.owner, s.sent, pc.last);
    }
  }

  lemma ConsumerStepWorks(cfg: Config, s: State, c: nat)
    requires Inv(cfg, s) && c < |s.cpc| && Step(Ideal, cfg, s, Consumer(c)).Some?
    ensures Lowers(Milestone(cfg, s, Consumer(c)), Work(cfg, s), Work(cfg, ConsumerStep(Ideal, cfg, s, c).value))
  {
    var t := ConsumerStep(Ideal, cfg, s, c).value;
    ClaimedWithinScripts(cfg, s);
    if s.cpc[c].CRead? {
      ReadWorks(cfg, s.pos[c], s.cpc[c].available);
    } else if !s.cpc[c].CRelease? {
      LoadWorks(cfg, s, c);
    }
    OneConsumerWorks(cfg, s, t, c);
  }

  lemma StartWorks(cfg: Config, s: State, l: Label)
    requires Inv(cfg, s) && (l.Claim? || l.Try? || l.Wait?) && Step(Ideal, cfg, s, l).Some?
    ensures Lowers(Milestone(cfg, s, l), Work(cfg, s), Work(cfg, Step(Ideal, cfg, s, l).value))
  {
    var t := Step(Ideal, cfg, s, l).value;
    if l.Wait? {
      ClaimedWithinScripts(cfg, s);
      OneConsumerWorks(cfg, s, t, l.c);
    } else {
      OneProducerWorks(cfg, s, t, l.p);
    }
  }

  /** Every milestone does some of the work left, and no other step adds to it. */
  lemma StepWorks(cfg: Config, s: State, l: Label)
    requires Inv(cfg, s) && Step(Ideal, cfg, s, l).Some?
    ensures Lowers(Milestone(cfg, s, l), Work(cfg, s), Work(cfg, Step(Ideal, cfg, s, l).value))
    ensures Work(cfg, Step(Ideal, cfg, s, l).value) >= 0
  {
    StepInv(cfg, s, l);
    WorkBounded(cfg, Step(Ideal, cfg, s, l).value);
    match l
    case Producer(p, flag) => ProducerStepWorks(cfg, s, p, flag);
    case Consumer(c) => ConsumerStepWorks(cfg, s, c);
    case _ => StartWorks(cfg, s, l);
  }

  // ------------------------------------------------------------------
  // So every run has boundedly many, however often its threads wait.
  // ------------------------------------------------------------------

  lemma RunAppend(cfg: Config, ls: seq<Label>, l: Label)
    requires cfg.Shape() && Run(Ideal, cfg, ls).Some?
    ensures Run(Ideal, cfg, ls + [l]) == Step(Ideal, cfg, Run(Ideal, cfg, ls).value, l)
  {
  }

  /** The last of the steps that extend ls. */
  lemma LastOf(cfg: Config, ls: seq<Label>, more: seq<Label>) returns (before: seq<Label>, u: State)
    requires cfg.Valid() && more != [] && Run(Ideal, cfg, ls + more).Some?
    ensures before == more[..|more| - 1] && Reached(cfg, ls + before, u)
    ensures Step(Ideal, cfg, u, more[|more| - 1]) == Run(Ideal, cfg, ls + more)
  {
    before := more[..|more| - 1];
    assert (ls + more)[..|ls + more| - 1] == ls + before;
    u := Run(Ideal, cfg, ls + before).value;
  }

  lemma LastApart(ls: seq<Label>, more: seq<Label>)
    requires more != []
    ensures ls + more == ls + more[..|more| - 1] + [more[|more| - 1]]
  {
  }

  /** How many of the steps `more`, taken after ls, are milestones. */
  function Milestones(cfg: Config, ls: seq<Label>, more: seq<Label>): nat
    requires cfg.Shape()
  {
    if more == [] then 0
    else
      var k := |more| - 1;
      var u := Run(Ideal, cfg, ls + more[..k]);
      Milestones(cfg, ls, more[..k]) + if u.Some? && Milestone(cfg, u.value, more[k]) then 1 else 0
  }

  /** However the threads are scheduled, and however often they spin, a run from s has at
      most Work(s) milestones. */
  lemma {:induction false} MilestonesAreBounded(cfg: Config, ls: seq<Label>, s: State, more: seq<Label>, t: State)
    requires Reached(cfg, ls, s) && Reached(cfg, ls + more, t)
    ensures Milestones(cfg, ls, more) + Work(cfg, t) <= Work(cfg, s)
    ensures Milestones(cfg, ls, more) == 0 ==> Work(cfg, t) == Work(cfg, s)
    ensures 0 <= Work(cfg, t)
  {
    ReachedInv(cfg, ls + more, t);
    WorkBounded(cfg, t);
    if more == [] {
      assert ls + more == ls;
    } else {
      var before, u := LastOf(cfg, ls, more);
      MilestonesAreBounded(cfg, ls, s, before, u);
      ReachedInv(cfg, ls + before, u);
      StepWorks(cfg, u, more[|more| - 1]);
    }
  }

  // ------------------------------------------------------------------
  // Threads that can reach a milestone by themselves.
  // ------------------------------------------------------------------

  datatype Thread = Prod(p: nat) | Cons(c: nat)

  function ThreadOf(l: Label): Thread {
    match l
    case Claim(p, _) => Prod(p)
    case Try(p, _, _) => Prod(p)
    case Producer(p, _) => Prod(p)
    case Wait(c, _) => Cons(c)
    case Consumer(c) => Cons(c)
  }

  predicate IsThread(cfg: Config, t: Thread) {
    match t case Prod(p) => p < |cfg.script| case Cons(c) => c < |cfg.deps|
  }

  function Index(cfg: Config, t: Thread): (i: nat)
    requires IsThread(cfg, t)
    ensures i < |cfg.script| + |cfg.deps|
  {
    match t case Prod(p) => p case Cons(c) => |cfg.script| + c
  }

  function ThreadAt(cfg: Config, i: nat): (t: Thread)
    requires i < |cfg.script| + |cfg.deps|
    ensures IsThread(cfg, t) && Index(cfg, t) == i
  {
    if i < |cfg.script| then Prod(i) else Cons(i - |cfg.script|)
  }

  /** The scheduler makes a compare-exchange fail spuriously or a timed wait give up. */
  predicate Spurious(l: Label) { l.Producer? && l.flag }

  /** What t waits for, if anything, has come about. */
  predicate Ready(cfg: Config, s: State, t: Thread)
    requires Shape(cfg, s)
  {
    match t
    case Prod(p) =>
      p < |s.ppc| &&
      (match s.ppc[p]
       case PWait(first, count, _, _) => Under(cfg, s.barrier, first + count - 1)
       case PWrite(_, _, _) => true
       case PPublish(_, _, _) => true
       case _ => s.sent[p] < |cfg.script[p]| && Under(cfg, s.barrier, s.next))
    case Cons(c) =>
      c < |s.cpc| &&
      (match s.cpc[c]
       case CIdle => |s.got[c]| < cfg.Total()
       case CCheck(_, sq) => s.pub[Slot(cfg.n, sq)] == sq
       case CSpin(_, sq) => s.pub[Slot(cfg.n, sq)] == sq
       case CWait(target, _, _) => Upstream(cfg, s.barrier, c, target)
       case _ => true)
  }

  /** How many steps of its own a ready thread is from a milestone.  In `try_claim`,
      copies of the counter and the barriers may be stale: the call may fail once before
      the next one sees that there is room. */
  function Distance(cfg: Config, s: State, t: Thread): int
    requires Shape(cfg, s) && IsThread(cfg, t)
  {
    var G, n := |cfg.gate|, cfg.n;
    match t
    case Prod(p) =>
      (match s.ppc[p]
       case PWait(_, _, i, _) => G - i
       case PScan(_, _, i, min) => G - i + if i == 0 || min + n >= s.next then 2 else G + 6
       case PLoad(_, _, limit) => if limit >= s.next then 2 else G + 6
       case PCas(_, _, _, limit, seen) =>
         if seen == s.next then (if limit >= seen then 1 else G + 5)
         else if limit >= seen then G + 6 else 2 * G + 7
       case PTimedWait(_, seen, i, _) => G - i + if seen == s.next then 1 else G + 6
       case PIdle => G + 4
       case _ => 1)
    case Cons(c) => if s.cpc[c].CWait? then |cfg.deps[c]| - s.cpc[c].i else 1
  }

  function Bound(cfg: Config, t: Thread): nat
    requires IsThread(cfg, t)
  {
    match t case Prod(_) => 2 * |cfg.gate| + 7 case Cons(c) => |cfg.deps[c]| + 1
  }

  lemma DistanceIsBounded(cfg: Config, s: State, t: Thread)
    requires Inv(cfg, s) && IsThread(cfg, t)
    ensures 1 <= Distance(cfg, s, t) <= Bound(cfg, t)
  {
    match t
    case Prod(p) => assert PcOk(cfg, p, s.sent[p], s.ppc[p]) && ScanOk(cfg, s.next, s.barrier, s.ppc[p]);
    case Cons(c) => assert CpcOk(cfg, c, s.cpc[c]);
  }

  /** Steps that are no milestones change nothing but where their own thread is. */
  predicate OnlyMoves(s: State, l: Label, t: State) {
    && t == s.(ppc := t.ppc, cpc := t.cpc) && |t.ppc| == |s.ppc| && |t.cpc| == |s.cpc|
    && (forall p: nat :: p < |s.ppc| && ThreadOf(l) != Prod(p) ==> t.ppc[p] == s.ppc[p])
    && (forall c: nat :: c < |s.cpc| && ThreadOf(l) != Cons(c) ==> t.cpc[c] == s.cpc[c])
  }

  lemma QuietStep(cfg: Config, s: State, l: Label)
    requires Shape(cfg, s) && Step(Ideal, cfg, s, l).Some? && !Milestone(cfg, s, l)
    ensures OnlyMoves(s, l, Step(Ideal, cfg, s, l).value)
  {
  }

  lemma OthersStayReady(cfg: Config, s: State, l: Label, t: Thread)
    requires Shape(cfg, s) && IsThread(cfg, t) && Ready(cfg, s, t) && ThreadOf(l) != t
    requires Step(Ideal, cfg, s, l).Some? && !Milestone(cfg, s, l)
    ensures var s' := Step(Ideal, cfg, s, l).value;
            Ready(cfg, s', t) && Distance(cfg, s', t) == Distance(cfg, s, t)
  {
    QuietStep(cfg, s, l);
  }

  lemma CasComesCloser(cfg: Config, s: State, p: nat, flag: bool)
    requires Inv(cfg, s) && p < |s.ppc| && s.ppc[p].PCas? && Ready(cfg, s, Prod(p))
             && !Milestone(cfg, s, Producer(p, flag))
    ensures var s' := CasStep(Ideal, cfg, s, p, flag);
            && Ready(cfg, s', Prod(p)) && Distance(cfg, s', Prod(p)) <= Distance(cfg, s, Prod(p))
            && (flag || Distance(cfg, s', Prod(p)) < Distance(cfg, s, Prod(p)))
  {
    assert PcOk(cfg, p, s.sent[p], s.ppc[p]) && ScanOk(cfg, s.next, s.barrier, s.ppc[p]);
  }

  lemma ScanComesCloser(cfg: Config, s: State, p: nat, flag: bool)
    requires Inv(cfg, s) && p < |s.ppc| && Ready(cfg, s, Prod(p)) && !Milestone(cfg, s, Producer(p, flag))
    requires s.ppc[p].PWait? || s.ppc[p].PScan? || s.ppc[p].PLoad? || s.ppc[p].PTimedWait?
    ensures Step(Ideal, cfg, s, Producer(p, flag)).Some?
    ensures var s' := Step(Ideal, cfg, s, Producer(p, flag)).value;
            Ready(cfg, s', Prod(p)) && Distance(cfg, s', Prod(p)) < Distance(cfg, s, Prod(p))
  {
    assert PcOk(cfg, p, s.sent[p], s.ppc[p]) && ScanOk(cfg, s.next, s.barrier, s.ppc[p]);
  }

  lemma ConsumerComesCloser(cfg: Config, s: State, c: nat)
    requires Inv(cfg, s) && c < |s.cpc| && Ready(cfg, s, Cons(c)) && !s.cpc[c].CIdle? && !Milestone(cfg, s, Consumer(c))
    ensures Step(Ideal, cfg, s, Consumer(c)).Some?
    ensures var s' := Step(Ideal, cfg, s, Consumer(c)).value;
            Ready(cfg, s', Cons(c)) && Distance(cfg, s', Cons(c)) < Distance(cfg, s, Cons(c))
  {
    assert CpcOk(cfg, c, s.cpc[c]) && ConsOk(cfg, s.owner, s.sent, s.barrier, c, s.pos[c], s.cpc[c]);
  }

  /** Until the next milestone a ready thread stays ready, and each step of its own that
      does not fail spuriously brings it closer to one. */
  lemma ReadyComesCloser(cfg: Config, s: State, l: Label, t: Thread)
    requires Inv(cfg, s) && IsThread(cfg, t) && Ready(cfg, s, t)
    requires Step(Ideal, cfg, s, l).Some? && !Milestone(cfg, s, l)
    ensures var s' := Step(Ideal, cfg, s, l).value;
            && Ready(cfg, s', t) && Distance(cfg, s', t) <= Distance(cfg, s, t)
            && (ThreadOf(l) == t && !Spurious(l) ==> Distance(cfg, s', t) < Distance(cfg, s, t))
  {
    if ThreadOf(l) != t {
      OthersStayReady(cfg, s, l, t);
    } else if l.Producer? {
      if s.ppc[l.p].PCas? { CasComesCloser(cfg, s, l.p, l.flag); } else { ScanComesCloser(cfg, s, l.p, l.flag); }
    } else if l.Consumer? {
      ConsumerComesCloser(cfg, s, l.c);
    }
  }

  // ------------------------------------------------------------------
  // A thread's next step.
  // ------------------------------------------------------------------

  predicate Done(cfg: Config, s: State, t: Thread)
    requires Shape(cfg, s) && IsThread(cfg, t)
  {
    match t
    case Prod(p) => s.ppc[p].PIdle? && s.sent[p] == |cfg.script[p]|
    case Cons(c) => s.cpc[c].CIdle? && |s.got[c]| == cfg.Total()
  }

  function NextStep(s: State, t: Thread): Label {
    match t
    case Prod(p) => if p < |s.ppc| && s.ppc[p].PIdle? then Claim(p, 1) else Producer(p, false)
    case Cons(c) => if c < |s.cpc| && s.cpc[c].CIdle? then Wait(c, 0) else Consumer(c)
  }

  lemma ReadyCanStep(cfg: Config, s: State, t: Thread)
    requires Shape(cfg, s) && IsThread(cfg, t) && Ready(cfg, s, t)
    ensures Step(Ideal, cfg, s, NextStep(s, t)).Some? && ThreadOf(NextStep(s, t)) == t
    ensures !NextStep(s, t).Try? && !Spurious(NextStep(s, t))
  {
  }

  /** Only a thread with nothing left to do has no step to take. */
  lemma UnfinishedCanStep(cfg: Config, s: State, t: Thread)
    requires Inv(cfg, s) && IsThread(cfg, t)
    ensures Step(Ideal, cfg, s, NextStep(s, t)).Some? <==> !Done(cfg, s, t)
  {
    match t
    case Prod(p) => assert PcOk(cfg, p, s.sent[p], s.ppc[p]);
    case Cons(c) =>
      ClaimedWithinScripts(cfg, s);
      assert ReadOk(cfg, s.owner, s.pos[c], s.got[c]);
  }

  /** How many of the steps are t's and do not fail spuriously. */
  function StepsOf(ls: seq<Label>, t: Thread): nat {
    if ls == [] then 0
    else
      var l := ls[|ls| - 1];
      StepsOf(ls[..|ls| - 1], t) + if ThreadOf(l) == t && !Spurious(l) then 1 else 0
  }

  /** Without a milestone, every step of a ready thread brings it closer to one. */
  lemma {:induction false} QuietRun(cfg: Config, ls: seq<Label>, s: State, more: seq<Label>, u: State, t: Thread)
    requires Reached(cfg, ls, s) && Reached(cfg, ls + more, u) && Milestones(cfg, ls, more) == 0
    requires IsThread(cfg, t) && Ready(cfg, s, t)
    ensures Ready(cfg, u, t) && Distance(cfg, u, t) + StepsOf(more, t) <= Distance(cfg, s, t)
  {
    if more == [] {
      assert ls + more == ls;
    } else {
      var before, v := LastOf(cfg, ls, more);
      QuietRun(cfg, ls, s, before, v, t);
      ReachedInv(cfg, ls + before, v);
      ReadyComesCloser(cfg, v, more[|more| - 1], t);
    }
  }

  lemma DistancePositive(cfg: Config, ls: seq<Label>, s: State, t: Thread)
    requires Reached(cfg, ls, s) && IsThread(cfg, t)
    ensures Distance(cfg, s, t) > 0
  {
    ReachedInv(cfg, ls, s);
    DistanceIsBounded(cfg, s, t);
  }

  lemma ReachedWork(cfg: Config, ls: seq<Label>, s: State)
    requires Reached(cfg, ls, s)
    ensures Work(cfg, s) >= 0
  {
    ReachedInv(cfg, ls, s);
    WorkBounded(cfg, s);
  }

  /** While p has items that it has not claimed, not everything has been claimed. */
  lemma ItemsLeft(cfg: Config, s: State, p: nat)
    requires Inv(cfg, s) && p < |s.ppc| && s.sent[p] + Hi(s.ppc[p]) - Lo(s.ppc[p]) < |cfg.script[p]|
    ensures s.next < cfg.Total()
  {
    var lens := seq(|cfg.script|, q requires 0 <= q < |cfg.script| => |cfg.script[q]|);
    forall q: nat | q < |cfg.script|
      ensures Claimed(s.sent, s.ppc)[q] <= lens[q]
    {
      assert PcOk(cfg, q, s.sent[q], s.ppc[q]);
    }
    assert Claimed(s.sent, s.ppc)[p] < lens[p];
    SumMonotone(Claimed(s.sent, s.ppc), lens);
  }

  lemma NothingHeld(cfg: Config, s: State)
    requires Inv(cfg, s) && forall p: nat :: p < |s.ppc| ==> !Granted(s.ppc[p]) && !s.ppc[p].PWait?
    ensures AllPub(s.owner, s.sent, s.next - 1)
    ensures (forall p: nat :: p < |s.ppc| ==> s.sent[p] == |cfg.script[p]|) ==> s.next == cfg.Total()
  {
    var lens := seq(|cfg.script|, p requires 0 <= p < |cfg.script| => |cfg.script[p]|);
    if forall p: nat :: p < |s.ppc| ==> s.sent[p] == |cfg.script[p]| {
      assert Claimed(s.sent, s.ppc) == lens;
    }
    forall x | x <= s.next - 1
      ensures Pub(s.owner, s.sent, x)
    {
      if x >= 0 {
        assert OwnerOk(cfg, s.sent, s.ppc, x, s.owner[x]);
      }
    }
  }

  /** A load that finds a sequence behind, so that the scan starts over. */
  predicate Misses(cfg: Config, s: State, l: Label)
    requires Shape(cfg, s)
  {
    match l
    case Producer(p, _) =>
      p < |s.ppc| && s.ppc[p].PWait? &&
      (assert PcOk(cfg, p, s.sent[p], s.ppc[p]);
       AfterWait(Ideal, cfg, s, s.ppc[p]) == PWait(s.ppc[p].first, s.ppc[p].count, 0, 0))
    case Consumer(c) =>
      c < |s.cpc| &&
      (if s.cpc[c].CWait? then AfterLoad(Ideal, cfg, s, c) == CWait(s.cpc[c].target, 0, 0)
       else (s.cpc[c].CCheck? || s.cpc[c].CSpin?) && AfterLoad(Ideal, cfg, s, c).CSpin?)
    case _ => false
  }

  lemma OneAtATime(ls: seq<Label>, l: Label, rest: seq<Label>)
    ensures ls + ([l] + rest) == (ls + [l]) + rest
  {
  }

  lemma InTwoParts(ls: seq<Label>, first: seq<Label>, rest: seq<Label>)
    ensures ls + (first + rest) == (ls + first) + rest
  {
  }
}
