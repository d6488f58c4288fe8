/** What a consumer's wait returns while other threads run. */
module Waits {
  import opened Protocol
  import opened Invariant
  import opened Preservation
  import opened Safety

  predicate Awaiting(pc: ConsumerPc) { pc.CCheck? || pc.CSpin? || pc.CExtend? || pc.CWait? }

  /** Where a wait for the next item can begin, and that its call changes nothing else. */
  lemma WaitsCanBegin(cfg: Config, s: State, c: nat, ahead: nat)
    requires Shape(cfg, s) && c < |s.cpc|
    ensures Step(Ideal, cfg, s, Wait(c, ahead)).Some? <==> s.cpc[c].CIdle? && |s.got[c]| < cfg.Total() && ahead < cfg.n
    ensures Step(Ideal, cfg, s, Wait(c, ahead)).Some? ==>
              var t := Step(Ideal, cfg, s, Wait(c, ahead)).value;
              t == s.(cpc := s.cpc[c := t.cpc[c]]) && WaitsFor(cfg, c, t.cpc[c], s.pos[c] + ahead)
              && (t.cpc[c].CWait? ==> t.cpc[c].i == 0)
  {
  }

  /** In a wait for x: in `wait_until_published` of the claim strategy, or of the barriers
      of earlier stages. */
  predicate WaitsFor(cfg: Config, c: nat, pc: ConsumerPc, x: int)
    requires c < |cfg.deps|
  {
    match pc
    case CCheck(target, _) => cfg.deps[c] == [] && target == x
    case CSpin(target, _) => cfg.deps[c] == [] && target == x
    case CExtend(last) => cfg.deps[c] == [] && x <= last
    case CWait(target, _, _) => cfg.deps[c] != [] && target == x
    case _ => false
  }

  ghost predicate AwaitingAfter(cfg: Config, ls: seq<Label>, c: nat)
    requires cfg.Shape()
  {
    Run(Ideal, cfg, ls).Some? && c < |cfg.deps| && Awaiting(Run(Ideal, cfg, ls).value.cpc[c])
  }

  ghost predicate AwaitingFrom(cfg: Config, ls: seq<Label>, k: nat, c: nat)
    requires cfg.Shape()
  {
    forall j :: k <= j <= |ls| ==> AwaitingAfter(cfg, ls[..j], c)
  }

  /** The k-th step is c's call of a wait, which has not returned. */
  ghost predicate InWaitCall(cfg: Config, ls: seq<Label>, k: nat, c: nat)
    requires cfg.Shape()
  {
    k < |ls| && ls[k].Wait? && ls[k].c == c && AwaitingFrom(cfg, ls, k + 1, c)
  }

  lemma AwaitingPrefix(cfg: Config, ls: seq<Label>, k: nat, c: nat)
    requires cfg.Shape() && k < |ls| && AwaitingFrom(cfg, ls, k, c)
    ensures AwaitingFrom(cfg, ls[..|ls| - 1], k, c) && AwaitingAfter(cfg, ls, c)
            && AwaitingAfter(cfg, ls[..|ls| - 1], c)
    ensures ls[..|ls| - 1][..k] == ls[..k]
  {
    var before := ls[..|ls| - 1];
    assert forall j :: k <= j <= |before| ==> before[..j] == ls[..j];
    assert ls[..|ls|] == ls;
    assert before[..|before|] == before;
  }

  lemma OthersLeaveWait(cfg: Config, s: State, l: Label, c: nat)
    requires Shape(cfg, s) && c < |s.cpc| && Awaiting(s.cpc[c]) && Step(Ideal, cfg, s, l).Some? && l != Consumer(c)
    ensures var t := Step(Ideal, cfg, s, l).value;
            t.cpc[c] == s.cpc[c] && t.pos[c] == s.pos[c]
  {
  }

  lemma StepKeepsWait(cfg: Config, s: State, l: Label, c: nat, x: int)
    requires Inv(cfg, s) && c < |s.cpc| && Step(Ideal, cfg, s, l).Some? && WaitsFor(cfg, c, s.cpc[c], x)
    requires Awaiting(Step(Ideal, cfg, s, l).value.cpc[c])
    ensures var t := Step(Ideal, cfg, s, l).value;
            WaitsFor(cfg, c, t.cpc[c], x) && t.pos[c] == s.pos[c]
  {
    assert CpcOk(cfg, c, s.cpc[c]) && ConsOk(cfg, s.owner, s.sent, s.barrier, c, s.pos[c], s.cpc[c]);
    if l != Consumer(c) { OthersLeaveWait(cfg, s, l, c); }
  }

  /** Throughout the call the wait is for the item it was asked for. */
  lemma {:induction false} CallWaitsFor(cfg: Config, ls: seq<Label>, k: nat, c: nat)
    requires cfg.Valid() && InWaitCall(cfg, ls, k, c)
    ensures Run(Ideal, cfg, ls).Some? && Run(Ideal, cfg, ls[..k]).Some? && c < |cfg.deps|
    ensures var s, start := Run(Ideal, cfg, ls).value, Run(Ideal, cfg, ls[..k]).value;
            s.pos[c] == start.pos[c] && WaitsFor(cfg, c, s.cpc[c], start.pos[c] + ls[k].ahead)
  {
    assert ls[..|ls|] == ls;
    var before := ls[..|ls| - 1];
    if k + 1 == |ls| {
      assert before == ls[..k];
      WaitsCanBegin(cfg, Run(Ideal, cfg, before).value, c, ls[k].ahead);
    } else {
      AwaitingPrefix(cfg, ls, k + 1, c);
      assert before[..k] == ls[..k];
      CallWaitsFor(cfg, before, k, c);
      RunInv(cfg, before);
      var start := Run(Ideal, cfg, ls[..k]).value;
      StepKeepsWait(cfg, Run(Ideal, cfg, before).value, ls[|ls| - 1], c, start.pos[c] + ls[k].ahead);
    }
  }

  // ------------------------------------------------------------------
  // The steps of a wait.
  // ------------------------------------------------------------------

  /** `last_published_after` stops exactly at the first unpublished sequence. */
  lemma ExtendStopsAtTheGap(cfg: Config, ls: seq<Label>, s: State, c: nat)
    requires Reached(cfg, ls, s) && c < |s.cpc| && s.cpc[c].CExtend?
    ensures var last := s.cpc[c].last;
            AfterLoad(Ideal, cfg, s, c) == if Pub(s.owner, s.sent, last + 1) then CExtend(last + 1) else CRead(last)
  {
    ReachedInv(cfg, ls, s);
    assert ConsOk(cfg, s.owner, s.sent, s.barrier, c, s.pos[c], s.cpc[c]);
    TestsDecideMembership(cfg, ls, s, c, s.cpc[c].last + 1);
  }

  /** A wait for `target` goes on exactly while its current sequence is unpublished, and
      ends at the target. */
  lemma WaitChecksEverySequence(cfg: Config, ls: seq<Label>, s: State, c: nat)
    requires Reached(cfg, ls, s) && c < |s.cpc| && (s.cpc[c].CCheck? || s.cpc[c].CSpin?)
    ensures var target, x := s.cpc[c].target, s.cpc[c].sq;
            AfterLoad(Ideal, cfg, s, c) ==
              if !Pub(s.owner, s.sent, x) then CSpin(target, x)
              else if x < target then CCheck(target, x + 1) else CExtend(target)
  {
    ReachedInv(cfg, ls, s);
    assert ConsOk(cfg, s.owner, s.sent, s.barrier, c, s.pos[c], s.cpc[c]);
    TestsDecideMembership(cfg, ls, s, c, s.cpc[c].sq);
  }

  /** A load of a group wait that finds a stage behind the target starts the scan over; any
      other goes on to the next stage, and after the last one the wait ends. */
  lemma StageWaitChecksEveryStage(cfg: Config, ls: seq<Label>, s: State, c: nat)
    requires Reached(cfg, ls, s) && c < |s.cpc| && s.cpc[c].CWait?
    ensures s.cpc[c].i < |cfg.deps[c]|
    ensures var CWait(target, i, _), pc := s.cpc[c], AfterLoad(Ideal, cfg, s, c);
            if s.barrier[cfg.deps[c][i]] < target then pc == CWait(target, 0, 0)
            else if i + 1 < |cfg.deps[c]| then pc.CWait? && pc.target == target && pc.i == i + 1
            else pc.CRead?
  {
    ReachedInv(cfg, ls, s);
    assert CpcOk(cfg, c, s.cpc[c]) && ConsOk(cfg, s.owner, s.sent, s.barrier, c, s.pos[c], s.cpc[c]);
  }

  /** So do the loads of the claim's wait for its barriers, and of the timed one. */
  lemma ClaimWaitsCheckEveryBarrier(cfg: Config, ls: seq<Label>, s: State, p: nat, timeout: bool)
    requires Reached(cfg, ls, s) && p < |s.ppc| && (s.ppc[p].PWait? || s.ppc[p].PTimedWait?)
    ensures s.ppc[p].i < |cfg.gate|
    ensures Step(Ideal, cfg, s, Producer(p, timeout)).Some?
    ensures var pc, pc' := s.ppc[p], Step(Ideal, cfg, s, Producer(p, timeout)).value.ppc[p];
            var barrier, last := s.barrier[cfg.gate[pc.i]], pc.i + 1 == |cfg.gate|;
            if pc.PWait? then
              if barrier < pc.first + pc.count - 1 - cfg.n then pc' == PWait(pc.first, pc.count, 0, 0)
              else if last then pc' == PWrite(pc.first, pc.count, 0)
              else pc'.PWait? && pc'.first == pc.first && pc'.count == pc.count && pc'.i == pc.i + 1
            else
              if barrier < pc.seen - cfg.n then pc' == if timeout then PIdle else PTimedWait(pc.want, pc.seen, 0, 0)
              else if last then pc'.PCas? && pc'.timed && pc'.count == pc'.want == pc.want && pc'.seen == pc.seen
              else pc'.PTimedWait? && pc'.want == pc.want && pc'.seen == pc.seen && pc'.i == pc.i + 1
  {
    ReachedInv(cfg, ls, s);
    assert PcOk(cfg, p, s.sent[p], s.ppc[p]) && ScanOk(cfg, s.next, s.barrier, s.ppc[p]);
  }

  // ------------------------------------------------------------------
  // What it returns.
  // ------------------------------------------------------------------

  /** A wait returns a sequence at or after the one it was called for.  All up to it are
      published, and released by the stages that c waits for; without such stages, it is
      the last of those published without a gap. */
  lemma WaitReturns(cfg: Config, ls: seq<Label>, s: State, k: nat, c: nat)
    requires Reached(cfg, ls, s) && InWaitCall(cfg, ls, k, c)
    ensures c < |s.cpc| && Step(Ideal, cfg, s, Consumer(c)).Some? && Run(Ideal, cfg, ls[..k]).Some?
    ensures var start, pc := Run(Ideal, cfg, ls[..k]).value, Step(Ideal, cfg, s, Consumer(c)).value.cpc[c];
            Awaiting(pc) ||
            (pc.CRead? && start.pos[c] + ls[k].ahead <= pc.available
             && AllPub(s.owner, s.sent, pc.available) && Upstream(cfg, s.barrier, c, pc.available)
             && (cfg.deps[c] == [] ==> !Pub(s.owner, s.sent, pc.available + 1)))
  {
    ReachedInv(cfg, ls, s);
    CallWaitsFor(cfg, ls, k, c);
    LoadOk(cfg, s, c);
    if s.cpc[c].CExtend? {
      ExtendStopsAtTheGap(cfg, ls, s, c);
    } else if s.cpc[c].CWait? {
      StageWaitChecksEveryStage(cfg, ls, s, c);
      assert ConsOk(cfg, s.owner, s.sent, s.barrier, c, s.pos[c], s.cpc[c]);
    } else {
      WaitChecksEverySequence(cfg, ls, s, c);
    }
  }

  /** What a scan that began when all stages were at or beyond b has computed. */
  predicate StageBound(b: int, pc: ConsumerPc) { pc.CWait? && (pc.i > 0 ==> b <= pc.target + pc.minDelta) }

  lemma StagesOnlyAdvance(cfg: Config, s: State, l: Label, c: nat, b: int)
    requires Inv(cfg, s) && c < |cfg.deps| && Step(Ideal, cfg, s, l).Some? && Upstream(cfg, s.barrier, c, b)
    ensures Upstream(cfg, Step(Ideal, cfg, s, l).value.barrier, c, b)
  {
    if l.Consumer? {
      assert ConsOk(cfg, s.owner, s.sent, s.barrier, l.c, s.pos[l.c], s.cpc[l.c]);
    }
  }

  lemma StepKeepsStageBound(cfg: Config, s: State, l: Label, c: nat, b: int)
    requires Inv(cfg, s) && c < |s.cpc| && Step(Ideal, cfg, s, l).Some?
    requires Upstream(cfg, s.barrier, c, b) && StageBound(b, s.cpc[c]) && Awaiting(Step(Ideal, cfg, s, l).value.cpc[c])
    ensures StageBound(b, Step(Ideal, cfg, s, l).value.cpc[c])
  {
    assert CpcOk(cfg, c, s.cpc[c]);
    if l != Consumer(c) { OthersLeaveWait(cfg, s, l, c); }
  }

  /** After j steps c begins a scan of the stages it waits for, all at or beyond b. */
  ghost predicate ScansFrom(cfg: Config, ls: seq<Label>, j: nat, c: nat, b: int)
    requires cfg.Shape() && j <= |ls|
  {
    && AwaitingFrom(cfg, ls, j, c) && Run(Ideal, cfg, ls[..j]).Some? && c < |cfg.deps|
    && var s := Run(Ideal, cfg, ls[..j]).value; s.cpc[c].CWait? && s.cpc[c].i == 0 && Upstream(cfg, s.barrier, c, b)
  }

  lemma {:induction false} WaitKeepsStageBound(cfg: Config, ls: seq<Label>, j: nat, c: nat, b: int)
    requires cfg.Valid() && j <= |ls| && ScansFrom(cfg, ls, j, c, b)
    ensures Run(Ideal, cfg, ls).Some? && Upstream(cfg, Run(Ideal, cfg, ls).value.barrier, c, b)
    ensures StageBound(b, Run(Ideal, cfg, ls).value.cpc[c])
  {
    assert ls[..|ls|] == ls;
    if j < |ls| {
      var before := ls[..|ls| - 1];
      AwaitingPrefix(cfg, ls, j, c);
      WaitKeepsStageBound(cfg, before, j, c, b);
      RunInv(cfg, before);
      StagesOnlyAdvance(cfg, Run(Ideal, cfg, before).value, ls[|ls| - 1], c, b);
      StepKeepsStageBound(cfg, Run(Ideal, cfg, before).value, ls[|ls| - 1], c, b);
    }
  }

  /** A wait on earlier stages returns a value between the least of their barriers when
      its last scan began and the least when it ends: at least any b that all had
      reached when some scan began, and at most any of them. */
  lemma StageWaitReturns(cfg: Config, ls: seq<Label>, s: State, k: nat, c: nat, j: nat, b: int)
    requires Reached(cfg, ls, s) && InWaitCall(cfg, ls, k, c) && k < j <= |ls| && ScansFrom(cfg, ls, j, c, b)
    requires Step(Ideal, cfg, s, Consumer(c)).Some? && Step(Ideal, cfg, s, Consumer(c)).value.cpc[c].CRead?
    ensures Run(Ideal, cfg, ls[..k]).Some?
    ensures var start, available := Run(Ideal, cfg, ls[..k]).value,
            Step(Ideal, cfg, s, Consumer(c)).value.cpc[c].available;
            && b <= available && start.pos[c] + ls[k].ahead <= available && Upstream(cfg, s.barrier, c, available)
  {
    WaitReturns(cfg, ls, s, k, c);
    WaitKeepsStageBound(cfg, ls, j, c, b);
    ReachedInv(cfg, ls, s);
    assert CpcOk(cfg, c, s.cpc[c]);
  }
}
