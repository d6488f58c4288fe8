/** What single calls return while other threads run. */
module Calls {
  import opened Sequences
  import opened Protocol
  import opened Invariant
  import opened Preservation
  import opened Safety

  // ------------------------------------------------------------------
  // Non-blocking claims.
  // ------------------------------------------------------------------

  /** Every gating barrier is at or beyond b. */
  ghost predicate GateAtLeast(cfg: Config, s: State, b: int)
    requires Shape(cfg, s)
  {
    forall i :: 0 <= i < |cfg.gate| ==> b <= s.barrier[cfg.gate[i]]
  }

  /** In a non-blocking claim, what has been computed since a scan of the barriers began
      when all of them were at or beyond b. */
  predicate TryBound(n: int, b: int, pc: ProducerPc) {
    match pc
    case PScan(_, _, i, min) => i > 0 ==> b <= min
    case PLoad(_, _, limit) => b + n <= limit
    case PCas(_, _, _, limit, _) => b + n <= limit
    case PTimedWait(_, seen, i, minDelta) => i > 0 ==> b <= seen - n + minDelta
    case _ => false
  }

  /** The scan of `try_claim`, or one of the timed wait. */
  predicate ScanBegins(pc: ProducerPc) { (pc.PScan? || pc.PTimedWait?) && pc.i == 0 }

  lemma GateOnlyAdvances(cfg: Config, s: State, l: Label, b: int)
    requires Inv(cfg, s) && Step(Ideal, cfg, s, l).Some? && GateAtLeast(cfg, s, b)
    ensures GateAtLeast(cfg, Step(Ideal, cfg, s, l).value, b)
  {
    if l.Consumer? {
      assert ConsOk(cfg, s.owner, s.sent, s.barrier, l.c, s.pos[l.c], s.cpc[l.c]);
    }
  }

  lemma OwnStepKeepsBound(cfg: Config, s: State, p: nat, flag: bool, b: int)
    requires Inv(cfg, s) && p < |s.ppc| && ProducerStep(Ideal, cfg, s, p, flag).Some?
    requires GateAtLeast(cfg, s, b) && TryBound(cfg.n, b, s.ppc[p])
    requires Trying(ProducerStep(Ideal, cfg, s, p, flag).value.ppc[p])
    ensures TryBound(cfg.n, b, ProducerStep(Ideal, cfg, s, p, flag).value.ppc[p])
  {
    assert PcOk(cfg, p, s.sent[p], s.ppc[p]) && ScanOk(cfg, s.next, s.barrier, s.ppc[p]);
  }

  lemma StepKeepsBound(cfg: Config, s: State, l: Label, p: nat, b: int)
    requires Inv(cfg, s) && p < |s.ppc| && Step(Ideal, cfg, s, l).Some?
    requires GateAtLeast(cfg, s, b) && TryBound(cfg.n, b, s.ppc[p])
    requires Trying(Step(Ideal, cfg, s, l).value.ppc[p])
    ensures TryBound(cfg.n, b, Step(Ideal, cfg, s, l).value.ppc[p])
  {
    if l.Producer? && l.p == p {
      OwnStepKeepsBound(cfg, s, p, l.flag, b);
    } else {
      OthersLeavePc(cfg, s, l, p);
    }
  }

  lemma OthersLeavePc(cfg: Config, s: State, l: Label, p: nat)
    requires Shape(cfg, s) && p < |s.ppc| && Step(Ideal, cfg, s, l).Some? && Trying(s.ppc[p])
    requires !(l.Producer? && l.p == p)
    ensures Step(Ideal, cfg, s, l).value.ppc[p] == s.ppc[p]
  {
  }

  ghost predicate TryingAfter(cfg: Config, ls: seq<Label>, p: nat)
    requires cfg.Shape()
  {
    Run(Ideal, cfg, ls).Some? && p < |Run(Ideal, cfg, ls).value.ppc| && Trying(Run(Ideal, cfg, ls).value.ppc[p])
  }

  /** From the k-th step on p is in a non-blocking claim. */
  ghost predicate TryingFrom(cfg: Config, ls: seq<Label>, k: nat, p: nat)
    requires cfg.Shape()
  {
    forall j :: k <= j <= |ls| ==> TryingAfter(cfg, ls[..j], p)
  }

  /** The k-th step is p's call of `try_claim` or `try_claim_until`, which has not returned. */
  ghost predicate InCall(cfg: Config, ls: seq<Label>, k: nat, p: nat)
    requires cfg.Shape()
  {
    k < |ls| && ls[k].Try? && ls[k].p == p && TryingFrom(cfg, ls, k + 1, p)
  }

  /** After k steps, p began a scan in such a call, which has not returned. */
  ghost predicate WithinTry(cfg: Config, ls: seq<Label>, k: nat, p: nat)
    requires cfg.Shape() && k <= |ls|
  {
    TryingFrom(cfg, ls, k, p) && ScanBegins(Run(Ideal, cfg, ls[..k]).value.ppc[p])
  }

  lemma TryingPrefix(cfg: Config, ls: seq<Label>, k: nat, p: nat)
    requires cfg.Shape() && k < |ls| && TryingFrom(cfg, ls, k, p)
    ensures TryingFrom(cfg, ls[..|ls| - 1], k, p) && TryingAfter(cfg, ls, p) && TryingAfter(cfg, ls[..|ls| - 1], p)
    ensures ls[..|ls| - 1][..k] == ls[..k]
  {
    var before := ls[..|ls| - 1];
    assert forall j :: k <= j <= |before| ==> before[..j] == ls[..j];
    assert ls[..|ls|] == ls;
    assert before[..|before|] == before;
  }

  lemma {:induction false} TryKeepsBound(cfg: Config, ls: seq<Label>, k: nat, p: nat, b: int)
    requires cfg.Valid() && k <= |ls| && WithinTry(cfg, ls, k, p)
    requires GateAtLeast(cfg, Run(Ideal, cfg, ls[..k]).value, b)
    ensures Run(Ideal, cfg, ls).Some? && p < |Run(Ideal, cfg, ls).value.ppc|
    ensures GateAtLeast(cfg, Run(Ideal, cfg, ls).value, b) && TryBound(cfg.n, b, Run(Ideal, cfg, ls).value.ppc[p])
  {
    assert ls[..|ls|] == ls;
    if k < |ls| {
      var before := ls[..|ls| - 1];
      TryingPrefix(cfg, ls, k, p);
      TryKeepsBound(cfg, before, k, p, b);
      RunInv(cfg, before);
      GateOnlyAdvances(cfg, Run(Ideal, cfg, before).value, ls[|ls| - 1], b);
      StepKeepsBound(cfg, Run(Ideal, cfg, before).value, ls[|ls| - 1], p, b);
    }
  }

  // ------------------------------------------------------------------
  // The call keeps what it was asked for.
  // ------------------------------------------------------------------

  /** The claims and waits that can be called, and that no call changes what others see
      before its first step. */
  lemma CallsCanBegin(cfg: Config, s: State, p: nat, count: nat, timed: bool)
    requires Shape(cfg, s) && p < |s.ppc|
    ensures Step(Ideal, cfg, s, Try(p, count, timed)).Some?
       <==> s.ppc[p].PIdle? && 1 <= count <= |cfg.script[p]| - s.sent[p]
    ensures Step(Ideal, cfg, s, Claim(p, count)).Some? <==> Step(Ideal, cfg, s, Try(p, count, timed)).Some?
    ensures Step(Ideal, cfg, s, Try(p, count, timed)).Some? ==>
              var t := Step(Ideal, cfg, s, Try(p, count, timed)).value;
              t == s.(ppc := s.ppc[p := t.ppc[p]]) && ScanBegins(t.ppc[p]) && t.ppc[p].PScan?
              && AsksFor(t.ppc[p], count, timed)
  {
  }

  /** The call is for count slots, and may wait only if it is timed. */
  predicate AsksFor(pc: ProducerPc, count: nat, timed: bool) {
    match pc
    case PScan(want, t, _, _) => want == count && t == timed
    case PLoad(want, t, _) => want == count && t == timed
    case PCas(want, t, _, _, _) => want == count && t == timed
    case PTimedWait(want, _, _, _) => want == count && timed
    case _ => false
  }

  lemma StepKeepsAsking(cfg: Config, s: State, l: Label, p: nat, count: nat, timed: bool)
    requires Shape(cfg, s) && p < |s.ppc| && Step(Ideal, cfg, s, l).Some? && AsksFor(s.ppc[p], count, timed)
    requires Trying(Step(Ideal, cfg, s, l).value.ppc[p])
    ensures AsksFor(Step(Ideal, cfg, s, l).value.ppc[p], count, timed)
  {
    assert PcOk(cfg, p, s.sent[p], s.ppc[p]);
    if !(l.Producer? && l.p == p) { OthersLeavePc(cfg, s, l, p); }
  }

  lemma {:induction false} CallAsks(cfg: Config, ls: seq<Label>, k: nat, p: nat)
    requires cfg.Valid() && InCall(cfg, ls, k, p)
    ensures WithinTry(cfg, ls, k + 1, p) && TryingAfter(cfg, ls, p)
    ensures AsksFor(Run(Ideal, cfg, ls).value.ppc[p], ls[k].count, ls[k].timed)
  {
    assert ls[..|ls|] == ls;
    var before := ls[..|ls| - 1];
    if k + 1 == |ls| {
      assert TryingAfter(cfg, ls[..|ls|], p);
      CallsCanBegin(cfg, Run(Ideal, cfg, before).value, p, ls[k].count, ls[k].timed);
    } else {
      TryingPrefix(cfg, ls, k + 1, p);
      CallAsks(cfg, before, k, p);
      StepKeepsAsking(cfg, Run(Ideal, cfg, before).value, ls[|ls| - 1], p, ls[k].count, ls[k].timed);
    }
  }

  /** The counter that a call compares is one it had since the call began. */
  ghost predicate WasCounter(cfg: Config, ls: seq<Label>, k: nat, seen: int)
    requires cfg.Shape()
  {
    exists j :: k < j <= |ls| && Run(Ideal, cfg, ls[..j]).Some? && Run(Ideal, cfg, ls[..j]).value.next == seen
  }

  lemma WasCounterBefore(cfg: Config, ls: seq<Label>, k: nat, seen: int)
    requires cfg.Shape() && ls != [] && WasCounter(cfg, ls[..|ls| - 1], k, seen)
    ensures WasCounter(cfg, ls, k, seen)
  {
    var before := ls[..|ls| - 1];
    var j :| k < j <= |before| && Run(Ideal, cfg, before[..j]).Some? && Run(Ideal, cfg, before[..j]).value.next == seen;
    assert before[..j] == ls[..j];
  }

  lemma NewlySeen(cfg: Config, s: State, l: Label, p: nat)
    requires Shape(cfg, s) && p < |s.ppc| && Trying(s.ppc[p]) && Step(Ideal, cfg, s, l).Some?
    ensures var pc, pc' := s.ppc[p], Step(Ideal, cfg, s, l).value.ppc[p];
            pc'.PCas? || pc'.PTimedWait? ==> pc'.seen == s.next || ((pc.PCas? || pc.PTimedWait?) && pc'.seen == pc.seen)
  {
    assert PcOk(cfg, p, s.sent[p], s.ppc[p]);
    if !(l.Producer? && l.p == p) { OthersLeavePc(cfg, s, l, p); }
  }

  lemma {:induction false} SeenWasCounter(cfg: Config, ls: seq<Label>, s: State, k: nat, p: nat)
    requires Reached(cfg, ls, s) && InCall(cfg, ls, k, p) && p < |s.ppc| && (s.ppc[p].PCas? || s.ppc[p].PTimedWait?)
    ensures WasCounter(cfg, ls, k, s.ppc[p].seen)
  {
    CallsAreScans(cfg, ls, s, k, p);
    var before := ls[..|ls| - 1];
    TryingPrefix(cfg, ls, k + 1, p);
    var u := Run(Ideal, cfg, before).value;
    NewlySeen(cfg, u, ls[|ls| - 1], p);
    if u.next == s.ppc[p].seen {
      assert ls[..|ls| - 1] == before;
    } else {
      SeenWasCounter(cfg, before, u, k, p);
      WasCounterBefore(cfg, ls, k, s.ppc[p].seen);
    }
  }

  lemma CallsAreScans(cfg: Config, ls: seq<Label>, s: State, k: nat, p: nat)
    requires Reached(cfg, ls, s) && InCall(cfg, ls, k, p) && p < |s.ppc| && (s.ppc[p].PCas? || s.ppc[p].PTimedWait?)
    ensures k + 1 < |ls|
  {
    if k + 1 == |ls| {
      assert ls[..|ls| - 1] == ls[..k];
      CallsCanBegin(cfg, Run(Ideal, cfg, ls[..k]).value, p, ls[k].count, ls[k].timed);
    }
  }

  // ------------------------------------------------------------------
  // When it returns, and what.
  // ------------------------------------------------------------------

  /** No further sequence could be granted: the counter is more than n beyond a barrier. */
  predicate Full(cfg: Config, s: State)
    requires Shape(cfg, s)
  {
    !Under(cfg, s.barrier, s.next)
  }

  /** A load of the timed wait that finds no room for the sequence it waits for. */
  predicate FindsNoRoom(cfg: Config, s: State, pc: ProducerPc)
    requires Shape(cfg, s)
  {
    pc.PTimedWait? && pc.i < |cfg.gate| && s.barrier[cfg.gate[pc.i]] + cfg.n < pc.seen
  }

  /** `try_claim` returns false exactly when the counter is beyond the limit it computed, and
      `try_claim_until` exactly when its time is up at a load that finds no room.  Either
      returns true exactly when its compare-exchange succeeds within the limit. */
  lemma HowCallsReturn(cfg: Config, ls: seq<Label>, s: State, k: nat, p: nat, flag: bool)
    requires Reached(cfg, ls, s) && InCall(cfg, ls, k, p) && p < |s.ppc|
    ensures Step(Ideal, cfg, s, Producer(p, flag)).Some?
    ensures var pc, pc' := s.ppc[p], Step(Ideal, cfg, s, Producer(p, flag)).value.ppc[p];
            && (pc'.PIdle? <==> if ls[k].timed then flag && FindsNoRoom(cfg, s, pc) else pc.PCas? && pc.limit < pc.seen)
            && (pc'.PWrite? <==> pc.PCas? && pc.seen == s.next <= pc.limit && !flag)
            && (Trying(pc') <==> !pc'.PIdle? && !pc'.PWrite?)
  {
    ReachedInv(cfg, ls, s);
    CallAsks(cfg, ls, k, p);
    assert PcOk(cfg, p, s.sent[p], s.ppc[p]) && ScanOk(cfg, s.next, s.barrier, s.ppc[p]);
  }

  /** What a false result of the multi-producer `try_claim` means: a counter that it saw was
      more than n beyond some barrier's value when the call began.  So if nobody had claimed
      in between, the buffer was full when it began. */
  lemma TryClaimFalse(cfg: Config, ls: seq<Label>, s: State, k: nat, p: nat, flag: bool)
    requires Reached(cfg, ls, s) && InCall(cfg, ls, k, p) && p < |s.ppc| && !ls[k].timed
    requires Step(Ideal, cfg, s, Producer(p, flag)).Some? && Step(Ideal, cfg, s, Producer(p, flag)).value.ppc[p].PIdle?
    ensures Run(Ideal, cfg, ls[..k + 1]).Some?
    ensures var start := Run(Ideal, cfg, ls[..k + 1]).value;
            && (exists seen :: WasCounter(cfg, ls, k, seen) && !Under(cfg, start.barrier, seen))
            && (s.next == start.next ==> Full(cfg, start))
  {
    HowCallsReturn(cfg, ls, s, k, p, flag);
    SeenWasCounter(cfg, ls, s, k, p);
    CallAsks(cfg, ls, k, p);
    ReachedInv(cfg, ls, s);
    assert ScanOk(cfg, s.next, s.barrier, s.ppc[p]);
    var start, seen := Run(Ideal, cfg, ls[..k + 1]).value, s.ppc[p].seen;
    if Under(cfg, start.barrier, seen) {
      TryKeepsBound(cfg, ls, k + 1, p, seen - cfg.n);
      assert false;
    }
    var j :| k < j <= |ls| && Run(Ideal, cfg, ls[..j]).Some? && Run(Ideal, cfg, ls[..j]).value.next == seen;
    CounterSince(cfg, ls, s, k + 1, j);
  }

  lemma CounterSince(cfg: Config, ls: seq<Label>, s: State, k: nat, j: nat)
    requires Reached(cfg, ls, s) && k <= j <= |ls|
    ensures Run(Ideal, cfg, ls[..k]).Some? && Run(Ideal, cfg, ls[..j]).Some?
    ensures Run(Ideal, cfg, ls[..k]).value.next <= Run(Ideal, cfg, ls[..j]).value.next <= s.next
  {
    LogOnlyGrows(cfg, ls, j);
    LogOnlyGrows(cfg, ls[..j], k);
    assert ls[..j][..k] == ls[..k];
  }

  /** A false result of `try_claim_until` is firmer: the buffer was full at the very load
      at which the call gave up, whatever the others did. */
  lemma TryClaimUntilFalse(cfg: Config, ls: seq<Label>, s: State, k: nat, p: nat, flag: bool)
    requires Reached(cfg, ls, s) && InCall(cfg, ls, k, p) && p < |s.ppc| && ls[k].timed
    requires Step(Ideal, cfg, s, Producer(p, flag)).Some? && Step(Ideal, cfg, s, Producer(p, flag)).value.ppc[p].PIdle?
    ensures Full(cfg, s)
  {
    HowCallsReturn(cfg, ls, s, k, p, flag);
    ReachedInv(cfg, ls, s);
    assert ScanOk(cfg, s.next, s.barrier, s.ppc[p]);
  }

  /** A true result of either: the range starts at the counter and has as many slots as the
      caller asked for, or as the limit allows.  If all barriers had reached b when some
      scan of the call began (the first, or the last of the timed wait), these are at least
      min(count, the room that b leaves); and never more than any barrier leaves now. */
  lemma TryClaimTrue(cfg: Config, ls: seq<Label>, s: State, k: nat, p: nat, flag: bool, j: nat, b: int)
    requires Reached(cfg, ls, s) && InCall(cfg, ls, k, p) && p < |s.ppc|
    requires Step(Ideal, cfg, s, Producer(p, flag)).Some? && Step(Ideal, cfg, s, Producer(p, flag)).value.ppc[p].PWrite?
    requires k < j <= |ls| && WithinTry(cfg, ls, j, p) && GateAtLeast(cfg, Run(Ideal, cfg, ls[..j]).value, b)
    ensures var t, count := Step(Ideal, cfg, s, Producer(p, flag)).value, ls[k].count;
            var taken := t.next - s.next;
            && s.ppc[p].PCas? && taken == Min(count, s.ppc[p].limit - s.next + 1) && 1 <= taken <= cfg.n
            && t.ppc[p] == PWrite(s.next, taken, 0)
            && Min(count, b + cfg.n - s.next + 1) <= taken && Under(cfg, s.barrier, s.next + taken - 1)
  {
    HowCallsReturn(cfg, ls, s, k, p, flag);
    CallAsks(cfg, ls, k, p);
    TryKeepsBound(cfg, ls, j, p, b);
    WinningCasTakesTheRoom(cfg, ls, s, p);
  }

  /** How many of its own steps `try_claim` is from its end. */
  function StepsLeft(cfg: Config, s: State, pc: ProducerPc): int {
    match pc
    case PScan(_, _, i, _) => |cfg.gate| - i + 2
    case PLoad(_, _, _) => 2
    case PCas(_, _, _, limit, seen) => if limit < seen || seen == s.next then 1 else 2
    case _ => 0
  }

  /** `try_claim` never waits: unless its compare-exchange fails spuriously, or loses to
      another claim, each of its own steps brings it closer to its end. */
  lemma TryClaimDoesNotWait(cfg: Config, ls: seq<Label>, s: State, k: nat, p: nat)
    requires Reached(cfg, ls, s) && InCall(cfg, ls, k, p) && p < |s.ppc| && !ls[k].timed
    ensures 1 <= StepsLeft(cfg, s, s.ppc[p]) <= |cfg.gate| + 2
    ensures Step(Ideal, cfg, s, Producer(p, false)).Some?
    ensures var t := Step(Ideal, cfg, s, Producer(p, false)).value;
            Trying(t.ppc[p]) ==> t.next == s.next && StepsLeft(cfg, t, t.ppc[p]) < StepsLeft(cfg, s, s.ppc[p])
  {
    ReachedInv(cfg, ls, s);
    CallAsks(cfg, ls, k, p);
    assert PcOk(cfg, p, s.sent[p], s.ppc[p]) && ScanOk(cfg, s.next, s.barrier, s.ppc[p]);
  }

  lemma OthersCostOneStep(cfg: Config, s: State, l: Label, p: nat)
    requires Shape(cfg, s) && p < |s.ppc| && Trying(s.ppc[p]) && Step(Ideal, cfg, s, l).Some?
    requires !(l.Producer? && l.p == p)
    ensures var t := Step(Ideal, cfg, s, l).value;
            StepsLeft(cfg, t, t.ppc[p]) <= StepsLeft(cfg, s, s.ppc[p]) + if t.next == s.next then 0 else 1
  {
    OthersLeavePc(cfg, s, l, p);
  }
}
