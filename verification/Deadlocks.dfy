/** Exactly when the multi-producer queue can always run to completion: clients that leave
    too little room can deadlock it. */
module Deadlocks {
  import opened Sequences
  import opened Sums
  import opened Protocol
  import opened Invariant
  import opened Safety
  import opened Progress
  import opened Completion
  import opened Schedules

  // ------------------------------------------------------------------
  // States that no run leaves.
  // ------------------------------------------------------------------

  /** c waits, through the stages before it, for item x or a later one. */
  ghost predicate Stalled(cfg: Config, s: State, c: nat, x: int)
    requires cfg.Shape() && c < |cfg.deps| == |s.cpc| == |s.barrier|
    decreases c
  {
    if cfg.deps[c] == [] then
      (s.cpc[c].CCheck? || s.cpc[c].CSpin?) && s.cpc[c].sq <= x <= s.cpc[c].target
    else
      s.cpc[c].CWait? &&
      exists j :: 0 <= j < |cfg.deps[c]| && s.barrier[cfg.deps[c][j]] < s.cpc[c].target
        && Stalled(cfg, s, cfg.deps[c][j], x)
  }

  /** q's claim waits for the gating consumer g, which waits for the claim's first item. */
  ghost predicate Stuck(cfg: Config, s: State, g: nat, q: nat)
    requires Shape(cfg, s)
  {
    && q < |s.ppc| && s.ppc[q].PWait? && g in cfg.gate && g < |cfg.deps|
    && s.barrier[g] < s.ppc[q].first + s.ppc[q].count - 1 - cfg.n && Stalled(cfg, s, g, s.ppc[q].first)
  }

  lemma OwnStall(cfg: Config, s: State, c: nat, x: int)
    requires Inv(cfg, s) && c < |s.cpc| && !Pub(s.owner, s.sent, x) && Stalled(cfg, s, c, x)
    ensures Step(Ideal, cfg, s, Consumer(c)).Some?
    ensures var t := Step(Ideal, cfg, s, Consumer(c)).value;
            && t == s.(cpc := s.cpc[c := t.cpc[c]])
            && if cfg.deps[c] == [] then (t.cpc[c].CCheck? || t.cpc[c].CSpin?) && t.cpc[c].sq <= x <= t.cpc[c].target
               else t.cpc[c].CWait? && t.cpc[c].target == s.cpc[c].target
  {
    if cfg.deps[c] == [] { CheckStalls(cfg, s, c, x); } else { ScanStalls(cfg, s, c, x); }
  }

  lemma CheckStalls(cfg: Config, s: State, c: nat, x: int)
    requires Inv(cfg, s) && c < |s.cpc| && !Pub(s.owner, s.sent, x) && Stalled(cfg, s, c, x) && cfg.deps[c] == []
    ensures var pc := AfterLoad(Ideal, cfg, s, c);
            (pc.CCheck? || pc.CSpin?) && pc.sq <= x <= pc.target
  {
    assert ConsOk(cfg, s.owner, s.sent, s.barrier, c, s.pos[c], s.cpc[c]);
    WordTells(cfg, s, c, s.cpc[c].sq);
  }

  lemma ScanStalls(cfg: Config, s: State, c: nat, x: int)
    requires Inv(cfg, s) && c < |s.cpc| && Stalled(cfg, s, c, x) && cfg.deps[c] != []
    ensures AfterLoad(Ideal, cfg, s, c).CWait? && AfterLoad(Ideal, cfg, s, c).target == s.cpc[c].target
  {
    assert CpcOk(cfg, c, s.cpc[c]) && ConsOk(cfg, s.owner, s.sent, s.barrier, c, s.pos[c], s.cpc[c]);
  }

  /** Until x is published, c waits. */
  lemma {:induction false} StalledStays(cfg: Config, s: State, l: Label, c: nat, x: int)
    requires Inv(cfg, s) && c < |s.cpc| && Step(Ideal, cfg, s, l).Some?
    requires !Pub(s.owner, s.sent, x) && Stalled(cfg, s, c, x)
    ensures var t := Step(Ideal, cfg, s, l).value;
            Stalled(cfg, t, c, x) && t.barrier[c] == s.barrier[c]
    decreases c
  {
    var t := Step(Ideal, cfg, s, l).value;
    if ThreadOf(l) == Cons(c) {
      OwnStall(cfg, s, c, x);
      assert l == Consumer(c);
    } else {
      OthersLeaveConsumer(cfg, s, l, c);
    }
    if cfg.deps[c] != [] {
      var j :| 0 <= j < |cfg.deps[c]| && s.barrier[cfg.deps[c][j]] < s.cpc[c].target
        && Stalled(cfg, s, cfg.deps[c][j], x);
      StalledStays(cfg, s, l, cfg.deps[c][j], x);
    }
  }

  lemma OthersLeaveConsumer(cfg: Config, s: State, l: Label, c: nat)
    requires Shape(cfg, s) && c < |s.cpc| && ThreadOf(l) != Cons(c) && Step(Ideal, cfg, s, l).Some?
    ensures var t := Step(Ideal, cfg, s, l).value;
            t.cpc[c] == s.cpc[c] && t.barrier[c] == s.barrier[c]
  {
  }

  lemma ClaimWaits(cfg: Config, s: State, l: Label, g: nat, q: nat)
    requires Inv(cfg, s) && Stuck(cfg, s, g, q) && Step(Ideal, cfg, s, l).Some?
    ensures var t := Step(Ideal, cfg, s, l).value;
            t.ppc[q].PWait? && t.ppc[q].first == s.ppc[q].first && t.ppc[q].count == s.ppc[q].count
  {
    if ThreadOf(l) == Prod(q) {
      OwnClaimWaits(cfg, s, l, g, q);
    }
  }

  lemma OwnClaimWaits(cfg: Config, s: State, l: Label, g: nat, q: nat)
    requires Inv(cfg, s) && Stuck(cfg, s, g, q) && Step(Ideal, cfg, s, l).Some? && ThreadOf(l) == Prod(q)
    ensures var pc := Step(Ideal, cfg, s, l).value.ppc[q];
            pc.PWait? && pc.first == s.ppc[q].first && pc.count == s.ppc[q].count
  {
    assert PcOk(cfg, q, s.sent[q], s.ppc[q]) && ScanOk(cfg, s.next, s.barrier, s.ppc[q]);
    var i :| 0 <= i < |cfg.gate| && cfg.gate[i] == g;
    assert l.Producer? && Step(Ideal, cfg, s, l).value.ppc[q] == AfterWait(Ideal, cfg, s, s.ppc[q]);
  }

  lemma StuckStays(cfg: Config, s: State, l: Label, g: nat, q: nat)
    requires Inv(cfg, s) && Stuck(cfg, s, g, q) && Step(Ideal, cfg, s, l).Some?
    ensures Stuck(cfg, Step(Ideal, cfg, s, l).value, g, q)
  {
    assert ClaimOk(s.owner, s.sent[q], q, s.ppc[q]) && PcOk(cfg, q, s.sent[q], s.ppc[q]);
    HeldIsUnpublished(cfg, s, q, s.ppc[q].first);
    ClaimWaits(cfg, s, l, g, q);
    StalledStays(cfg, s, l, g, s.ppc[q].first);
  }

  /** However the run goes on, it never finishes. */
  lemma {:induction false} StuckForever(cfg: Config, ls: seq<Label>, s: State, more: seq<Label>, t: State, g: nat,
      q: nat)
    requires Reached(cfg, ls, s) && Reached(cfg, ls + more, t) && Stuck(cfg, s, g, q)
    ensures Stuck(cfg, t, g, q) && !Finished(cfg, t)
  {
    if more == [] {
      assert ls + more == ls;
    } else {
      var before, u := LastOf(cfg, ls, more);
      StuckForever(cfg, ls, s, before, u, g, q);
      ReachedInv(cfg, ls + before, u);
      StuckStays(cfg, u, more[|more| - 1], g, q);
    }
  }

  // ------------------------------------------------------------------
  // Polite runs.
  // ------------------------------------------------------------------

  ghost predicate PoliteRun(cfg: Config, ls: seq<Label>)
    requires cfg.Shape()
  {
    PoliteSteps(Ideal, cfg, [], ls)
  }

  lemma SmoothIsPolite(cfg: Config, ls: seq<Label>)
    requires cfg.Shape() && SmoothRun(cfg, ls)
    ensures PoliteRun(cfg, ls)
  {
    assert forall k :: 0 <= k < |ls| ==> [] + ls[..k] == ls[..k];
  }

  // ------------------------------------------------------------------
  // How to get stuck.
  // ------------------------------------------------------------------

  /** All producers rest, and q keeps `size` items for its last claim. */
  ghost predicate Laying(cfg: Config, ls: seq<Label>, s: State, q: nat, size: nat) {
    && Reached(cfg, ls, s) && SmoothRun(cfg, ls) && q < |s.ppc| && s.sent[q] + size <= |cfg.script[q]|
    && forall p: nat :: p < |s.ppc| ==> s.ppc[p].PIdle?
  }

  lemma SomeoneSends(cfg: Config, ls: seq<Label>, s: State, q: nat, size: nat) returns (r: nat)
    requires Laying(cfg, ls, s, q, size) && s.next + size < cfg.Total()
    ensures r < |s.ppc| && s.sent[r] + (if r == q then size else 0) < |cfg.script[r]|
  {
    ReachedInv(cfg, ls, s);
    var lens := seq(|cfg.script|, p requires 0 <= p < |cfg.script| => |cfg.script[p]|);
    RestingClaims(s);
    r := SomeoneLeft(lens, s.sent, q, size);
  }

  lemma RestingClaims(s: State)
    requires |s.sent| == |s.ppc| && forall p: nat :: p < |s.ppc| ==> s.ppc[p].PIdle?
    ensures Claimed(s.sent, s.ppc) == s.sent
  {
  }

  lemma SomeoneLeft(lens: seq<int>, sent: seq<int>, q: nat, size: nat) returns (r: nat)
    requires |lens| == |sent| && q < |sent| && Sum(sent) + size < Sum(lens)
    ensures r < |sent| && sent[r] + (if r == q then size else 0) < lens[r]
  {
    SumUpdate(sent, q, sent[q] + size);
    r := SomeLess(sent[q := sent[q] + size], lens);
  }

  predicate SameConsumers(s: State, t: State) {
    t.cpc == s.cpc && t.barrier == s.barrier && t.pos == s.pos && t.got == s.got
  }

  /** Items up to x are published; the buffer has room for them. */
  lemma {:induction false} PublishUpTo(cfg: Config, ls: seq<Label>, s: State, q: nat, size: nat, x: int)
      returns (all: seq<Label>, t: State)
    requires Laying(cfg, ls, s, q, size) && s.next <= x <= cfg.n && x + size <= cfg.Total()
    ensures Laying(cfg, all, t, q, size) && t.next == x && SameConsumers(s, t)
    decreases x - s.next
  {
    all, t := ls, s;
    if s.next < x {
      var r := SomeoneSends(cfg, ls, s, q, size);
      StillRoom(cfg, ls, s);
      var more, u := ItemPublished(cfg, ls, s, r);
      all, t := PublishUpTo(cfg, ls + more, u, q, size, x);
    }
  }

  lemma StillRoom(cfg: Config, ls: seq<Label>, s: State)
    requires Reached(cfg, ls, s) && s.next < cfg.n
    ensures Under(cfg, s.barrier, s.next)
  {
    ReachedInv(cfg, ls, s);
    forall i | 0 <= i < |cfg.gate|
      ensures s.next - cfg.n <= s.barrier[cfg.gate[i]]
    {
      var g := cfg.gate[i];
      assert ConsOk(cfg, s.owner, s.sent, s.barrier, g, s.pos[g], s.cpc[g]);
    }
  }

  /** The first k consumers rest. */
  ghost predicate Resting(s: State, k: nat) {
    forall d: nat :: d < k ==> AtRest(s, d)
  }

  lemma DrainUpTo(cfg: Config, ls: seq<Label>, s: State, q: nat, size: nat, k: nat) returns (all: seq<Label>, t: State)
    requires Laying(cfg, ls, s, q, size) && k <= |s.cpc| && forall d: nat :: d < k ==> s.cpc[d].CIdle?
    ensures Laying(cfg, all, t, q, size) && t.next == s.next && Resting(t, k)
    ensures forall d: nat :: k <= d < |s.cpc| ==> SameConsumer(s, t, d)
  {
    var more;
    more, t := Draining(cfg, ls, s, k);
    all := ls + more;
  }

  lemma WaitStep(cfg: Config, s: State, c: nat, a: nat)
    requires Shape(cfg, s) && AtRest(s, c) && a <= cfg.ahead[c] && a < cfg.n && |s.got[c]| + a < cfg.Total()
    ensures Smooth(cfg, s, Wait(c, a))
    ensures var pc := if cfg.deps[c] == [] then CCheck(s.next + a, s.next) else CWait(s.next + a, 0, 0);
            Step(Ideal, cfg, s, Wait(c, a)) == Some(s.(cpc := s.cpc[c := pc]))
  {
  }

  lemma WaitAhead(cfg: Config, ls: seq<Label>, s: State, q: nat, size: nat, c: nat, a: nat)
      returns (all: seq<Label>, t: State)
    requires Laying(cfg, ls, s, q, size) && AtRest(s, c) && a <= cfg.ahead[c] && a < cfg.n && s.next + a < cfg.Total()
    ensures Laying(cfg, all, t, q, size) && c < |s.cpc|
    ensures var pc := if cfg.deps[c] == [] then CCheck(s.next + a, s.next) else CWait(s.next + a, 0, 0);
            t == s.(cpc := s.cpc[c := pc])
  {
    ReachedInv(cfg, ls, s);
    assert ReadOk(cfg, s.owner, s.pos[c], s.got[c]);
    WaitStep(cfg, s, c, a);
    t := OneStep(cfg, ls, s, Wait(c, a));
    all := ls + [Wait(c, a)];
  }

  /** With the consumers up to c at rest, c and its stages can be made to wait for any item
      within c's reach, each as far ahead as it may. */
  lemma {:induction false} Trap(cfg: Config, ls: seq<Label>, s: State, q: nat, size: nat, c: nat, x: int)
      returns (all: seq<Label>, t: State)
    requires Laying(cfg, ls, s, q, size) && c < |s.cpc| && Resting(s, c + 1) && size > 0
    requires s.next <= x <= cfg.n && x <= s.next + Reach(cfg, c) && x + size <= cfg.Total()
    ensures Laying(cfg, all, t, q, size) && t.next == x && |t.cpc| == |s.cpc| == |t.barrier|
    ensures Stalled(cfg, t, c, x) && t.barrier[c] == s.next - 1
    ensures forall d: nat :: c < d < |s.cpc| ==> SameConsumer(s, t, d)
    decreases c, 1
  {
    var a := Min(Min(cfg.ahead[c], cfg.n - 1), x - s.next);
    assert AtRest(s, c);
    var u;
    all, u := WaitAhead(cfg, ls, s, q, size, c, a);
    if cfg.deps[c] == [] {
      all, t := PublishUpTo(cfg, all, u, q, size, x);
      AboveStaySame(s, u, t, c, CCheck(s.next + a, s.next));
    } else {
      var j := FarthestStage(cfg, c);
      var d := cfg.deps[c][j];
      IdleBelow(s, u, c, d, CWait(s.next + a, 0, 0));
      all, t := TrapStage(cfg, all, u, q, size, c, d, s.next + a, x);
      AboveStaySame(s, u, t, c, CWait(s.next + a, 0, 0));
    }
  }

  lemma FarthestStage(cfg: Config, c: nat) returns (j: nat)
    requires cfg.Shape() && c < |cfg.deps| && cfg.deps[c] != []
    ensures j < |cfg.deps[c]| && cfg.deps[c][j] < c
    ensures Reach(cfg, c) == Min(cfg.ahead[c], cfg.n - 1) + Reach(cfg, cfg.deps[c][j])
  {
    FarthestIsMax(cfg, c, |cfg.deps[c]|);
    j :| 0 <= j < |cfg.deps[c]| && Reach(cfg, cfg.deps[c][j]) == Farthest(cfg, c, |cfg.deps[c]|);
  }

  lemma IdleBelow(s: State, u: State, c: nat, d: nat, pc: ConsumerPc)
    requires d < c < |s.cpc| && Resting(s, c + 1) && u == s.(cpc := s.cpc[c := pc])
    ensures forall e: nat :: e <= d ==> u.cpc[e].CIdle?
  {
    forall e: nat | e <= d
      ensures u.cpc[e].CIdle?
    {
      assert AtRest(s, e);
    }
  }

  lemma AboveStaySame(s: State, u: State, t: State, c: nat, pc: ConsumerPc)
    requires c < |s.cpc| == |s.barrier| == |s.pos| == |s.got| && u == s.(cpc := s.cpc[c := pc])
    requires SameConsumers(u, t) || forall d: nat :: c <= d < |u.cpc| ==> SameConsumer(u, t, d)
    ensures forall d: nat :: c < d < |s.cpc| ==> SameConsumer(s, t, d)
    ensures |t.cpc| == |t.barrier| == |s.cpc| && t.cpc[c] == pc && t.barrier[c] == s.barrier[c]
  {
    assert SameConsumers(u, t) || SameConsumer(u, t, c);
    forall d: nat | c < d < |s.cpc|
      ensures SameConsumer(s, t, d)
    {
      assert SameConsumers(u, t) || SameConsumer(u, t, d);
    }
  }

  /** Then so can a stage d that c waits for, once it has read what c does not wait for. */
  lemma {:induction false} TrapStage(cfg: Config, ls: seq<Label>, s: State, q: nat, size: nat, c: nat, d: nat, y: int,
      x: int)
      returns (all: seq<Label>, t: State)
    requires Laying(cfg, ls, s, q, size) && d < c < |s.cpc| && size > 0 && forall e: nat :: e <= d ==> s.cpc[e].CIdle?
    requires s.next <= y <= x <= cfg.n && x <= y + Reach(cfg, d) && x + size <= cfg.Total()
    ensures Laying(cfg, all, t, q, size) && t.next == x && |t.cpc| == |s.cpc| == |t.barrier|
    ensures Stalled(cfg, t, d, x) && t.barrier[d] == y - 1
    ensures forall e: nat :: d < e < |s.cpc| ==> SameConsumer(s, t, e)
    decreases c, 0
  {
    var u;
    all, u := PublishUpTo(cfg, ls, s, q, size, y);
    var v;
    all, v := DrainUpTo(cfg, all, u, q, size, d + 1);
    all, t := Trap(cfg, all, v, q, size, d, x);
    AboveThrough(s, u, v, t, d);
  }

  lemma AboveThrough(s: State, u: State, v: State, t: State, d: nat)
    requires SameConsumers(s, u) && |s.cpc| == |v.cpc| && |s.cpc| == |s.barrier| == |s.pos| == |s.got|
    requires forall e: nat :: d < e < |u.cpc| ==> SameConsumer(u, v, e)
    requires forall e: nat :: d < e < |v.cpc| ==> SameConsumer(v, t, e)
    ensures forall e: nat :: d < e < |s.cpc| ==> SameConsumer(s, t, e)
  {
    forall e: nat | d < e < |s.cpc|
      ensures SameConsumer(s, t, e)
    {
      assert SameConsumer(u, v, e) && SameConsumer(v, t, e);
    }
  }

  // ------------------------------------------------------------------
  // The exact condition.
  // ------------------------------------------------------------------

  /** A gating consumer, a producer and a claim that do not fit into the buffer together. */
  lemma TooMuch(cfg: Config) returns (g: nat, q: nat, x: nat)
    requires cfg.Valid() && !Roomy(cfg)
    ensures g in cfg.gate && g < |cfg.deps| && q < |cfg.script| && cfg.Total() > cfg.n
    ensures 0 < x <= cfg.n && x <= Reach(cfg, g) && cfg.n + 1 - x <= LargestClaim(cfg, q)
  {
    var i, p :| 0 <= i < |cfg.gate| && 0 <= p < |cfg.script| && Reach(cfg, cfg.gate[i]) + LargestClaim(cfg, p) > cfg.n;
    g, q := cfg.gate[i], p;
    x := Min(Reach(cfg, g), cfg.n);
    if |cfg.script[p]| == 0 {
      var lens := seq(|cfg.script|, r requires 0 <= r < |cfg.script| => |cfg.script[r]|);
      SumZeros(seq(|cfg.script|, _ => 0));
      q := SomeLess(seq(|cfg.script|, _ => 0), lens);
    }
  }

  lemma StartsLaid(cfg: Config, q: nat, size: nat)
    requires cfg.Valid() && q < |cfg.script| && size <= |cfg.script[q]|
    ensures Laying(cfg, [], Init(Ideal, cfg), q, size) && Resting(Init(Ideal, cfg), |cfg.deps|)
  {
  }

  /** Where there is too little room, some run gets stuck though its clients are polite. */
  lemma GetStuck(cfg: Config) returns (ls: seq<Label>, s: State, g: nat, q: nat)
    requires cfg.Valid() && !Roomy(cfg)
    ensures Reached(cfg, ls, s) && SmoothRun(cfg, ls) && Stuck(cfg, s, g, q)
  {
    var x;
    g, q, x := TooMuch(cfg);
    var size := cfg.n + 1 - x;
    StartsLaid(cfg, q, size);
    ls, s := Trap(cfg, [], Init(Ideal, cfg), q, size, g, x);
    ls, s := LastClaim(cfg, ls, s, q, size, g);
  }

  lemma LastClaim(cfg: Config, ls: seq<Label>, s: State, q: nat, size: nat, g: nat) returns (all: seq<Label>, t: State)
    requires Laying(cfg, ls, s, q, size) && 0 < size <= LargestClaim(cfg, q) && s.next + size == cfg.n + 1
    requires g in cfg.gate && g < |cfg.deps| && s.barrier[g] == -1 && Stalled(cfg, s, g, s.next)
    ensures Reached(cfg, all, t) && SmoothRun(cfg, all) && Stuck(cfg, t, g, q)
  {
    var l := Claim(q, size);
    t := OneStep(cfg, ls, s, l);
    all := ls + [l];
    SameStall(cfg, s, t, g, s.next);
  }

  lemma {:induction false} SameStall(cfg: Config, s: State, t: State, c: nat, x: int)
    requires cfg.Shape() && c < |cfg.deps| == |s.cpc| == |s.barrier| && t.cpc == s.cpc && t.barrier == s.barrier
    requires Stalled(cfg, s, c, x)
    ensures Stalled(cfg, t, c, x)
    decreases c
  {
    if cfg.deps[c] != [] {
      var j :| 0 <= j < |cfg.deps[c]| && s.barrier[cfg.deps[c][j]] < s.cpc[c].target
        && Stalled(cfg, s, cfg.deps[c][j], x);
      SameStall(cfg, s, t, cfg.deps[c][j], x);
    }
  }

  ghost predicate CanFinish(cfg: Config, ls: seq<Label>) {
    exists more, t :: Reached(cfg, ls + more, t) && Finished(cfg, t)
  }

  /** Whatever its clients do within their limits, the queue can go on to completion. */
  ghost predicate AlwaysCompletes(cfg: Config)
    requires cfg.Shape()
  {
    forall ls, s :: Reached(cfg, ls, s) && PoliteRun(cfg, ls) ==> CanFinish(cfg, ls)
  }

  /** For every buffer size, consumer graph, scripts and limits: the queue can always run to
      completion if and only if what any gating consumer may hold back by waiting ahead
      fits into the buffer together with any claim (or all items do). */
  lemma CompletesExactly(cfg: Config)
    requires cfg.Valid()
    ensures AlwaysCompletes(cfg) <==> Roomy(cfg)
  {
    if Roomy(cfg) {
      forall ls, s | Reached(cfg, ls, s) && PoliteRun(cfg, ls)
        ensures CanFinish(cfg, ls)
      {
        PoliteKeepsLimits(cfg, ls, s);
        var more, t := CanAlwaysComplete(cfg, ls, s);
      }
    } else {
      var ls, s, g, q := GetStuck(cfg);
      SmoothIsPolite(cfg, ls);
      if CanFinish(cfg, ls) {
        var more, t :| Reached(cfg, ls + more, t) && Finished(cfg, t);
        StuckForever(cfg, ls, s, more, t, g, q);
        assert false;
      }
    }
  }

  lemma PoliteKeepsLimits(cfg: Config, ls: seq<Label>, s: State)
    requires Reached(cfg, ls, s) && PoliteRun(cfg, ls)
    ensures KeepsLimits(cfg, s)
  {
    assert [] + ls == ls;
    RunKeepsLimits(cfg, [], Init(Ideal, cfg), ls, s);
  }
}
