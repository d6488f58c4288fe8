/** Deadlock freedom and termination of the ideal multi-producer protocol, for clients that
    leave it room: what a gating consumer may hold back by waiting ahead, together with
    its upstream stages, and a claim that waits for it, fit into the buffer. */
module Completion {
  import opened Sequences
  import opened Protocol
  import opened Invariant
  import opened Safety
  import opened Progress

  // ------------------------------------------------------------------
  // The limits that clients keep to.
  // ------------------------------------------------------------------

  /** The step keeps to the limits of the configuration, and waits only for items that
      some producer will send. */
  predicate Polite(cfg: Config, s: State, l: Label)
    requires Shape(cfg, s)
  {
    match l
    case Wait(c, ahead) => c < |s.got| ==> ahead <= cfg.ahead[c] && |s.got[c]| + ahead < cfg.Total()
    case Claim(_, count) => Min(count, cfg.n) <= cfg.most
    case _ => true
  }

  /** All the steps r, taken after ls, are. */
  ghost predicate PoliteSteps(m: Arith, cfg: Config, ls: seq<Label>, r: seq<Label>)
    requires cfg.Shape()
  {
    forall k :: 0 <= k < |r| && Run(m, cfg, ls + r[..k]).Some? ==> Polite(cfg, Run(m, cfg, ls + r[..k]).value, r[k])
  }

  predicate Awaits(pc: ConsumerPc) { pc.CCheck? || pc.CSpin? || pc.CWait? }

  ghost predicate KeepsLimits(cfg: Config, s: State)
    requires Shape(cfg, s)
  {
    && (forall p: nat :: p < |s.ppc| && s.ppc[p].PWait? ==> s.ppc[p].count <= cfg.most)
    && (forall c: nat :: c < |s.cpc| && Awaits(s.cpc[c]) ==>
          s.cpc[c].target <= s.pos[c] + cfg.ahead[c] && s.cpc[c].target < cfg.Total())
  }

  lemma StepKeepsLimits(cfg: Config, s: State, l: Label)
    requires Inv(cfg, s) && KeepsLimits(cfg, s) && Step(Ideal, cfg, s, l).Some? && Polite(cfg, s, l)
    ensures KeepsLimits(cfg, Step(Ideal, cfg, s, l).value)
  {
    match l
    case Producer(p, flag) => ProducerKeepsLimits(cfg, s, p, flag);
    case Wait(c, ahead) => assert ReadOk(cfg, s.owner, s.pos[c], s.got[c]);
    case Consumer(c) => ConsumerKeepsLimits(cfg, s, c);
    case _ =>
  }

  lemma ProducerKeepsLimits(cfg: Config, s: State, p: nat, flag: bool)
    requires Shape(cfg, s) && KeepsLimits(cfg, s) && p < |s.ppc| && ProducerStep(Ideal, cfg, s, p, flag).Some?
    ensures KeepsLimits(cfg, ProducerStep(Ideal, cfg, s, p, flag).value)
  {
    assert PcOk(cfg, p, s.sent[p], s.ppc[p]);
  }

  lemma ConsumerKeepsLimits(cfg: Config, s: State, c: nat)
    requires Shape(cfg, s) && KeepsLimits(cfg, s) && c < |s.cpc| && ConsumerStep(Ideal, cfg, s, c).Some?
    ensures KeepsLimits(cfg, ConsumerStep(Ideal, cfg, s, c).value)
  {
    assert CpcOk(cfg, c, s.cpc[c]);
  }

  lemma {:induction false} RunKeepsLimits(cfg: Config, ls: seq<Label>, s: State, more: seq<Label>, t: State)
    requires Reached(cfg, ls, s) && Reached(cfg, ls + more, t) && KeepsLimits(cfg, s)
    requires PoliteSteps(Ideal, cfg, ls, more)
    ensures KeepsLimits(cfg, t)
  {
    if more == [] {
      assert ls + more == ls;
    } else {
      var before, u := LastOf(cfg, ls, more);
      assert forall k :: 0 <= k < |before| ==> before[..k] == more[..k];
      RunKeepsLimits(cfg, ls, s, before, u);
      ReachedInv(cfg, ls + before, u);
      StepKeepsLimits(cfg, u, more[|more| - 1]);
    }
  }

  // ------------------------------------------------------------------
  // How much room they need.
  // ------------------------------------------------------------------

  /** How far beyond c's next item the items may lie that c, or a stage that c waits for,
      is waiting for. */
  function Reach(cfg: Config, c: nat): nat
    requires cfg.Shape() && c < |cfg.deps|
    decreases c, |cfg.deps[c]| + 1
  {
    Min(cfg.ahead[c], cfg.n - 1) + Farthest(cfg, c, |cfg.deps[c]|)
  }

  /** The greatest reach of c's first j stages. */
  function Farthest(cfg: Config, c: nat, j: nat): nat
    requires cfg.Shape() && c < |cfg.deps| && j <= |cfg.deps[c]|
    decreases c, j
  {
    if j == 0 then 0
    else
      var before, last := Farthest(cfg, c, j - 1), Reach(cfg, cfg.deps[c][j - 1]);
      if before < last then last else before
  }

  lemma {:induction false} FarthestIsMax(cfg: Config, c: nat, j: nat)
    requires cfg.Shape() && c < |cfg.deps| && j <= |cfg.deps[c]|
    ensures forall i :: 0 <= i < j ==> Reach(cfg, cfg.deps[c][i]) <= Farthest(cfg, c, j)
    ensures j > 0 ==> exists i :: 0 <= i < j && Reach(cfg, cfg.deps[c][i]) == Farthest(cfg, c, j)
  {
    if j > 0 {
      FarthestIsMax(cfg, c, j - 1);
    }
  }

  /** The largest claim producer p can make. */
  function LargestClaim(cfg: Config, p: nat): int
    requires p < |cfg.script|
  {
    Min(Min(cfg.most, cfg.n), |cfg.script[p]|)
  }

  /** Everything fits into the buffer, or what any gating consumer may hold back does,
      together with any claim. */
  predicate Roomy(cfg: Config)
    requires cfg.Shape()
  {
    cfg.Total() <= cfg.n ||
    forall i, p :: 0 <= i < |cfg.gate| && 0 <= p < |cfg.script| ==>
      Reach(cfg, cfg.gate[i]) + LargestClaim(cfg, p) <= cfg.n
  }

  /** Clients that wait for their next items, as the benchmarks' loops do, leave room for
      claims of any size. */
  lemma NextItemsAreRoomy(cfg: Config)
    requires cfg.Shape() && forall c :: 0 <= c < |cfg.deps| ==> cfg.ahead[c] == 0
    ensures Roomy(cfg) && forall c: nat :: c < |cfg.deps| ==> Reach(cfg, c) == 0
  {
    forall c: nat | c < |cfg.deps|
      ensures Reach(cfg, c) == 0
    {
      NoReach(cfg, c);
    }
  }

  lemma {:induction false} NoReach(cfg: Config, c: nat)
    requires cfg.Shape() && c < |cfg.deps| && forall d :: 0 <= d < |cfg.deps| ==> cfg.ahead[d] == 0
    ensures Reach(cfg, c) == 0
  {
    FarthestIsMax(cfg, c, |cfg.deps[c]|);
    forall i | 0 <= i < |cfg.deps[c]|
      ensures Reach(cfg, cfg.deps[c][i]) == 0
    {
      NoReach(cfg, cfg.deps[c][i]);
    }
  }

  // ------------------------------------------------------------------
  // Deadlock freedom.
  // ------------------------------------------------------------------

  /** Of what is published, c and the stages it waits for may leave Reach(c) items, or none
      at the end of the scripts: otherwise one of them is ready. */
  lemma {:induction false} ConsumerIsReady(cfg: Config, s: State, c: nat, k: int) returns (d: nat)
    requires Inv(cfg, s) && KeepsLimits(cfg, s) && c < |s.cpc| && AllPub(s.owner, s.sent, k) && s.barrier[c] < k
    requires k == cfg.Total() - 1 || s.barrier[c] + 1 + Reach(cfg, c) <= k
    ensures d <= c && Ready(cfg, s, Cons(d))
    decreases c
  {
    assert CpcOk(cfg, c, s.cpc[c]) && ConsOk(cfg, s.owner, s.sent, s.barrier, c, s.pos[c], s.cpc[c]);
    FarthestIsMax(cfg, c, |cfg.deps[c]|);
    d := c;
    match s.cpc[c]
    case CIdle =>
      assert Pub(s.owner, s.sent, k);
      ClaimedWithinScripts(cfg, s);
      assert ReadOk(cfg, s.owner, s.pos[c], s.got[c]);
    case CCheck(_, sq) => WordTells(cfg, s, c, sq);
    case CSpin(_, sq) => WordTells(cfg, s, c, sq);
    case CWait(target, _, _) =>
      if !Upstream(cfg, s.barrier, c, target) {
        var j :| 0 <= j < |cfg.deps[c]| && s.barrier[cfg.deps[c][j]] < target;
        d := ConsumerIsReady(cfg, s, cfg.deps[c][j], k);
      }
    case _ =>
  }

  /** The lowest claim still waiting: everything below it is published. */
  lemma LowestWaiting(cfg: Config, s: State, p: nat)
    requires Inv(cfg, s) && p < |s.ppc| && s.ppc[p].PWait?
    requires forall q: nat :: q < |s.ppc| ==>
               !Granted(s.ppc[q]) && (s.ppc[q].PWait? ==> s.ppc[p].first <= s.ppc[q].first)
    ensures AllPub(s.owner, s.sent, s.ppc[p].first - 1)
  {
  }

  lemma {:induction false} PickLowest(ppc: seq<ProducerPc>, k: nat) returns (p: int)
    requires k <= |ppc|
    ensures p == -1 ==> forall q :: 0 <= q < k ==> !ppc[q].PWait?
    ensures p != -1 ==> 0 <= p < k && ppc[p].PWait?
    ensures p != -1 ==> forall q :: 0 <= q < k && ppc[q].PWait? ==> ppc[p].first <= ppc[q].first
  {
    p := -1;
    if k > 0 {
      p := PickLowest(ppc, k - 1);
      if ppc[k - 1].PWait? && (p == -1 || ppc[k - 1].first < ppc[p].first) {
        p := k - 1;
      }
    }
  }

  lemma OneReachFits(cfg: Config, i: nat, p: nat)
    requires cfg.Shape() && Roomy(cfg) && cfg.Total() > cfg.n && i < |cfg.gate| && p < |cfg.script|
    ensures Reach(cfg, cfg.gate[i]) + LargestClaim(cfg, p) <= cfg.n
  {
  }

  /** The lowest waiting claim can be granted, or a consumer it waits for can move. */
  lemma LowestClaimMoves(cfg: Config, s: State, p: nat) returns (t: Thread)
    requires Inv(cfg, s) && KeepsLimits(cfg, s) && Roomy(cfg) && p < |s.ppc| && s.ppc[p].PWait?
    requires AllPub(s.owner, s.sent, s.ppc[p].first - 1)
    ensures IsThread(cfg, t) && Ready(cfg, s, t)
  {
    var PWait(first, count, i, minDelta) := s.ppc[p];
    assert PcOk(cfg, p, s.sent[p], s.ppc[p]) && ScanOk(cfg, s.next, s.barrier, s.ppc[p]);
    assert ClaimOk(s.owner, s.sent[p], p, s.ppc[p]) && first + count <= s.next;
    ClaimedWithinScripts(cfg, s);
    t := Prod(p);
    if !Ready(cfg, s, t) {
      var j :| 0 <= j < |cfg.gate| && s.barrier[cfg.gate[j]] < first + count - 1 - cfg.n;
      var g := cfg.gate[j];
      assert ConsOk(cfg, s.owner, s.sent, s.barrier, g, s.pos[g], s.cpc[g]);
      OneReachFits(cfg, j, p);
      var d := ConsumerIsReady(cfg, s, g, first - 1);
      t := Cons(d);
    }
  }

  /** With no claim outstanding, a producer with items left has room, or a consumer that
      gates it can move. */
  lemma SenderMoves(cfg: Config, s: State, p: nat) returns (t: Thread)
    requires Inv(cfg, s) && KeepsLimits(cfg, s) && Roomy(cfg) && p < |s.ppc| && s.sent[p] < |cfg.script[p]|
    requires forall q: nat :: q < |s.ppc| ==> !Granted(s.ppc[q]) && !s.ppc[q].PWait?
    ensures IsThread(cfg, t) && Ready(cfg, s, t)
  {
    NothingHeld(cfg, s);
    t := Prod(p);
    if !Under(cfg, s.barrier, s.next) {
      var j :| 0 <= j < |cfg.gate| && s.barrier[cfg.gate[j]] < s.next - cfg.n;
      var g := cfg.gate[j];
      assert ConsOk(cfg, s.owner, s.sent, s.barrier, g, s.pos[g], s.cpc[g]);
      ItemsLeft(cfg, s, p);
      OneReachFits(cfg, j, p);
      var d := ConsumerIsReady(cfg, s, g, s.next - 1);
      t := Cons(d);
    }
  }

  /** With everything sent, some consumer can move unless all are done. */
  lemma ReaderMoves(cfg: Config, s: State) returns (t: Thread)
    requires Inv(cfg, s) && KeepsLimits(cfg, s) && !Finished(cfg, s)
    requires forall q: nat :: q < |s.ppc| ==> Done(cfg, s, Prod(q))
    ensures IsThread(cfg, t) && Ready(cfg, s, t)
  {
    assert forall q: nat :: q < |s.ppc| ==> s.ppc[q].PIdle? && s.sent[q] == |cfg.script[q]| by {
      forall q: nat | q < |s.ppc| ensures s.ppc[q].PIdle?
        && s.sent[q] == |cfg.script[q]| { assert Done(cfg, s, Prod(q)); }
    }
    NothingHeld(cfg, s);
    if c: nat :| c < |s.cpc| && s.barrier[c] < s.next - 1 {
      var d := ConsumerIsReady(cfg, s, c, s.next - 1);
      t := Cons(d);
    } else {
      AllCaughtUp(cfg, s);
      assert false;
    }
  }

  lemma AllCaughtUp(cfg: Config, s: State)
    requires Inv(cfg, s) && s.next == cfg.Total()
    requires forall p: nat :: p < |s.ppc| ==> Done(cfg, s, Prod(p))
    requires forall c: nat :: c < |s.cpc| ==> s.barrier[c] >= s.next - 1
    ensures Finished(cfg, s)
  {
    ClaimedWithinScripts(cfg, s);
    forall c: nat | c < |s.cpc|
      ensures Done(cfg, s, Cons(c))
    {
      assert ConsOk(cfg, s.owner, s.sent, s.barrier, c, s.pos[c], s.cpc[c]);
      assert ReadOk(cfg, s.owner, s.pos[c], s.got[c]);
      assert !Pub(s.owner, s.sent, s.pos[c]);
    }
    forall p | 0 <= p < |s.ppc|
      ensures s.ppc[p].PIdle? && s.sent[p] == |cfg.script[p]|
    {
      assert Done(cfg, s, Prod(p));
    }
    forall c | 0 <= c < |s.cpc|
      ensures s.cpc[c].CIdle? && |s.got[c]| == cfg.Total()
    {
      assert Done(cfg, s, Cons(c));
    }
  }

  /** Deadlock freedom: in an unfinished state of clients that leave room, some thread can
      reach a milestone by itself, with no time-out and no help from the others. */
  lemma SomeThreadIsReady(cfg: Config, s: State) returns (t: Thread)
    requires Inv(cfg, s) && KeepsLimits(cfg, s) && Roomy(cfg) && !Finished(cfg, s)
    ensures IsThread(cfg, t) && Ready(cfg, s, t)
  {
    if p: nat :| p < |s.ppc| && Granted(s.ppc[p]) {
      t := Prod(p);
    } else {
      var p := PickLowest(s.ppc, |s.ppc|);
      if p >= 0 {
        LowestWaiting(cfg, s, p);
        t := LowestClaimMoves(cfg, s, p);
      } else if q: nat :| q < |s.ppc| && !Done(cfg, s, Prod(q)) {
        assert PcOk(cfg, q, s.sent[q], s.ppc[q]);
        t := SenderMoves(cfg, s, q);
      } else {
        t := ReaderMoves(cfg, s);
      }
    }
  }

  // ------------------------------------------------------------------
  // From every state the system can run to completion.
  // ------------------------------------------------------------------

  /** A ready thread, run alone, reaches a milestone. */
  lemma {:induction false} RunAlone(cfg: Config, ls: seq<Label>, s: State, t: Thread)
      returns (more: seq<Label>, u: State)
    requires Reached(cfg, ls, s) && KeepsLimits(cfg, s) && IsThread(cfg, t) && Ready(cfg, s, t)
    ensures Reached(cfg, ls + more, u) && KeepsLimits(cfg, u) && Work(cfg, u) < Work(cfg, s)
    ensures |more| <= Distance(cfg, s, t) && forall l :: l in more ==> ThreadOf(l) == t && !l.Try? && !Spurious(l)
    decreases Distance(cfg, s, t)
  {
    ReachedInv(cfg, ls, s);
    DistanceIsBounded(cfg, s, t);
    var l := NextStep(s, t);
    ReadyCanStep(cfg, s, t);
    u := Step(Ideal, cfg, s, l).value;
    RunAppend(cfg, ls, l);
    StepKeepsLimits(cfg, s, l);
    StepWorks(cfg, s, l);
    more := [l];
    if !Milestone(cfg, s, l) {
      ReadyComesCloser(cfg, s, l, t);
      var ls' := ls + [l];
      DistancePositive(cfg, ls', u, t);
      var rest;
      rest, u := RunAlone(cfg, ls', u, t);
      more := [l] + rest;
      OneAtATime(ls, l, rest);
    }
  }

  /** From every state that clients who leave room reach, whatever calls are under way, the
      system can run to completion. */
  lemma {:induction false} CanAlwaysComplete(cfg: Config, ls: seq<Label>, s: State) returns (more: seq<Label>, t: State)
    requires Reached(cfg, ls, s) && KeepsLimits(cfg, s) && Roomy(cfg)
    ensures Reached(cfg, ls + more, t) && Finished(cfg, t)
    decreases Work(cfg, s)
  {
    ReachedInv(cfg, ls, s);
    WorkBounded(cfg, s);
    if Finished(cfg, s) {
      more, t := [], s;
      assert ls + more == ls;
    } else {
      var thread := SomeThreadIsReady(cfg, s);
      var first, u := RunAlone(cfg, ls, s, thread);
      var ls' := ls + first;
      ReachedWork(cfg, ls', u);
      var rest;
      rest, t := CanAlwaysComplete(cfg, ls', u);
      more := first + rest;
      InTwoParts(ls, first, rest);
    }
  }

  // ------------------------------------------------------------------
  // And every schedule that keeps all threads running does complete.
  // ------------------------------------------------------------------

  /** The steps r, taken after ls, keep every thread running: each takes as many steps as
      a scan or two need, or ends r with nothing left to do. */
  ghost predicate FairRound(m: Arith, cfg: Config, ls: seq<Label>, r: seq<Label>)
    requires cfg.Shape()
  {
    && Run(m, cfg, ls + r).Some? && PoliteSteps(m, cfg, ls, r)
    && forall t: Thread :: IsThread(cfg, t) ==>
         StepsOf(r, t) >= Bound(cfg, t) || Done(cfg, Run(m, cfg, ls + r).value, t)
  }

  function Flat(rounds: seq<seq<Label>>): seq<Label> {
    if rounds == [] then [] else Flat(rounds[..|rounds| - 1]) + rounds[|rounds| - 1]
  }

  ghost predicate FairRounds(m: Arith, cfg: Config, ls: seq<Label>, rounds: seq<seq<Label>>)
    requires cfg.Shape()
  {
    forall i :: 0 <= i < |rounds| ==> FairRound(m, cfg, ls + Flat(rounds[..i]), rounds[i])
  }

  lemma FinishedHasNoStep(cfg: Config, s: State, l: Label)
    requires Shape(cfg, s) && Finished(cfg, s)
    ensures Step(Ideal, cfg, s, l).None?
  {
  }

  lemma {:induction false} FinishedStays(cfg: Config, ls: seq<Label>, s: State, more: seq<Label>)
    requires Reached(cfg, ls, s) && Finished(cfg, s) && Run(Ideal, cfg, ls + more).Some?
    ensures more == []
  {
    if more != [] {
      var before, u := LastOf(cfg, ls, more);
      FinishedStays(cfg, ls, s, before);
      assert ls + before == ls;
      FinishedHasNoStep(cfg, s, more[|more| - 1]);
    }
  }

  /** A fair round from an unfinished state reaches a milestone. */
  lemma RoundWorks(cfg: Config, ls: seq<Label>, s: State, r: seq<Label>, t: State)
    requires Reached(cfg, ls, s) && KeepsLimits(cfg, s) && Roomy(cfg) && !Finished(cfg, s)
    requires FairRound(Ideal, cfg, ls, r) && Reached(cfg, ls + r, t)
    ensures Work(cfg, t) < Work(cfg, s)
  {
    ReachedInv(cfg, ls, s);
    ReachedInv(cfg, ls + r, t);
    MilestonesAreBounded(cfg, ls, s, r, t);
    var thread := SomeThreadIsReady(cfg, s);
    if Milestones(cfg, ls, r) == 0 {
      QuietRun(cfg, ls, s, r, t, thread);
      DistanceIsBounded(cfg, s, thread);
      DistanceIsBounded(cfg, t, thread);
      assert false;
    }
  }

  /** Fair termination: whatever mix of claim operations the producers use, however the
      threads interleave and however often they spin, fail or time out, a run that keeps
      all of them running is finished after at most Work(s) + 1 rounds. */
  lemma {:induction false} FairRunsFinish(cfg: Config, ls: seq<Label>, s: State, rounds: seq<seq<Label>>)
      returns (t: State)
    requires Reached(cfg, ls, s) && KeepsLimits(cfg, s) && Roomy(cfg) && FairRounds(Ideal, cfg, ls, rounds)
    ensures Reached(cfg, ls + Flat(rounds), t) && KeepsLimits(cfg, t)
    ensures Finished(cfg, t) || Work(cfg, t) + |rounds| <= Work(cfg, s)
    ensures |rounds| > Work(cfg, s) ==> Finished(cfg, t)
  {
    if rounds == [] {
      assert ls + Flat(rounds) == ls;
      t := s;
      ReachedWork(cfg, ls, s);
    } else {
      var before, last := rounds[..|rounds| - 1], rounds[|rounds| - 1];
      FairPrefix(cfg, ls, rounds);
      var u := FairRunsFinish(cfg, ls, s, before);
      t := OneMoreRound(cfg, ls + Flat(before), u, last);
      InTwoParts(ls, Flat(before), last);
    }
  }

  lemma FairPrefix(cfg: Config, ls: seq<Label>, rounds: seq<seq<Label>>)
    requires cfg.Shape() && rounds != [] && FairRounds(Ideal, cfg, ls, rounds)
    ensures FairRounds(Ideal, cfg, ls, rounds[..|rounds| - 1])
    ensures FairRound(Ideal, cfg, ls + Flat(rounds[..|rounds| - 1]), rounds[|rounds| - 1])
  {
    var before := rounds[..|rounds| - 1];
    forall i | 0 <= i < |before|
      ensures FairRound(Ideal, cfg, ls + Flat(before[..i]), before[i])
    {
      assert before[..i] == rounds[..i];
    }
  }

  lemma OneMoreRound(cfg: Config, ls: seq<Label>, s: State, r: seq<Label>) returns (t: State)
    requires Reached(cfg, ls, s) && KeepsLimits(cfg, s) && Roomy(cfg) && FairRound(Ideal, cfg, ls, r)
    ensures Reached(cfg, ls + r, t) && KeepsLimits(cfg, t) && Work(cfg, t) >= 0
    ensures if Finished(cfg, s) then t == s else Work(cfg, t) < Work(cfg, s)
  {
    t := Run(Ideal, cfg, ls + r).value;
    ReachedWork(cfg, ls + r, t);
    RunKeepsLimits(cfg, ls, s, r, t);
    if Finished(cfg, s) {
      FinishedStays(cfg, ls, s, r);
      assert ls + r == ls;
    } else {
      RoundWorks(cfg, ls, s, r, t);
    }
  }

  // ------------------------------------------------------------------
  // There are such schedules from every state.
  // ------------------------------------------------------------------

  lemma {:induction false} StepsOfBoth(first: seq<Label>, rest: seq<Label>, t: Thread)
    ensures StepsOf(first + rest, t) == StepsOf(first, t) + StepsOf(rest, t)
  {
    if rest == [] {
      assert first + rest == first;
    } else {
      StepsOfBoth(first, rest[..|rest| - 1], t);
      assert (first + rest)[..|first + rest| - 1] == first + rest[..|rest| - 1];
    }
  }

  lemma PoliteBoth(cfg: Config, ls: seq<Label>, first: seq<Label>, rest: seq<Label>)
    requires cfg.Shape() && PoliteSteps(Ideal, cfg, ls, first) && PoliteSteps(Ideal, cfg, ls + first, rest)
    ensures PoliteSteps(Ideal, cfg, ls, first + rest)
  {
    var all := first + rest;
    forall k | 0 <= k < |all| && Run(Ideal, cfg, ls + all[..k]).Some?
      ensures Polite(cfg, Run(Ideal, cfg, ls + all[..k]).value, all[k])
    {
      if k < |first| {
        assert all[..k] == first[..k];
      } else {
        assert ls + all[..k] == ls + first + rest[..k - |first|];
      }
    }
  }

  lemma OneIsPolite(cfg: Config, ls: seq<Label>, s: State, t: Thread)
    requires Reached(cfg, ls, s) && IsThread(cfg, t) && Step(Ideal, cfg, s, NextStep(s, t)).Some?
    ensures PoliteSteps(Ideal, cfg, ls, [NextStep(s, t)])
  {
    assert ls + [NextStep(s, t)][..0] == ls;
  }

  lemma DoneStays(cfg: Config, s: State, l: Label, t: Thread)
    requires Shape(cfg, s) && IsThread(cfg, t) && Done(cfg, s, t) && Step(Ideal, cfg, s, l).Some?
    ensures Done(cfg, Step(Ideal, cfg, s, l).value, t)
  {
    if ThreadOf(l) == t { DoneHasNoStep(cfg, s, l); } else { OthersLeaveDone(cfg, s, l, t); }
  }

  lemma DoneHasNoStep(cfg: Config, s: State, l: Label)
    requires Shape(cfg, s) && IsThread(cfg, ThreadOf(l)) && Done(cfg, s, ThreadOf(l))
    ensures Step(Ideal, cfg, s, l).None?
  {
  }

  lemma OthersLeaveDone(cfg: Config, s: State, l: Label, t: Thread)
    requires Shape(cfg, s) && IsThread(cfg, t) && ThreadOf(l) != t && Step(Ideal, cfg, s, l).Some?
    ensures Done(cfg, Step(Ideal, cfg, s, l).value, t) == Done(cfg, s, t)
  {
  }

  lemma {:induction false} DoneStaysOn(cfg: Config, ls: seq<Label>, s: State, more: seq<Label>, u: State, t: Thread)
    requires Reached(cfg, ls, s) && Reached(cfg, ls + more, u) && IsThread(cfg, t) && Done(cfg, s, t)
    ensures Done(cfg, u, t)
  {
    if more == [] {
      assert ls + more == ls;
    } else {
      var before, v := LastOf(cfg, ls, more);
      DoneStaysOn(cfg, ls, s, before, v, t);
      ReachedInv(cfg, ls + before, v);
      DoneStays(cfg, v, more[|more| - 1], t);
    }
  }

  /** t can take k steps, or as many as it has left. */
  lemma {:induction false} RunThread(cfg: Config, ls: seq<Label>, s: State, t: Thread, k: nat)
      returns (more: seq<Label>, u: State)
    requires Reached(cfg, ls, s) && IsThread(cfg, t)
    ensures Reached(cfg, ls + more, u) && PoliteSteps(Ideal, cfg, ls, more)
    ensures StepsOf(more, t) >= k || Done(cfg, u, t)
    decreases k
  {
    more, u := [], s;
    assert ls + more == ls;
    if k > 0 && !Done(cfg, s, t) {
      var l := NextStep(s, t);
      ReachedInv(cfg, ls, s);
      UnfinishedCanStep(cfg, s, t);
      OneIsPolite(cfg, ls, s, t);
      RunAppend(cfg, ls, l);
      var rest;
      rest, u := RunThread(cfg, ls + [l], Step(Ideal, cfg, s, l).value, t, k - 1);
      more := [l] + rest;
      InTwoParts(ls, [l], rest);
      PoliteBoth(cfg, ls, [l], rest);
      StepsOfBoth([l], rest, t);
      OneStepOf(s, t);
    }
  }

  lemma OneStepOf(s: State, t: Thread)
    ensures StepsOf([NextStep(s, t)], t) == 1
  {
    assert [NextStep(s, t)][..0] == [];
    assert StepsOf([], t) == 0;
  }

  predicate Served(cfg: Config, r: seq<Label>, s: State, t: Thread)
    requires Shape(cfg, s) && IsThread(cfg, t)
  {
    StepsOf(r, t) >= Bound(cfg, t) || Done(cfg, s, t)
  }

  lemma {:induction false} ServeUpTo(cfg: Config, ls: seq<Label>, s: State, i: nat) returns (r: seq<Label>, u: State)
    requires Reached(cfg, ls, s) && i <= |cfg.script| + |cfg.deps|
    ensures Reached(cfg, ls + r, u) && PoliteSteps(Ideal, cfg, ls, r)
    ensures forall j: nat :: j < i ==> Served(cfg, r, u, ThreadAt(cfg, j))
  {
    r, u := [], s;
    assert ls + r == ls;
    if i > 0 {
      var first, v := ServeUpTo(cfg, ls, s, i - 1);
      var t := ThreadAt(cfg, i - 1);
      var rest;
      rest, u := RunThread(cfg, ls + first, v, t, Bound(cfg, t));
      r := first + rest;
      InTwoParts(ls, first, rest);
      PoliteBoth(cfg, ls, first, rest);
      forall j: nat | j < i
        ensures Served(cfg, r, u, ThreadAt(cfg, j))
      {
        StillServed(cfg, ls + first, v, first, rest, u, ThreadAt(cfg, j), j == i - 1);
      }
    }
  }

  lemma StillServed(cfg: Config, ls: seq<Label>, s: State, first: seq<Label>, rest: seq<Label>, u: State, t: Thread,
      last: bool)
    requires Reached(cfg, ls, s) && Reached(cfg, ls + rest, u) && IsThread(cfg, t)
    requires if last then Served(cfg, rest, u, t) else Served(cfg, first, s, t)
    ensures Served(cfg, first + rest, u, t)
  {
    StepsOfBoth(first, rest, t);
    if !last && Done(cfg, s, t) { DoneStaysOn(cfg, ls, s, rest, u, t); }
  }

  /** From every reached state some round is fair, so there are fair runs of any length. */
  lemma FairRoundExists(cfg: Config, ls: seq<Label>, s: State) returns (r: seq<Label>)
    requires Reached(cfg, ls, s)
    ensures FairRound(Ideal, cfg, ls, r)
  {
    var u;
    r, u := ServeUpTo(cfg, ls, s, |cfg.script| + |cfg.deps|);
    forall t: Thread | IsThread(cfg, t)
      ensures StepsOf(r, t) >= Bound(cfg, t) || Done(cfg, u, t)
    {
      assert ThreadAt(cfg, Index(cfg, t)) == t && Served(cfg, r, u, ThreadAt(cfg, Index(cfg, t)));
    }
  }
}
