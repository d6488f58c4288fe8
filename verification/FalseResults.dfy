/** When a false result of the multi-producer `try_claim` means that the buffer was full. */
module FalseResults {
  import opened Sums
  import opened Protocol
  import opened Invariant
  import opened Preservation
  import opened Safety
  import opened Progress
  import opened Schedules
  import opened Calls

  /** After ls, the `try_claim` that p called in step k is about to return false. */
  ghost predicate FalseResult(cfg: Config, ls: seq<Label>, k: nat, p: nat)
    requires cfg.Shape()
  {
    && InCall(cfg, ls, k, p) && !ls[k].timed && Run(Ideal, cfg, ls).Some?
    && var s := Run(Ideal, cfg, ls).value;
       p < |s.ppc| && Step(Ideal, cfg, s, Producer(p, false)).Some?
       && Step(Ideal, cfg, s, Producer(p, false)).value.ppc[p].PIdle?
  }

  ghost predicate FullAfter(cfg: Config, ls: seq<Label>)
    requires cfg.Shape()
  {
    Run(Ideal, cfg, ls).Some? && Full(cfg, Run(Ideal, cfg, ls).value)
  }

  /** The buffer was full at some instant since the first k steps. */
  ghost predicate FullDuring(cfg: Config, ls: seq<Label>, k: nat)
    requires cfg.Shape()
  {
    exists j :: k <= j <= |ls| && FullAfter(cfg, ls[..j])
  }

  /** In every run, whenever `try_claim` returns false to p, the buffer was full at some
      instant of the call. */
  ghost predicate FalseMeansFull(cfg: Config, p: nat)
    requires cfg.Shape()
  {
    forall ls: seq<Label>, k: nat :: FalseResult(cfg, ls, k, p) ==> FullDuring(cfg, ls, k + 1)
  }

  /** The counter can pass the limit p has computed while p holds it: there are several
      slots, more items than slots, and p is not the only producer. */
  predicate MayBeOvertaken(cfg: Config, p: nat) {
    && cfg.n > 1 && cfg.Total() > cfg.n && p < |cfg.script| && |cfg.script[p]| > 0
    && exists q: nat :: q < |cfg.script| && q != p && |cfg.script[q]| > 0
  }

  // ------------------------------------------------------------------
  // Where it does mean that.
  // ------------------------------------------------------------------

  /** Nobody but p has items, or there is just one slot. */
  predicate FewClaims(cfg: Config, p: nat) {
    cfg.n == 1 || forall q: nat :: q < |cfg.script| && q != p ==> |cfg.script[q]| == 0
  }

  lemma ClaimFills(cfg: Config, s: State, l: Label, p: nat)
    requires Inv(cfg, s) && p < |s.ppc| && Step(Ideal, cfg, s, l).Some? && FewClaims(cfg, p)
    requires Trying(Step(Ideal, cfg, s, l).value.ppc[p]) && !Full(cfg, Step(Ideal, cfg, s, l).value)
    ensures Step(Ideal, cfg, s, l).value.next == s.next
  {
    var t, g := Step(Ideal, cfg, s, l).value, cfg.gate[0];
    ClaimedWithinScripts(cfg, s);
    assert ConsOk(cfg, s.owner, s.sent, s.barrier, g, s.pos[g], s.cpc[g]);
    if l.Producer? {
      assert PcOk(cfg, l.p, s.sent[l.p], s.ppc[l.p]);
    }
    assert t.next != s.next ==> t.barrier == s.barrier;
    assert t.next - cfg.n <= t.barrier[g];
  }

  lemma {:induction false} CounterStays(cfg: Config, ls: seq<Label>, k: nat, p: nat)
    requires cfg.Valid() && k <= |ls| && WithinTry(cfg, ls, k, p) && FewClaims(cfg, p) && !FullDuring(cfg, ls, k)
    ensures Run(Ideal, cfg, ls).Some? && Run(Ideal, cfg, ls).value.next == Run(Ideal, cfg, ls[..k]).value.next
  {
    assert ls[..|ls|] == ls;
    assert TryingAfter(cfg, ls[..|ls|], p);
    if k < |ls| {
      var before := ls[..|ls| - 1];
      TryingPrefix(cfg, ls, k, p);
      assert forall j :: k <= j <= |before| ==> before[..j] == ls[..j];
      CounterStays(cfg, before, k, p);
      assert !FullAfter(cfg, ls[..|ls|]);
      assert before[..k] == ls[..k];
      LastClaimFills(cfg, ls, p);
    }
  }

  lemma LastClaimFills(cfg: Config, ls: seq<Label>, p: nat)
    requires cfg.Valid() && |ls| > 0 && TryingAfter(cfg, ls, p) && FewClaims(cfg, p) && !FullAfter(cfg, ls)
    ensures Run(Ideal, cfg, ls[..|ls| - 1]).Some?
    ensures Run(Ideal, cfg, ls).value.next == Run(Ideal, cfg, ls[..|ls| - 1]).value.next
  {
    RunInv(cfg, ls[..|ls| - 1]);
    ClaimFills(cfg, Run(Ideal, cfg, ls[..|ls| - 1]).value, ls[|ls| - 1], p);
  }

  lemma FalseIsFull(cfg: Config, ls: seq<Label>, k: nat, p: nat)
    requires cfg.Valid() && !MayBeOvertaken(cfg, p) && FalseResult(cfg, ls, k, p)
    ensures FullDuring(cfg, ls, k + 1)
  {
    var s := Run(Ideal, cfg, ls).value;
    TryClaimFalse(cfg, ls, s, k, p, false);
    var start := Run(Ideal, cfg, ls[..k + 1]).value;
    CallAsks(cfg, ls, k, p);
    ReachedInv(cfg, ls, s);
    ReachedInv(cfg, ls[..k + 1], start);
    assert PcOk(cfg, p, s.sent[p], s.ppc[p]);
    ItemsLeft(cfg, s, p);
    var seen :| WasCounter(cfg, ls, k, seen) && !Under(cfg, start.barrier, seen);
    SeenAtMost(cfg, ls, s, k, seen);
    var i :| 0 <= i < |cfg.gate| && seen - cfg.n > start.barrier[cfg.gate[i]];
    var g := cfg.gate[i];
    assert ConsOk(cfg, start.owner, start.sent, start.barrier, g, start.pos[g], start.cpc[g]);
    assert FewClaims(cfg, p);
    if !FullDuring(cfg, ls, k + 1) {
      CounterStays(cfg, ls, k + 1, p);
      assert FullAfter(cfg, ls[..k + 1]);
      assert false;
    }
  }

  lemma SeenAtMost(cfg: Config, ls: seq<Label>, s: State, k: nat, seen: int)
    requires Reached(cfg, ls, s) && WasCounter(cfg, ls, k, seen)
    ensures seen <= s.next
  {
    var j :| k < j <= |ls| && Run(Ideal, cfg, ls[..j]).Some? && Run(Ideal, cfg, ls[..j]).value.next == seen;
    CounterSince(cfg, ls, s, j, j);
  }

  // ------------------------------------------------------------------
  // Where it does not.
  // ------------------------------------------------------------------

  /** All producers rest, the consumers have not started, and p and q have items left. */
  ghost predicate Filling(cfg: Config, ls: seq<Label>, s: State, p: nat, q: nat) {
    && Reached(cfg, ls, s) && p != q && p < |s.ppc| && q < |s.ppc| && s.next < cfg.n < cfg.Total()
    && s.ppc == seq(|s.ppc|, _ => PIdle)
    && (forall c :: 0 <= c < |s.barrier| ==> s.barrier[c] == -1) && (forall c :: 0 <= c < |s.cpc| ==> s.cpc[c].CIdle?)
    && s.sent[p] < |cfg.script[p]| && s.sent[q] < |cfg.script[q]|
  }

  lemma SomeoneHasMore(cfg: Config, ls: seq<Label>, s: State, p: nat, q: nat) returns (r: nat)
    requires Filling(cfg, ls, s, p, q) && s.next < cfg.n - 1
    ensures r < |s.ppc| && s.sent[r] + (if r == p || r == q then 1 else 0) < |cfg.script[r]|
  {
    var lens := seq(|cfg.script|, r requires 0 <= r < |cfg.script| => |cfg.script[r]|);
    ReachedInv(cfg, ls, s);
    r := SomeoneLeft(lens, Claimed(s.sent, s.ppc), p, q);
  }

  lemma SomeoneLeft(lens: seq<int>, sent: seq<int>, p: nat, q: nat) returns (r: nat)
    requires |lens| == |sent| && p < |sent| && q < |sent| && p != q && Sum(sent) + 2 < Sum(lens)
    ensures r < |sent| && sent[r] + (if r == p || r == q then 1 else 0) < lens[r]
  {
    var more := sent[p := sent[p] + 1];
    var most := more[q := more[q] + 1];
    SumUpdate(sent, p, sent[p] + 1);
    SumUpdate(more, q, more[q] + 1);
    r := SomeLess(most, lens);
  }

  lemma {:induction false} Fill(cfg: Config, ls: seq<Label>, s: State, p: nat, q: nat)
      returns (ls': seq<Label>, t: State)
    requires Filling(cfg, ls, s, p, q)
    ensures Filling(cfg, ls', t, p, q) && t.next == cfg.n - 1
    decreases cfg.n - s.next
  {
    ls', t := ls, s;
    if s.next < cfg.n - 1 {
      var r := SomeoneHasMore(cfg, ls, s, p, q);
      var more;
      more, t := ItemPublished(cfg, ls, s, r);
      ls', t := Fill(cfg, ls + more, t, p, q);
    }
  }

  lemma StillTrying(cfg: Config, ls: seq<Label>, k: nat, p: nat, l: Label, all: seq<Label>, t: State)
    requires cfg.Shape() && k <= |ls| && WithinTry(cfg, ls, k, p) && all == ls + [l]
    requires Run(Ideal, cfg, all) == Some(t) && p < |t.ppc| && Trying(t.ppc[p])
    ensures WithinTry(cfg, all, k, p)
  {
    assert all[..k] == ls[..k];
    forall j | k <= j <= |all|
      ensures TryingAfter(cfg, all[..j], p)
    {
      assert all[..j] == if j <= |ls| then ls[..j] else all;
    }
  }

  lemma OthersStep(cfg: Config, ls: seq<Label>, s: State, k: nat, p: nat, l: Label, all: seq<Label>)
    requires Reached(cfg, ls, s) && k <= |ls| && WithinTry(cfg, ls, k, p) && all == ls + [l]
    requires Step(Ideal, cfg, s, l).Some? && ThreadOf(l) != Prod(p)
    ensures WithinTry(cfg, all, k, p)
  {
    assert ls[..|ls|] == ls;
    assert TryingAfter(cfg, ls[..|ls|], p);
    OthersLeavePc(cfg, s, l, p);
    RunAppend(cfg, ls, l);
    StillTrying(cfg, ls, k, p, l, all, Step(Ideal, cfg, s, l).value);
  }

  /** The steps of the other threads leave p within its call. */
  lemma {:induction false} TryGoesOn(cfg: Config, ls: seq<Label>, k: nat, p: nat, more: seq<Label>, t: State)
    requires cfg.Valid() && k <= |ls| && WithinTry(cfg, ls, k, p) && Reached(cfg, ls + more, t)
    requires forall l :: l in more ==> ThreadOf(l) != Prod(p)
    ensures WithinTry(cfg, ls + more, k, p)
  {
    if more == [] {
      assert ls + more == ls;
    } else {
      var before, u := LastOf(cfg, ls, more);
      TryGoesOn(cfg, ls, k, p, before, u);
      LastApart(ls, more);
      OthersStep(cfg, ls + before, u, k, p, more[|more| - 1], ls + more);
    }
  }

  /** p's `try_claim(1)` begins and loads all barriers. */
  lemma BeginTry(cfg: Config, ls: seq<Label>, s: State, p: nat) returns (all: seq<Label>, t: State)
    requires Reached(cfg, ls, s) && p < |s.ppc| && s.ppc[p].PIdle? && s.sent[p] < |cfg.script[p]|
    requires forall c :: 0 <= c < |s.barrier| ==> s.barrier[c] == -1
    ensures Reached(cfg, all, t) && |all| > |ls| && all[|ls|] == Try(p, 1, false) && WithinTry(cfg, all, |ls| + 1, p)
    ensures t == s.(ppc := s.ppc[p := PLoad(1, false, cfg.n - 1)])
  {
    var l := Try(p, 1, false);
    t := OneStep(cfg, ls, s, l);
    assert t == s.(ppc := s.ppc[p := PScan(1, false, 0, 0)]);
    all := ls + [l];
    assert forall j :: |ls| + 1 <= j <= |all| ==> all[..j] == all;
    all, t := Loads(cfg, all, |all|, t, p, 0);
  }

  lemma {:induction false} Loads(cfg: Config, ls: seq<Label>, k: nat, s: State, p: nat, i: nat)
    returns (all: seq<Label>, t: State)
    requires Reached(cfg, ls, s) && k <= |ls| && WithinTry(cfg, ls, k, p) && Loading(cfg, s, p, i, -1)
    ensures Reached(cfg, all, t) && ls <= all && WithinTry(cfg, all, k, p)
    ensures t == s.(ppc := s.ppc[p := PLoad(1, false, cfg.n - 1)])
    decreases |cfg.gate| - i
  {
    LoadingStep(cfg, s, p, i, -1);
    t := OneStep(cfg, ls, s, Producer(p, false));
    all := ls + [Producer(p, false)];
    StillTrying(cfg, ls, k, p, Producer(p, false), all, t);
    if i + 1 < |cfg.gate| {
      all, t := Loads(cfg, all, k, t, p, i + 1);
    }
  }

  lemma NeverFull(cfg: Config, ls: seq<Label>, s: State)
    requires Reached(cfg, ls, s) && s.next < cfg.n
    ensures forall j :: 0 <= j <= |ls| ==> !FullAfter(cfg, ls[..j])
  {
    forall j | 0 <= j <= |ls|
      ensures !FullAfter(cfg, ls[..j])
    {
      LogOnlyGrows(cfg, ls, j);
      var u := Run(Ideal, cfg, ls[..j]).value;
      ReachedInv(cfg, ls[..j], u);
      forall i | 0 <= i < |cfg.gate|
        ensures u.next - cfg.n <= u.barrier[cfg.gate[i]]
      {
        var g := cfg.gate[i];
        assert ConsOk(cfg, u.owner, u.sent, u.barrier, g, u.pos[g], u.cpc[g]);
      }
    }
  }

  lemma StillNotFull(cfg: Config, ls: seq<Label>, k: nat, l: Label, t: State)
    requires cfg.Shape() && k <= |ls| && !FullDuring(cfg, ls, k) && Run(Ideal, cfg, ls + [l]) == Some(t)
             && !Full(cfg, t)
    ensures !FullDuring(cfg, ls + [l], k)
  {
    var all := ls + [l];
    forall j | k <= j <= |all|
      ensures !FullAfter(cfg, all[..j])
    {
      assert all[..j] == if j <= |ls| then ls[..j] else all;
    }
  }

  /** p has computed its limit, with n - 1 items in the buffer, and since then all of
      them have been released. */
  ghost predicate Overtakable(cfg: Config, ls: seq<Label>, s: State, k: nat, p: nat, q: nat) {
    && Reached(cfg, ls, s) && k < |ls| && ls[k] == Try(p, 1, false)
    && WithinTry(cfg, ls, k + 1, p) && !FullDuring(cfg, ls, k + 1)
    && p != q && p < |s.ppc| && q < |s.ppc| && s.ppc[p] == PLoad(1, false, cfg.n - 1)
    && s.ppc[q].PIdle? && s.sent[q] < |cfg.script[q]|
    && s.next == cfg.n - 1 && forall c :: 0 <= c < |s.barrier| ==> s.barrier[c] == cfg.n - 2
  }

  lemma RestMeansReleased(s: State)
    requires |s.barrier| == |s.cpc| && forall d: nat :: d < |s.cpc| ==> AtRest(s, d)
    ensures forall c :: 0 <= c < |s.barrier| ==> s.barrier[c] == s.next - 1
  {
    forall c: nat | c < |s.barrier|
      ensures s.barrier[c] == s.next - 1
    {
      assert AtRest(s, c);
    }
  }

  lemma StallAndDrain(cfg: Config, ls: seq<Label>, s: State, p: nat, q: nat) returns (all: seq<Label>, t: State, k: nat)
    requires Filling(cfg, ls, s, p, q) && s.next == cfg.n - 1
    ensures Overtakable(cfg, all, t, k, p, q)
  {
    k := |ls|;
    all, t := BeginTry(cfg, ls, s, p);
    var more;
    var before := all;
    more, t := Draining(cfg, before, t, |t.cpc|);
    RestMeansReleased(t);
    TryGoesOn(cfg, before, k + 1, p, more, t);
    all := before + more;
    NeverFull(cfg, all, t);
  }

  /** q claims the n-th item, and p finds the counter beyond its limit. */
  lemma Overtake(cfg: Config, ls: seq<Label>, s: State, k: nat, p: nat, q: nat) returns (all: seq<Label>)
    requires Overtakable(cfg, ls, s, k, p, q) && cfg.n > 1
    ensures FalseResult(cfg, all, k, p) && !FullDuring(cfg, all, k + 1)
  {
    var l := Claim(q, 1);
    var t := OneStep(cfg, ls, s, l);
    OthersStep(cfg, ls, s, k + 1, p, l, ls + [l]);
    StillNotFull(cfg, ls, k + 1, l, t);
    var load := Producer(p, false);
    var u := OneStep(cfg, ls + [l], t, load);
    all := ls + [l] + [load];
    StillTrying(cfg, ls + [l], k + 1, p, load, all, u);
    StillNotFull(cfg, ls + [l], k + 1, load, u);
    assert PcOk(cfg, p, u.sent[p], u.ppc[p]);
  }

  lemma Overtaken(cfg: Config, p: nat) returns (ls: seq<Label>, k: nat)
    requires cfg.Valid() && MayBeOvertaken(cfg, p)
    ensures FalseResult(cfg, ls, k, p) && !FullDuring(cfg, ls, k + 1)
  {
    var q: nat :| q < |cfg.script| && q != p && |cfg.script[q]| > 0;
    var s := Init(Ideal, cfg);
    assert Filling(cfg, [], s, p, q);
    ls, s := Fill(cfg, [], s, p, q);
    ls, s, k := StallAndDrain(cfg, ls, s, p, q);
    ls := Overtake(cfg, ls, s, k, p, q);
  }

  /** For every buffer size, consumer graph and scripts: a false result of p's `try_claim`
      always means that the buffer was full at some instant of the call if and only if the
      counter cannot overtake p.  Otherwise there is a run in which it never was. */
  lemma FalseMeansFullExactly(cfg: Config, p: nat)
    requires cfg.Valid() && p < |cfg.script|
    ensures FalseMeansFull(cfg, p) <==> !MayBeOvertaken(cfg, p)
  {
    if MayBeOvertaken(cfg, p) {
      var ls, k := Overtaken(cfg, p);
      assert !(FalseResult(cfg, ls, k, p) ==> FullDuring(cfg, ls, k + 1));
    } else {
      forall ls: seq<Label>, k: nat | FalseResult(cfg, ls, k, p)
        ensures FullDuring(cfg, ls, k + 1)
      {
        FalseIsFull(cfg, ls, k, p);
      }
    }
  }
}
