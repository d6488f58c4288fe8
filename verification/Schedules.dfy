/** Schedules built by hand: one producer passing an item, the consumers catching up, a
    `try_claim` that loads the barriers and then stalls. */
module Schedules {
  import opened Protocol
  import opened Invariant
  import opened Safety
  import opened Progress
  import opened Completion

  /** The steps `more` are all t's, and none starts a non-blocking claim. */
  predicate Alone(more: seq<Label>, t: Thread) {
    forall l :: l in more ==> ThreadOf(l) == t && !l.Try?
  }

  /** A polite step that neither polls, nor fails spuriously, nor finds a sequence behind. */
  predicate Smooth(cfg: Config, s: State, l: Label)
    requires Shape(cfg, s)
  {
    Polite(cfg, s, l) && !l.Try? && !Spurious(l) && !Misses(cfg, s, l)
  }

  ghost predicate SmoothRun(cfg: Config, ls: seq<Label>)
    requires cfg.Shape()
  {
    forall k :: 0 <= k < |ls| && Run(Ideal, cfg, ls[..k]).Some? ==> Smooth(cfg, Run(Ideal, cfg, ls[..k]).value, ls[k])
  }

  lemma OneStep(cfg: Config, ls: seq<Label>, s: State, l: Label) returns (t: State)
    requires Reached(cfg, ls, s) && Step(Ideal, cfg, s, l).Some?
    ensures t == Step(Ideal, cfg, s, l).value && Reached(cfg, ls + [l], t)
    ensures SmoothRun(cfg, ls) && Smooth(cfg, s, l) ==> SmoothRun(cfg, ls + [l])
  {
    t := Step(Ideal, cfg, s, l).value;
    RunAppend(cfg, ls, l);
    if SmoothRun(cfg, ls) && Smooth(cfg, s, l) { StillSmooth(cfg, ls, s, l); }
  }

  lemma StillSmooth(cfg: Config, ls: seq<Label>, s: State, l: Label)
    requires Reached(cfg, ls, s) && SmoothRun(cfg, ls) && Smooth(cfg, s, l)
    ensures SmoothRun(cfg, ls + [l])
  {
    var all := ls + [l];
    forall k | 0 <= k < |all| && Run(Ideal, cfg, all[..k]).Some?
      ensures Smooth(cfg, Run(Ideal, cfg, all[..k]).value, all[k])
    {
      assert all[..k] == if k < |ls| then ls[..k] else ls;
    }
  }

  // ------------------------------------------------------------------
  // One item published.
  // ------------------------------------------------------------------

  predicate Waiting(s: State, q: nat, first: int, count: nat) {
    q < |s.ppc| && s.ppc[q].PWait? && s.ppc[q].first == first && s.ppc[q].count == count
  }

  lemma WaitingStep(cfg: Config, s: State, q: nat, first: int, count: nat)
    requires Inv(cfg, s) && Waiting(s, q, first, count) && Under(cfg, s.barrier, first + count - 1)
    ensures Step(Ideal, cfg, s, Producer(q, false)).Some? && Smooth(cfg, s, Producer(q, false))
    ensures var t := Step(Ideal, cfg, s, Producer(q, false)).value;
            && t == s.(ppc := s.ppc[q := t.ppc[q]])
            && if s.ppc[q].i + 1 < |cfg.gate| then Waiting(t, q, first, count) && t.ppc[q].i == s.ppc[q].i + 1
               else t.ppc[q] == PWrite(first, count, 0)
  {
    assert PcOk(cfg, q, s.sent[q], s.ppc[q]) && ScanOk(cfg, s.next, s.barrier, s.ppc[q]);
  }

  /** A claim that there is room for is granted after one scan. */
  lemma {:induction false} Granting(cfg: Config, ls: seq<Label>, s: State, q: nat, first: int, count: nat)
    returns (more: seq<Label>, t: State)
    requires Reached(cfg, ls, s) && Waiting(s, q, first, count) && Under(cfg, s.barrier, first + count - 1)
    ensures Reached(cfg, ls + more, t) && t == s.(ppc := s.ppc[q := PWrite(first, count, 0)]) && Alone(more, Prod(q))
    ensures SmoothRun(cfg, ls) ==> SmoothRun(cfg, ls + more)
    decreases |cfg.gate| - s.ppc[q].i
  {
    ReachedInv(cfg, ls, s);
    WaitingStep(cfg, s, q, first, count);
    var i, l := s.ppc[q].i, Producer(q, false);
    t := OneStep(cfg, ls, s, l);
    more := [l];
    if i + 1 < |cfg.gate| {
      var rest;
      rest, t := Granting(cfg, ls + [l], t, q, first, count);
      more := [l] + rest;
      InTwoParts(ls, [l], rest);
    }
  }

  lemma FillAndPublish(cfg: Config, ls: seq<Label>, s: State, q: nat, j: int) returns (more: seq<Label>, t: State)
    requires Reached(cfg, ls, s) && q < |s.ppc| && s.ppc[q] == PWrite(j, 1, 0)
    ensures Reached(cfg, ls + more, t) && Alone(more, Prod(q))
    ensures SmoothRun(cfg, ls) ==> SmoothRun(cfg, ls + more)
    ensures t == s.(ppc := s.ppc[q := PIdle], sent := s.sent[q := s.sent[q] + 1], ring := t.ring, pub := t.pub)
  {
    var l := Producer(q, false);
    WriteOne(cfg, s, q, j);
    var u := OneStep(cfg, ls, s, l);
    var rest;
    rest, t := StoreAndSignal(cfg, ls + [l], u, q, j);
    more := [l] + rest;
    InTwoParts(ls, [l], rest);
    Filled(s, u, t, q, j);
  }

  lemma Filled(s: State, u: State, t: State, q: nat, j: int)
    requires q < |s.ppc| == |s.sent| && u == s.(ppc := s.ppc[q := PPublish(j, 1, 0)], ring := u.ring)
    requires t == u.(ppc := u.ppc[q := PIdle], sent := u.sent[q := u.sent[q] + 1], pub := t.pub)
    ensures t == s.(ppc := s.ppc[q := PIdle], sent := s.sent[q := s.sent[q] + 1], ring := t.ring, pub := t.pub)
  {
  }

  lemma WriteOne(cfg: Config, s: State, q: nat, j: int)
    requires Shape(cfg, s) && q < |s.ppc| && s.ppc[q] == PWrite(j, 1, 0)
    ensures Step(Ideal, cfg, s, Producer(q, false)).Some? && Smooth(cfg, s, Producer(q, false))
    ensures var t := Step(Ideal, cfg, s, Producer(q, false)).value;
            t == s.(ppc := s.ppc[q := PPublish(j, 1, 0)], ring := t.ring)
  {
    assert PcOk(cfg, q, s.sent[q], s.ppc[q]);
  }

  lemma StoreOne(cfg: Config, s: State, q: nat, j: int)
    requires Shape(cfg, s) && q < |s.ppc| && s.ppc[q] == PPublish(j, 1, 0)
    ensures Step(Ideal, cfg, s, Producer(q, false)).Some? && Smooth(cfg, s, Producer(q, false))
    ensures var t := Step(Ideal, cfg, s, Producer(q, false)).value;
            t == s.(ppc := s.ppc[q := PPublish(j, 1, 1)], sent := s.sent[q := s.sent[q] + 1], pub := t.pub)
  {
    assert PcOk(cfg, q, s.sent[q], s.ppc[q]);
  }

  lemma SignalOne(cfg: Config, s: State, q: nat, j: int)
    requires Shape(cfg, s) && q < |s.ppc| && s.ppc[q] == PPublish(j, 1, 1)
    ensures Step(Ideal, cfg, s, Producer(q, false)) == Some(s.(ppc := s.ppc[q := PIdle]))
    ensures Smooth(cfg, s, Producer(q, false))
  {
    assert PcOk(cfg, q, s.sent[q], s.ppc[q]);
  }

  lemma ClaimOne(cfg: Config, s: State, q: nat)
    requires Shape(cfg, s) && q < |s.ppc| && s.ppc[q].PIdle? && s.sent[q] < |cfg.script[q]|
    ensures Smooth(cfg, s, Claim(q, 1))
    ensures Step(Ideal, cfg, s, Claim(q, 1))
         == Some(s.(next := s.next + 1, owner := s.owner + [(q, s.sent[q])], ppc := s.ppc[q := PWait(s.next, 1, 0, 0)]))
  {
    assert Block(q, s.sent[q], 1) == [(q, s.sent[q])];
  }

  lemma StoreAndSignal(cfg: Config, ls: seq<Label>, s: State, q: nat, j: int) returns (more: seq<Label>, t: State)
    requires Reached(cfg, ls, s) && q < |s.ppc| && s.ppc[q] == PPublish(j, 1, 0)
    ensures Reached(cfg, ls + more, t) && Alone(more, Prod(q))
    ensures SmoothRun(cfg, ls) ==> SmoothRun(cfg, ls + more)
    ensures t == s.(ppc := s.ppc[q := PIdle], sent := s.sent[q := s.sent[q] + 1], pub := t.pub)
  {
    var l := Producer(q, false);
    StoreOne(cfg, s, q, j);
    t := OneStep(cfg, ls, s, l);
    SignalOne(cfg, t, q, j);
    t := OneStep(cfg, ls + [l], t, l);
    InTwoParts(ls, [l], [l]);
    more := [l] + [l];
  }

  /** Producer q passes one item through `claim_one`, the write and `publish`. */
  lemma ItemPublished(cfg: Config, ls: seq<Label>, s: State, q: nat) returns (more: seq<Label>, t: State)
    requires Reached(cfg, ls, s) && q < |s.ppc| && s.ppc[q].PIdle?
    requires s.sent[q] < |cfg.script[q]| && Under(cfg, s.barrier, s.next)
    ensures Reached(cfg, ls + more, t) && Alone(more, Prod(q))
    ensures SmoothRun(cfg, ls) ==> SmoothRun(cfg, ls + more)
    ensures t == s.(next := s.next + 1, owner := s.owner + [(q, s.sent[q])], sent := s.sent[q := s.sent[q] + 1],
                    ring := t.ring, pub := t.pub)
  {
    var l, j := Claim(q, 1), s.next;
    ClaimOne(cfg, s, q);
    var u := OneStep(cfg, ls, s, l);
    var grant, v := Granting(cfg, ls + [l], u, q, j, 1);
    InTwoParts(ls, [l], grant);
    var rest;
    rest, t := FillAndPublish(cfg, ls + ([l] + grant), v, q, j);
    InTwoParts(ls, [l] + grant, rest);
    more := [l] + grant + rest;
    assert t.ppc == s.ppc;
  }

  // ------------------------------------------------------------------
  // The consumers catch up.
  // ------------------------------------------------------------------

  predicate ByConsumers(more: seq<Label>) {
    forall l :: l in more ==> ThreadOf(l).Cons?
  }

  /** What consumers' steps leave as it is. */
  predicate SameProducers(s: State, t: State) {
    t.next == s.next && t.owner == s.owner && t.sent == s.sent && t.ppc == s.ppc && t.ring == s.ring && t.pub == s.pub
  }

  lemma ConsumerLeaves(cfg: Config, s: State, l: Label)
    requires Shape(cfg, s) && ThreadOf(l).Cons? && Step(Ideal, cfg, s, l).Some?
    ensures SameProducers(s, Step(Ideal, cfg, s, l).value)
  {
  }

  /** No claim is outstanding. */
  ghost predicate Quiet(s: State) {
    forall p: nat :: p < |s.ppc| ==> !Granted(s.ppc[p]) && !s.ppc[p].PWait?
  }

  /** c has released everything. */
  predicate AtRest(s: State, c: nat) {
    && c < |s.cpc| == |s.barrier| == |s.pos|
    && s.cpc[c].CIdle? && s.barrier[c] == s.next - 1 && s.pos[c] == s.next
  }

  predicate SameConsumer(s: State, t: State, d: nat) {
    && d < |s.cpc| == |s.barrier| == |s.pos| == |s.got| && |t.cpc| == |t.barrier| == |t.pos| == |t.got| == |s.cpc|
    && t.cpc[d] == s.cpc[d] && t.barrier[d] == s.barrier[d] && t.pos[d] == s.pos[d] && t.got[d] == s.got[d]
  }

  /** From s to t, only c has done anything. */
  ghost predicate OnlyConsumer(s: State, t: State, c: nat) {
    SameProducers(s, t) && forall d: nat :: d < |s.cpc| && d != c ==> SameConsumer(s, t, d)
  }

  lemma OnlyConsumerTwice(s: State, t: State, u: State, c: nat)
    requires OnlyConsumer(s, t, c) && OnlyConsumer(t, u, c) && |s.cpc| == |t.cpc|
    ensures OnlyConsumer(s, u, c)
  {
    forall d: nat | d < |s.cpc| && d != c
      ensures SameConsumer(s, u, d)
    {
      assert SameConsumer(s, t, d) && SameConsumer(t, u, d);
    }
  }

  /** c is between two items, and all it needs for the next ones is there. */
  ghost predicate Catching(cfg: Config, s: State, c: nat)
    requires Shape(cfg, s)
  {
    && c < |s.cpc| && Quiet(s) && Upstream(cfg, s.barrier, c, s.next - 1)
    && (s.cpc[c].CCheck? || s.cpc[c].CSpin? || s.cpc[c].CWait? ==> s.cpc[c].target == s.pos[c] < s.next)
  }

  lemma CatchingIsReady(cfg: Config, s: State, c: nat)
    requires Inv(cfg, s) && Catching(cfg, s, c) && !AtRest(s, c)
    ensures Ready(cfg, s, Cons(c)) && (s.cpc[c].CIdle? ==> s.pos[c] < s.next)
    ensures Smooth(cfg, s, NextStep(s, Cons(c)))
  {
    assert ConsOk(cfg, s.owner, s.sent, s.barrier, c, s.pos[c], s.cpc[c]);
    assert ReadOk(cfg, s.owner, s.pos[c], s.got[c]);
    NothingHeld(cfg, s);
    ClaimedWithinScripts(cfg, s);
    if s.pos[c] < s.next { WordTells(cfg, s, c, s.pos[c]); }
    ReadyIsSmooth(cfg, s, c);
  }

  lemma ReadyIsSmooth(cfg: Config, s: State, c: nat)
    requires Inv(cfg, s) && c < |s.cpc| && Ready(cfg, s, Cons(c))
    ensures Smooth(cfg, s, NextStep(s, Cons(c)))
  {
    assert CpcOk(cfg, c, s.cpc[c]) && ConsOk(cfg, s.owner, s.sent, s.barrier, c, s.pos[c], s.cpc[c]);
  }

  lemma CatchingStep(cfg: Config, s: State, c: nat)
    requires Shape(cfg, s) && Catching(cfg, s, c) && Ready(cfg, s, Cons(c)) && (s.cpc[c].CIdle? ==> s.pos[c] < s.next)
    requires (s.cpc[c].CCheck? ==> s.cpc[c].sq == s.pos[c]) && |s.got| == |s.pos|
    ensures Step(Ideal, cfg, s, NextStep(s, Cons(c))).Some?
    ensures var t := Step(Ideal, cfg, s, NextStep(s, Cons(c))).value;
            Catching(cfg, t, c) && OnlyConsumer(s, t, c) && |t.cpc| == |s.cpc|
  {
    assert CpcOk(cfg, c, s.cpc[c]);
    ReadyCanStep(cfg, s, Cons(c));
    ConsumerLeaves(cfg, s, NextStep(s, Cons(c)));
  }

  /** With no claim outstanding and the stages before it at rest, c alone can release
      everything. */
  lemma {:induction false} CatchUp(cfg: Config, ls: seq<Label>, s: State, c: nat) returns (more: seq<Label>, t: State)
    requires Reached(cfg, ls, s) && Catching(cfg, s, c)
    ensures Reached(cfg, ls + more, t) && AtRest(t, c) && Alone(more, Cons(c)) && OnlyConsumer(s, t, c)
    ensures SmoothRun(cfg, ls) ==> SmoothRun(cfg, ls + more)
    decreases Work(cfg, s), Distance(cfg, s, Cons(c))
  {
    ReachedInv(cfg, ls, s);
    more, t := [], s;
    assert ls + more == ls;
    if !AtRest(s, c) {
      CatchingIsReady(cfg, s, c);
      assert ConsOk(cfg, s.owner, s.sent, s.barrier, c, s.pos[c], s.cpc[c]);
      CatchingStep(cfg, s, c);
      var l := NextStep(s, Cons(c));
      var u := OneStep(cfg, ls, s, l);
      StepCounts(cfg, ls, s, l, u, Cons(c));
      var rest;
      rest, t := CatchUp(cfg, ls + [l], u, c);
      OnlyConsumerTwice(s, u, t, c);
      InTwoParts(ls, [l], rest);
      more := [l] + rest;
    }
  }

  /** A ready thread's own step brings it closer to the end. */
  lemma StepCounts(cfg: Config, ls: seq<Label>, s: State, l: Label, u: State, t: Thread)
    requires Reached(cfg, ls, s) && Reached(cfg, ls + [l], u) && Step(Ideal, cfg, s, l) == Some(u)
    requires IsThread(cfg, t) && Ready(cfg, s, t) && ThreadOf(l) == t && !Spurious(l)
    ensures Work(cfg, s) >= 0 && Work(cfg, u) >= 0 && Distance(cfg, s, t) > 0 && Distance(cfg, u, t) > 0
    ensures Work(cfg, u) < Work(cfg, s)
            || (Work(cfg, u) == Work(cfg, s) && Distance(cfg, u, t) < Distance(cfg, s, t))
  {
    ReachedWork(cfg, ls, s);
    DistancePositive(cfg, ls, s, t);
    DistancePositive(cfg, ls + [l], u, t);
    ReachedInv(cfg, ls, s);
    StepWorks(cfg, s, l);
    if !Milestone(cfg, s, l) { ReadyComesCloser(cfg, s, l, t); }
  }

  lemma StagesAtRest(cfg: Config, s: State, c: nat)
    requires Shape(cfg, s) && c < |s.cpc| && forall d: nat :: d < c ==> AtRest(s, d)
    ensures Upstream(cfg, s.barrier, c, s.next - 1)
  {
    forall j | 0 <= j < |cfg.deps[c]|
      ensures s.next - 1 <= s.barrier[cfg.deps[c][j]]
    {
      assert AtRest(s, cfg.deps[c][j]);
    }
  }

  lemma OthersAtRest(s: State, u: State, t: State, c: nat)
    requires |u.cpc| == |s.cpc| && |t.cpc| == |u.cpc| && c < |s.cpc| && OnlyConsumer(u, t, c)
             && forall d: nat :: d < c ==> AtRest(u, d)
    requires forall d: nat :: c <= d < |s.cpc| ==> SameConsumer(s, u, d)
    ensures forall d: nat :: d < c ==> AtRest(t, d)
    ensures forall d: nat :: c < d < |s.cpc| ==> SameConsumer(s, t, d)
  {
    forall d: nat | d < c
      ensures AtRest(t, d)
    {
      assert SameConsumer(u, t, d) && AtRest(u, d);
    }
    forall d: nat | c < d < |s.cpc|
      ensures SameConsumer(s, t, d)
    {
      assert SameConsumer(u, t, d) && SameConsumer(s, u, d);
    }
  }

  /** The first k consumers catch up, one after the other. */
  lemma {:induction false} Draining(cfg: Config, ls: seq<Label>, s: State, k: nat) returns (more: seq<Label>, t: State)
    requires Reached(cfg, ls, s) && Quiet(s) && k <= |s.cpc| && forall d: nat :: d < k ==> s.cpc[d].CIdle?
    ensures Reached(cfg, ls + more, t) && ByConsumers(more) && SameProducers(s, t)
    ensures SmoothRun(cfg, ls) ==> SmoothRun(cfg, ls + more)
    ensures forall d: nat :: d < k ==> AtRest(t, d)
    ensures forall d: nat :: k <= d < |s.cpc| ==> SameConsumer(s, t, d)
  {
    more, t := [], s;
    assert ls + more == ls;
    if k > 0 {
      var first, u := Draining(cfg, ls, s, k - 1);
      var rest;
      rest, t := CatchNext(cfg, ls + first, s, u, k - 1);
      InTwoParts(ls, first, rest);
      more := first + rest;
    }
  }

  /** From s to u the first c consumers have caught up; now c does. */
  lemma CatchNext(cfg: Config, ls: seq<Label>, s: State, u: State, c: nat) returns (more: seq<Label>, t: State)
    requires Reached(cfg, ls, u) && Quiet(u) && c < |s.cpc| == |u.cpc| && s.cpc[c].CIdle?
    requires forall d: nat :: d < c ==> AtRest(u, d)
    requires forall d: nat :: c <= d < |s.cpc| ==> SameConsumer(s, u, d)
    ensures Reached(cfg, ls + more, t) && ByConsumers(more) && SameProducers(u, t)
    ensures SmoothRun(cfg, ls) ==> SmoothRun(cfg, ls + more)
    ensures forall d: nat :: d <= c ==> AtRest(t, d)
    ensures forall d: nat :: c < d < |s.cpc| ==> SameConsumer(s, t, d)
  {
    StagesAtRest(cfg, u, c);
    assert SameConsumer(s, u, c);
    more, t := CatchUp(cfg, ls, u, c);
    OthersAtRest(s, u, t, c);
  }

  // ------------------------------------------------------------------
  // A non-blocking claim that stalls after loading the barriers.
  // ------------------------------------------------------------------

  /** In `try_claim(1)`: i barriers loaded, all of which held b. */
  predicate Loading(cfg: Config, s: State, p: nat, i: nat, b: int) {
    && p < |s.ppc| && i < |cfg.gate| && s.ppc[p] == PScan(1, false, i, if i == 0 then 0 else b)
    && forall c :: 0 <= c < |s.barrier| ==> s.barrier[c] == b
  }

  function Loaded(cfg: Config, s: State, p: nat, i: nat, b: int): State
    requires p < |s.ppc|
  {
    s.(ppc := s.ppc[p := if i + 1 < |cfg.gate| then PScan(1, false, i + 1, b) else PLoad(1, false, b + cfg.n)])
  }

  lemma LoadingStep(cfg: Config, s: State, p: nat, i: nat, b: int)
    requires Shape(cfg, s) && Loading(cfg, s, p, i, b)
    ensures Step(Ideal, cfg, s, Producer(p, false)) == Some(Loaded(cfg, s, p, i, b))
  {
    assert PcOk(cfg, p, s.sent[p], s.ppc[p]);
  }
}
