/** Why the word machine needs its lag assumption: a run in which a limit computed by
    `try_claim` goes stale by more than 2^63, and a consumer reads an item that the log
    does not hold there. */
module StaleLimits {
  import opened Sequences
  import opened Slots
  import opened Protocol
  import opened Invariant
  import opened Safety
  import opened Progress
  import opened Schedules
  import opened WrapAround

  /** p holds the limit it computed at the start; all items so far are q's. */
  ghost predicate StaleAt(cfg: Config, s: State, p: nat, q: nat) {
    && 0 < |s.barrier| == |s.pos| == |s.cpc| && |s.sent| == |s.ppc|
    && p != q && p < |s.ppc| && q < |s.ppc| && s.ppc[p] == PLoad(1, false, cfg.n - 1) && s.sent[p] == 0
    && (forall r: nat :: r < |s.ppc| && r != p ==> s.ppc[r].PIdle?)
    && s.sent[q] == s.next == |s.owner| && forall x :: 0 <= x < |s.owner| ==> s.owner[x] == (q, x)
  }

  ghost predicate Stale(cfg: Config, ls: seq<Label>, s: State, p: nat, q: nat) {
    Reached(cfg, ls, s) && RunLag(cfg, ls) && StaleAt(cfg, s, p, q)
  }

  lemma OnlyPTries(cfg: Config, s: State, p: nat, q: nat)
    requires StaleAt(cfg, s, p, q)
    ensures OnlyTries(s, p) && Quiet(s)
  {
  }

  ghost predicate Drained(s: State) {
    forall c: nat :: c < |s.cpc| ==> AtRest(s, c)
  }

  lemma {:induction false} LoadsEarly(cfg: Config, ls: seq<Label>, s: State, p: nat, i: nat)
    returns (all: seq<Label>, t: State)
    requires Reached(cfg, ls, s) && RunLag(cfg, ls) && s.next == 0 && Loading(cfg, s, p, i, -1)
    ensures Reached(cfg, all, t) && RunLag(cfg, all) && t == s.(ppc := s.ppc[p := PLoad(1, false, cfg.n - 1)])
    decreases |cfg.gate| - i
  {
    var l := Producer(p, false);
    LoadingStep(cfg, s, p, i, -1);
    t := OneStep(cfg, ls, s, l);
    OneMoreLag(cfg, ls, s, l);
    all := ls + [l];
    if i + 1 < |cfg.gate| {
      all, t := LoadsEarly(cfg, all, t, p, i + 1);
    }
  }

  lemma StartsRested(cfg: Config)
    requires cfg.Valid()
    ensures var s := Init(Ideal, cfg);
            && Reached(cfg, [], s) && RunLag(cfg, []) && 0 < |s.barrier| == |s.pos| == |s.cpc|
            && s.next == 0 && Rested(s, 0) && s.owner == [] && |s.sent| == |s.ppc| == |cfg.script|
            && (forall r: nat :: r < |s.ppc| ==> s.ppc[r].PIdle? && s.sent[r] == 0)
  {
    assert cfg.gate[0] < |cfg.deps|;
  }

  lemma Stall(cfg: Config, p: nat, q: nat) returns (ls: seq<Label>, s: State)
    requires cfg.Valid() && p != q && p < |cfg.script| && q < |cfg.script| && |cfg.script[p]| > 0
    ensures Stale(cfg, ls, s, p, q) && s.next == 0 && Rested(s, 0)
  {
    StartsRested(cfg);
    ls, s := StallFrom(cfg, Init(Ideal, cfg), p);
  }

  lemma StallFrom(cfg: Config, s: State, p: nat) returns (ls: seq<Label>, t: State)
    requires Reached(cfg, [], s) && RunLag(cfg, []) && p < |s.ppc| && s.ppc[p].PIdle? && s.sent[p] < |cfg.script[p]|
    requires s.next == 0 && forall c :: 0 <= c < |s.barrier| ==> s.barrier[c] == -1
    ensures Reached(cfg, ls, t) && RunLag(cfg, ls) && t == s.(ppc := s.ppc[p := PLoad(1, false, cfg.n - 1)])
  {
    var l := Try(p, 1, false);
    var u := OneStep(cfg, [], s, l);
    OneMoreLag(cfg, [], s, l);
    assert u == s.(ppc := s.ppc[p := PScan(1, false, 0, 0)]);
    ls, t := LoadsEarly(cfg, [] + [l], u, p, 0);
  }

  lemma StaleItem(cfg: Config, ls: seq<Label>, s: State, p: nat, q: nat) returns (all: seq<Label>, t: State)
    requires Stale(cfg, ls, s, p, q) && s.next < |cfg.script[q]| && Under(cfg, s.barrier, s.next)
    ensures Stale(cfg, all, t, p, q) && t.next == s.next + 1
    ensures t.barrier == s.barrier && t.pos == s.pos && t.cpc == s.cpc
  {
    var more;
    more, t := ItemPublished(cfg, ls, s, q);
    OneLeavesAlone(more, p, q);
    OnlyPTries(cfg, s, p, q);
    QuietRunLag(cfg, ls, s, more, t, p);
    all := ls + more;
    ItemKeeps(cfg, s, t, p, q);
  }

  lemma OneLeavesAlone(more: seq<Label>, p: nat, q: nat)
    requires Alone(more, Prod(q)) && p != q
    ensures forall l :: l in more ==> LeavesAlone(l, p)
  {
  }

  lemma ItemKeeps(cfg: Config, s: State, t: State, p: nat, q: nat)
    requires StaleAt(cfg, s, p, q)
    requires t == s.(next := s.next + 1, owner := s.owner + [(q, s.sent[q])], sent := s.sent[q := s.sent[q] + 1],
                     ring := t.ring, pub := t.pub)
    ensures StaleAt(cfg, t, p, q)
  {
  }

  lemma StaleDrain(cfg: Config, ls: seq<Label>, s: State, p: nat, q: nat) returns (all: seq<Label>, t: State)
    requires Stale(cfg, ls, s, p, q) && forall c :: 0 <= c < |s.cpc| ==> s.cpc[c].CIdle?
    ensures Stale(cfg, all, t, p, q) && t.next == s.next && Drained(t)
  {
    var more;
    OnlyPTries(cfg, s, p, q);
    more, t := Draining(cfg, ls, s, |s.cpc|);
    assert StaleAt(cfg, t, p, q) by { ReachedInv(cfg, ls + more, t); }
    ConsumersLeaveAlone(more, p);
    QuietRunLag(cfg, ls, s, more, t, p);
    all := ls + more;
  }

  lemma ConsumersLeaveAlone(more: seq<Label>, p: nat)
    requires ByConsumers(more)
    ensures forall l :: l in more ==> LeavesAlone(l, p)
  {
  }

  /** All consumers rest, with the first m items released. */
  ghost predicate Rested(s: State, m: int) {
    && |s.barrier| == |s.pos| == |s.cpc|
    && forall c :: 0 <= c < |s.cpc| ==> s.cpc[c].CIdle? && s.barrier[c] == m - 1 && s.pos[c] == m
  }

  lemma DrainedIsRested(s: State)
    requires |s.barrier| == |s.pos| == |s.cpc|
    ensures Drained(s) <==> Rested(s, s.next)
  {
    forall c: nat | c < |s.cpc|
      ensures AtRest(s, c) <==> s.cpc[c].CIdle? && s.barrier[c] == s.next - 1 && s.pos[c] == s.next
    {
    }
    if Drained(s) {
      forall c | 0 <= c < |s.cpc|
        ensures s.cpc[c].CIdle? && s.barrier[c] == s.next - 1 && s.pos[c] == s.next
      {
        assert AtRest(s, c);
      }
    }
  }

  lemma RoomWhenRested(cfg: Config, s: State, m: int)
    requires Shape(cfg, s) && m <= s.next < m + cfg.n && Rested(s, m)
    ensures Under(cfg, s.barrier, s.next)
  {
  }

  /** m items of q's pass, all of them consumed. */
  lemma PassItems(cfg: Config, p: nat, q: nat, m: nat) returns (ls: seq<Label>, s: State)
    requires cfg.Valid() && p != q && p < |cfg.script| && q < |cfg.script| && |cfg.script[p]| > 0
             && m <= |cfg.script[q]|
    ensures Stale(cfg, ls, s, p, q) && s.next == m && Rested(s, m)
  {
    ls, s := Stall(cfg, p, q);
    while s.next < m
      invariant Stale(cfg, ls, s, p, q) && 0 <= s.next <= m && Rested(s, s.next)
      decreases m - s.next
    {
      RoomWhenRested(cfg, s, s.next);
      ls, s := StaleItem(cfg, ls, s, p, q);
      ls, s := StaleDrain(cfg, ls, s, p, q);
      DrainedIsRested(s);
    }
  }

  /** Then n more that no consumer has touched. */
  lemma FillUp(cfg: Config, p: nat, q: nat, m: nat) returns (ls: seq<Label>, s: State)
    requires cfg.Valid() && p != q && p < |cfg.script| && q < |cfg.script| && |cfg.script[p]| > 0
    requires m + cfg.n <= |cfg.script[q]|
    ensures Stale(cfg, ls, s, p, q) && s.next == m + cfg.n && Rested(s, m)
  {
    ls, s := PassItems(cfg, p, q, m);
    while s.next < m + cfg.n
      invariant Stale(cfg, ls, s, p, q) && m <= s.next <= m + cfg.n && Rested(s, m)
      decreases m + cfg.n - s.next
    {
      RoomWhenRested(cfg, s, m);
      ls, s := StaleItem(cfg, ls, s, p, q);
    }
  }

  /** Consumer 0 has not read its next item, which is there. */
  predicate HasNext(s: State) {
    && 0 < |s.cpc| == |s.barrier| == |s.pos| && s.barrier[0] == s.pos[0] - 1 && s.pos[0] < s.next && !s.cpc[0].CRelease?
    && (s.cpc[0].CCheck? || s.cpc[0].CSpin? ==> s.cpc[0].target == s.pos[0])
  }

  lemma TowardsRead(cfg: Config, s: State)
    requires Inv(cfg, s) && HasNext(s) && AllPub(s.owner, s.sent, s.next - 1) && !s.cpc[0].CRead?
    ensures Step(Ideal, cfg, s, NextStep(s, Cons(0))).Some?
    ensures var u := Step(Ideal, cfg, s, NextStep(s, Cons(0))).value;
            u == s.(cpc := u.cpc) && HasNext(u) && Work(cfg, u) < Work(cfg, s)
  {
    WordTells(cfg, s, 0, s.pos[0]);
    assert CpcOk(cfg, 0, s.cpc[0]) && ConsOk(cfg, s.owner, s.sent, s.barrier, 0, s.pos[0], s.cpc[0]);
    assert ReadOk(cfg, s.owner, s.pos[0], s.got[0]);
    ClaimedWithinScripts(cfg, s);
    assert Ready(cfg, s, Cons(0));
    assert Milestone(cfg, s, NextStep(s, Cons(0)));
    StepWorks(cfg, s, NextStep(s, Cons(0)));
  }

  /** It waits, finds the items, and is about to read the first of them. */
  lemma {:induction false} AboutToRead(cfg: Config, ls: seq<Label>, s: State, p: nat, q: nat)
    returns (all: seq<Label>, t: State)
    requires Stale(cfg, ls, s, p, q) && HasNext(s)
    ensures Stale(cfg, all, t, p, q) && HasNext(t) && t.cpc[0].CRead? && t == s.(cpc := t.cpc)
    decreases Work(cfg, s)
  {
    all, t := ls, s;
    if !s.cpc[0].CRead? {
      all, t := StepToRead(cfg, ls, s, p, q);
      ReachedWork(cfg, ls, s);
      ReachedWork(cfg, all, t);
      all, t := AboutToRead(cfg, all, t, p, q);
    }
  }

  lemma StepToRead(cfg: Config, ls: seq<Label>, s: State, p: nat, q: nat) returns (all: seq<Label>, t: State)
    requires Stale(cfg, ls, s, p, q) && HasNext(s) && !s.cpc[0].CRead?
    ensures Stale(cfg, all, t, p, q) && HasNext(t) && t == s.(cpc := t.cpc) && Work(cfg, t) < Work(cfg, s)
  {
    ReachedInv(cfg, ls, s);
    OnlyPTries(cfg, s, p, q);
    NothingHeld(cfg, s);
    TowardsRead(cfg, s);
    var l := NextStep(s, Cons(0));
    t := OneStep(cfg, ls, s, l);
    all := ls + [l];
    OneMoreLag(cfg, ls, s, l);
  }

  // ------------------------------------------------------------------
  // What the words make of it.
  // ------------------------------------------------------------------

  /** The ideal machine refuses the claim; the word machine grants it. */
  lemma MachineGrants(cfg: Config, s: State, p: nat)
    requires Shape(cfg, s) && p < |s.ppc| && 0 < cfg.n < QUARTER && s.next == HALF + cfg.n
    requires s.ppc[p] == PCas(1, false, 1, cfg.n - 1, s.next)
    ensures CasStep(Ideal, cfg, s, p, false).ppc[p].PIdle? && Shape(cfg, Wrapped(s))
    ensures PcOk(cfg, p, s.sent[p], PWrite(Wrap(s.next), 1, 0))
    ensures CasStep(Machine, cfg, Wrapped(s), p, false)
         == Advance(Machine, cfg, Wrapped(s), p, 1, PWrite(Wrap(s.next), 1, 0))
  {
    WrappedShape(cfg, s);
    assert PcOk(cfg, p, s.sent[p], s.ppc[p]);
    OtherSign(cfg.n - 1, s.next);
    assert Wrapped(s).ppc[p] == PCas(1, false, 1, Wrap(cfg.n - 1), Wrap(s.next));
  }

  /** It then fills the slot of an item nobody has read. */
  lemma MachineOverwrites(cfg: Config, w: State, p: nat, m: int)
    requires cfg.Valid() && Shape(cfg, w) && p < |w.ppc| && cfg.n < QUARTER && w.ppc[p] == PWrite(Wrap(m + cfg.n), 1, 0)
    ensures PcOk(cfg, p, w.sent[p], w.ppc[p])
    ensures WriteStep(Machine, cfg, w, p).ring == w.ring[Slot(cfg.n, m) := cfg.script[p][w.sent[p]]]
    ensures WriteStep(Machine, cfg, w, p)
            == w.(ring := WriteStep(Machine, cfg, w, p).ring, ppc := WriteStep(Machine, cfg, w, p).ppc)
  {
    assert PcOk(cfg, p, w.sent[p], w.ppc[p]);
    ElementAgrees(cfg.n, m + cfg.n, 0);
    SlotPeriod(cfg.n, m + cfg.n);
  }

  lemma MachineReads(cfg: Config, w: State, m: int)
    requires cfg.Valid() && Shape(cfg, w) && 0 < |w.cpc| && cfg.n < QUARTER && w.cpc[0].CRead? && w.pos[0] == Wrap(m)
    ensures ConsumerStep(Machine, cfg, w, 0).Some?
    ensures var t := ConsumerStep(Machine, cfg, w, 0).value;
            t.got[0] == w.got[0] + [w.ring[Slot(cfg.n, m)]] && t.owner == w.owner && |t.got| == |w.got|
  {
    ElementAgrees(cfg.n, m, 0);
  }

  lemma MachineAppend(cfg: Config, ls: seq<Label>, l: Label)
    requires cfg.Shape() && Run(Machine, cfg, ls).Some?
    ensures Run(Machine, cfg, ls + [l]) == Step(Machine, cfg, Run(Machine, cfg, ls).value, l)
  {
  }

  /** p has loaded the counter: on unbounded numbers it will find no room. */
  ghost predicate AtTheBrink(cfg: Config, ls: seq<Label>, s: State, p: nat, q: nat) {
    && Reached(cfg, ls, s) && RunLag(cfg, ls) && p < |s.ppc| && 0 < |s.cpc| && q < |cfg.script|
    && s.next == |s.owner| == HALF + cfg.n && s.ppc[p] == PCas(1, false, 1, cfg.n - 1, s.next) && s.sent[p] == 0
    && s.barrier[cfg.gate[0]] == HALF - 1
    && s.cpc[0].CRead? && s.pos[0] == |s.got[0]| == HALF && HALF < |cfg.script[q]| && s.owner[HALF] == (q, HALF)
  }

  lemma ToTheBrink(cfg: Config, p: nat, q: nat) returns (ls: seq<Label>, s: State)
    requires cfg.Valid() && p != q && p < |cfg.script| && q < |cfg.script| && |cfg.script[p]| > 0
    requires HALF + cfg.n <= |cfg.script[q]|
    ensures AtTheBrink(cfg, ls, s, p, q)
  {
    ls, s := FillUp(cfg, p, q, HALF);
    ReachedInv(cfg, ls, s);
    assert ConsOk(cfg, s.owner, s.sent, s.barrier, 0, s.pos[0], s.cpc[0]);
    ls, s := AboutToRead(cfg, ls, s, p, q);
    ConsumersReadTheLog(cfg, ls, s, 0);
    ls, s := LoadLate(cfg, ls, s, p);
  }

  lemma LoadLate(cfg: Config, ls: seq<Label>, s: State, p: nat) returns (all: seq<Label>, t: State)
    requires Reached(cfg, ls, s) && RunLag(cfg, ls) && p < |s.ppc| && s.ppc[p] == PLoad(1, false, cfg.n - 1)
    ensures Reached(cfg, all, t) && RunLag(cfg, all)
    ensures t == s.(ppc := s.ppc[p := PCas(1, false, 1, cfg.n - 1, s.next)])
  {
    var l := Producer(p, false);
    t := OneStep(cfg, ls, s, l);
    OneMoreLag(cfg, ls, s, l);
    all := ls + [l];
  }

  lemma WordsGrant(cfg: Config, ls: seq<Label>, s: State, p: nat, q: nat) returns (all: seq<Label>, w: State)
    requires AtTheBrink(cfg, ls, s, p, q) && Fits(cfg)
    ensures Run(Machine, cfg, all) == Some(w) && |w.cpc| == |s.cpc| && |w.got| == |s.got| && ls < all
    ensures w.owner == s.owner + [(p, 0)] && w.got == s.got && w.pos[0] == Wrap(HALF) && w.cpc[0].CRead?
    ensures p < |w.ppc| && w.ppc[p] == PWrite(Wrap(HALF + cfg.n), 1, 0) && w.sent[p] == 0
  {
    RunAgrees(cfg, ls);
    MachineGrants(cfg, s, p);
    var l := Producer(p, false);
    assert Wrapped(s).ppc[p] == WrapPc(s.ppc[p]);
    w := CasStep(Machine, cfg, Wrapped(s), p, false);
    MachineAppend(cfg, ls, l);
    all := ls + [l];
  }

  /** The words grant the claim and fill the slot of item 2^63. */
  lemma OverTheBrink(cfg: Config, ls: seq<Label>, s: State, p: nat, q: nat) returns (all: seq<Label>, w: State)
    requires AtTheBrink(cfg, ls, s, p, q) && Fits(cfg)
    ensures Run(Machine, cfg, all) == Some(w) && |w.cpc| == |s.cpc| && |w.got| == |s.got| && ls < all
    ensures w.owner == s.owner + [(p, 0)] && w.got == s.got && w.pos[0] == Wrap(HALF) && w.cpc[0].CRead?
    ensures |cfg.script[p]| > 0 && w.ring[Slot(cfg.n, HALF)] == cfg.script[p][0]
  {
    var l := Producer(p, false);
    var before, v := WordsGrant(cfg, ls, s, p, q);
    MachineOverwrites(cfg, v, p, HALF);
    w := WriteStep(Machine, cfg, v, p);
    MachineAppend(cfg, before, l);
    all := before + [l];
  }

  /** Where p's limit goes stale by 2^63, the words do not keep the queue's promise.  For
      every buffer size and consumer graph: if one producer has 2^63 + n items and another
      has one that differs, there is a run in which p's claim, refused on unbounded numbers
      because the buffer is full, is granted on words, and consumer 0 then reads something
      else than the log. */
  lemma StaleLimitBreaksTheLog(cfg: Config, p: nat, q: nat)
      returns (before: seq<Label>, s: State, ls: seq<Label>, w: State)
    requires cfg.Valid() && Fits(cfg) && p != q && p < |cfg.script| && q < |cfg.script| && |cfg.script[p]| > 0
    requires HALF + cfg.n <= |cfg.script[q]| && cfg.script[p][0] != cfg.script[q][HALF]
    ensures Reached(cfg, before, s) && Run(Machine, cfg, before) == Some(Wrapped(s)) && before < ls
    ensures !Under(cfg, s.barrier, s.next) && p < |s.ppc| && s.ppc[p].PCas? && Shape(cfg, Wrapped(s))
    ensures CasStep(Ideal, cfg, s, p, false).ppc[p].PIdle? && CasStep(Machine, cfg, Wrapped(s), p, false).ppc[p].PWrite?
    ensures Run(Machine, cfg, ls) == Some(w) && 0 < |w.got| && !(w.got[0] <= Log(cfg, w.owner))
  {
    before, s := ToTheBrink(cfg, p, q);
    RunAgrees(cfg, before);
    WrappedShape(cfg, s);
    MachineGrants(cfg, s, p);
    BrinkIsFull(cfg, before, s, p, q);
    var all, u := OverTheBrink(cfg, before, s, p, q);
    MachineReads(cfg, u, HALF);
    MachineAppend(cfg, all, Consumer(0));
    ls, w := all + [Consumer(0)], ConsumerStep(Machine, cfg, u, 0).value;
    assert w.got[0][HALF] == cfg.script[p][0];
    assert w.owner[HALF] == (q, HALF);
  }

  lemma BrinkIsFull(cfg: Config, ls: seq<Label>, s: State, p: nat, q: nat)
    requires AtTheBrink(cfg, ls, s, p, q)
    ensures !Under(cfg, s.barrier, s.next)
  {
    assert s.barrier[cfg.gate[0]] < s.next - cfg.n;
  }
}
