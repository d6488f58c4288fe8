/** What the invariant means for every run of the multi-producer protocol: any number of
    producers, any consumer graph, any interleaving. */
module Safety {
  import opened Sequences
  import opened Slots
  import opened Sums
  import opened Protocol
  import opened Invariant
  import opened Preservation

  /** s is the state after the labels ls. */
  ghost predicate Reached(cfg: Config, ls: seq<Label>, s: State) {
    cfg.Valid() && Run(Ideal, cfg, ls) == Some(s)
  }

  lemma ReachedInv(cfg: Config, ls: seq<Label>, s: State)
    requires Reached(cfg, ls, s)
    ensures Inv(cfg, s)
  {
    RunInv(cfg, ls);
  }

  // ------------------------------------------------------------------
  // One global log.
  // ------------------------------------------------------------------

  /** What every consumer has read is a prefix of the log of claimed items: nothing is
      lost, duplicated, reordered, stale or overwritten early. */
  lemma ConsumersReadTheLog(cfg: Config, ls: seq<Label>, s: State, c: nat)
    requires Reached(cfg, ls, s) && c < |s.got|
    ensures s.got[c] <= Log(cfg, s.owner)
    ensures s.pos[c] == |s.got[c]| && s.barrier[c] < s.pos[c]
    ensures forall x :: 0 <= x < s.pos[c] ==> Pub(s.owner, s.sent, x)
  {
    ReachedInv(cfg, ls, s);
    assert ReadOk(cfg, s.owner, s.pos[c], s.got[c]);
    assert ConsOk(cfg, s.owner, s.sent, s.barrier, c, s.pos[c], s.cpc[c]);
  }

  /** Entry x of the log is what the owner of claim x writes: when producer p stores
      item j of its script, the sequence it stores to is the one claimed for (p, j). */
  lemma WritesGoToTheirOwnSlot(cfg: Config, ls: seq<Label>, s: State, p: nat)
    requires Reached(cfg, ls, s) && p < |s.ppc| && s.ppc[p].PWrite?
    ensures var x, j := s.ppc[p].first + s.ppc[p].k, s.sent[p] + s.ppc[p].k;
            && 0 <= x < |s.owner| && s.owner[x] == (p, j) && j < |cfg.script[p]|
            && WriteStep(Ideal, cfg, s, p).ring == s.ring[Slot(cfg.n, x) := ItemOf(cfg, s.owner[x])]
  {
    ReachedInv(cfg, ls, s);
    OwnerOfWrite(cfg, s, p);
    WriteStepRing(cfg, s, p);
  }

  lemma WriteStepRing(cfg: Config, s: State, p: nat)
    requires Shape(cfg, s) && p < |s.ppc| && s.ppc[p].PWrite?
    ensures var x, j := s.ppc[p].first + s.ppc[p].k, s.sent[p] + s.ppc[p].k;
            j < |cfg.script[p]| && WriteStep(Ideal, cfg, s, p).ring == s.ring[Slot(cfg.n, x) := cfg.script[p][j]]
  {
  }

  lemma OwnerOfWrite(cfg: Config, s: State, p: nat)
    requires Inv(cfg, s) && p < |s.ppc| && s.ppc[p].PWrite?
    ensures var x, j := s.ppc[p].first + s.ppc[p].k, s.sent[p] + s.ppc[p].k;
            0 <= x < |s.owner| && s.owner[x] == (p, j) && j < |cfg.script[p]|
  {
  }

  /** t's log and readings extend those of s. */
  predicate Extends(s: State, t: State) {
    && s.owner <= t.owner && s.next <= t.next && |s.got| == |t.got|
    && forall c :: 0 <= c < |s.got| ==> s.got[c] <= t.got[c]
  }

  lemma StepGrows(cfg: Config, s: State, l: Label)
    requires Shape(cfg, s) && Step(Ideal, cfg, s, l).Some?
    ensures Extends(s, Step(Ideal, cfg, s, l).value)
  {
  }

  lemma ExtendsTransitive(s: State, t: State, u: State)
    requires Extends(s, t) && Extends(t, u)
    ensures Extends(s, u)
  {
  }

  lemma LastStepGrows(cfg: Config, ls: seq<Label>)
    requires cfg.Shape() && |ls| > 0 && Run(Ideal, cfg, ls).Some?
    ensures Run(Ideal, cfg, ls[..|ls| - 1]).Some?
    ensures Extends(Run(Ideal, cfg, ls[..|ls| - 1]).value, Run(Ideal, cfg, ls).value)
  {
    StepGrows(cfg, Run(Ideal, cfg, ls[..|ls| - 1]).value, ls[|ls| - 1]);
  }

  /** The log is append-only: whatever the first k steps of a run have logged or read
      stays, however the run goes on. */
  lemma {:induction false} LogOnlyGrows(cfg: Config, ls: seq<Label>, k: nat)
    requires cfg.Shape() && k <= |ls| && Run(Ideal, cfg, ls).Some?
    ensures Run(Ideal, cfg, ls[..k]).Some?
    ensures Extends(Run(Ideal, cfg, ls[..k]).value, Run(Ideal, cfg, ls).value)
  {
    if k == |ls| {
      assert ls[..k] == ls;
    } else {
      var before := ls[..|ls| - 1];
      LastStepGrows(cfg, ls);
      LogOnlyGrows(cfg, before, k);
      assert before[..k] == ls[..k];
      ExtendsTransitive(Run(Ideal, cfg, before[..k]).value, Run(Ideal, cfg, before).value, Run(Ideal, cfg, ls).value);
    }
  }

  // ------------------------------------------------------------------
  // The published array.
  // ------------------------------------------------------------------

  /** The assertion in `set_published` never fails. */
  lemma SetPublishedNeverFails(cfg: Config, ls: seq<Label>, s: State, p: nat)
    requires Reached(cfg, ls, s) && p < |s.ppc|
    ensures SetPublishedAssertion(Ideal, cfg, s, p)
  {
    ReachedInv(cfg, ls, s);
    if s.ppc[p].PPublish? && s.ppc[p].k < s.ppc[p].count {
      GrantedSlot(cfg, s, p, s.ppc[p].first + s.ppc[p].k);
    }
  }

  /** n words stand for the unbounded set of published sequences: each word is the
      greatest published sequence of its slot. */
  lemma WordIsGreatestPublished(cfg: Config, ls: seq<Label>, s: State, i: int)
    requires Reached(cfg, ls, s) && 0 <= i < cfg.n
    ensures Slot(cfg.n, s.pub[i]) == i && Pub(s.owner, s.sent, s.pub[i])
    ensures forall x :: Slot(cfg.n, x) == i && Pub(s.owner, s.sent, x) ==> x <= s.pub[i]
  {
    ReachedInv(cfg, ls, s);
    assert SlotOk(cfg.n, s.owner, s.sent, i, s.pub[i]);
    forall x | Slot(cfg.n, x) == i && Pub(s.owner, s.sent, x)
      ensures x <= s.pub[i]
    {
      if x < 0 && s.pub[i] < x {
        SameSlot(cfg.n, s.pub[i], x);
      }
    }
  }

  /** For a sequence some consumer has not released, the equality test of `is_published`
      and the order test of the wait strategies both decide membership. */
  lemma TestsDecideMembership(cfg: Config, ls: seq<Label>, s: State, c: nat, x: int)
    requires Reached(cfg, ls, s) && c < |s.barrier| && s.barrier[c] < x
    ensures s.pub[Slot(cfg.n, x)] == x <==> Pub(s.owner, s.sent, x)
    ensures s.pub[Slot(cfg.n, x)] >= x <==> Pub(s.owner, s.sent, x)
  {
    ReachedInv(cfg, ls, s);
    WordTells(cfg, s, c, x);
  }

  lemma WordTells(cfg: Config, s: State, c: nat, x: int)
    requires Inv(cfg, s) && c < |s.barrier| && s.barrier[c] < x
    ensures s.pub[Slot(cfg.n, x)] == x <==> Pub(s.owner, s.sent, x)
    ensures s.pub[Slot(cfg.n, x)] >= x <==> Pub(s.owner, s.sent, x)
  {
    var q := s.pub[Slot(cfg.n, x)];
    assert SlotOk(cfg.n, s.owner, s.sent, Slot(cfg.n, x), q);
    assert ConsOk(cfg, s.owner, s.sent, s.barrier, c, s.pos[c], s.cpc[c]);
    UnderMeansAll(cfg, s, q, c);
    if q > x {
      SameSlot(cfg.n, x, q);
    }
  }

  /** What a consumer has been told is available (by `last_published_after`, so far, or
      by its barriers) never exceeds its own barrier by more than n, and every item of it
      is published and intact in the ring until that consumer releases it. */
  lemma BatchStaysIntact(cfg: Config, ls: seq<Label>, s: State, c: nat, x: int)
    requires Reached(cfg, ls, s) && c < |s.cpc| && s.barrier[c] < x
    requires (s.cpc[c].CExtend? && x <= s.cpc[c].last) || (s.cpc[c].CRead? && x <= s.cpc[c].available)
    ensures x <= s.barrier[c] + cfg.n
    ensures Pub(s.owner, s.sent, x) && Holds(cfg, s.owner, s.ring, x)
  {
    ReachedInv(cfg, ls, s);
    assert ConsOk(cfg, s.owner, s.sent, s.barrier, c, s.pos[c], s.cpc[c]);
    assert Pub(s.owner, s.sent, x);
    PublishedIsNear(cfg, s, x, c);
    assert Holds(cfg, s.owner, s.ring, x);
  }

  // ------------------------------------------------------------------
  // Exclusive slots and gating.
  // ------------------------------------------------------------------

  /** The claim a producer may write to. */
  predicate MayWrite(s: State, p: nat, x: int) {
    p < |s.ppc| && Granted(s.ppc[p]) && Lo(s.ppc[p]) <= x < Hi(s.ppc[p])
  }

  /** An item consumer c may still read. */
  predicate MayRead(s: State, c: nat, x: int) {
    c < |s.barrier| && s.barrier[c] < x && 0 <= x && Pub(s.owner, s.sent, x)
  }

  /** No two granted, unpublished sequences share a slot, and none shares a slot with an
      item that any consumer may still read. */
  lemma SlotsAreExclusive(cfg: Config, ls: seq<Label>, s: State)
    requires Reached(cfg, ls, s)
    ensures forall p, x, p', x' :: MayWrite(s, p, x) && MayWrite(s, p', x') && x != x' ==>
              Slot(cfg.n, x) != Slot(cfg.n, x')
    ensures forall p, x, c, y :: MayWrite(s, p, x) && MayRead(s, c, y) ==> Slot(cfg.n, x) != Slot(cfg.n, y)
  {
    ReachedInv(cfg, ls, s);
    forall p, x, p', x' | MayWrite(s, p, x) && MayWrite(s, p', x') && x != x'
      ensures Slot(cfg.n, x) != Slot(cfg.n, x')
    {
      if Slot(cfg.n, x) == Slot(cfg.n, x') { GrantedSlotsDistinct(cfg, s, p, x, p', x'); }
    }
    forall p, x, c, y | MayWrite(s, p, x) && MayRead(s, c, y)
      ensures Slot(cfg.n, x) != Slot(cfg.n, y)
    {
      if Slot(cfg.n, x) == Slot(cfg.n, y) { GrantedSlotReleased(cfg, s, p, x, y, c); }
    }
  }

  /** Only the last stages need to be in the claim group: no claim that may be written,
      and no published item, is more than n ahead of any consumer, gating or not. */
  lemma GatingIsTransitive(cfg: Config, ls: seq<Label>, s: State, c: nat, p: nat, x: int)
    requires Reached(cfg, ls, s) && c < |s.barrier|
    requires MayWrite(s, p, x) || (0 <= x && Pub(s.owner, s.sent, x))
    ensures x - cfg.n <= s.barrier[c]
    ensures exists i :: 0 <= i < |cfg.gate| && s.barrier[cfg.gate[i]] <= s.barrier[c]
  {
    ReachedInv(cfg, ls, s);
    var i := SomeGateBehind(cfg, s, c);
    if MayWrite(s, p, x) {
      UnderMeansAll(cfg, s, Hi(s.ppc[p]) - 1, c);
    } else {
      PublishedIsNear(cfg, s, x, c);
    }
  }

  /** A stage never overtakes the stages it waits for, nor reads what they have not
      finished with. */
  lemma StagesKeepOrder(cfg: Config, ls: seq<Label>, s: State, c: nat, d: nat)
    requires Reached(cfg, ls, s) && c < |cfg.deps| && d in cfg.deps[c]
    ensures s.barrier[c] < s.pos[c] <= s.barrier[d] + 1
    ensures s.got[c] <= s.got[d]
  {
    ReachedInv(cfg, ls, s);
    assert ConsOk(cfg, s.owner, s.sent, s.barrier, c, s.pos[c], s.cpc[c]);
    assert ConsOk(cfg, s.owner, s.sent, s.barrier, d, s.pos[d], s.cpc[d]);
    var j :| 0 <= j < |cfg.deps[c]| && cfg.deps[c][j] == d;
    assert s.pos[c] <= s.pos[d];
    assert ReadOk(cfg, s.owner, s.pos[c], s.got[c]) && ReadOk(cfg, s.owner, s.pos[d], s.got[d]);
  }

  // ------------------------------------------------------------------
  // Claims.
  // ------------------------------------------------------------------

  /** The compare-exchange that wins takes exactly min(original count, room), between 1
      and n sequences, ending at or before the limit it computed; the count carried across
      its retries changes nothing. */
  lemma WinningCasTakesTheRoom(cfg: Config, ls: seq<Label>, s: State, p: nat)
    requires Reached(cfg, ls, s) && p < |s.ppc| && s.ppc[p].PCas?
    requires s.ppc[p].limit >= s.ppc[p].seen == s.next
    ensures var t, pc := CasStep(Ideal, cfg, s, p, false), s.ppc[p];
            && t.ppc[p] == PWrite(s.next, t.next - s.next, 0)
            && t.next - s.next == Min(pc.want, pc.limit - s.next + 1)
            && 1 <= t.next - s.next <= cfg.n && t.next - 1 <= pc.limit
            && Under(cfg, s.barrier, t.next - 1)
  {
    ReachedInv(cfg, ls, s);
    assert PcOk(cfg, p, s.sent[p], s.ppc[p]) && ScanOk(cfg, s.next, s.barrier, s.ppc[p]);
    TakeFits(cfg, s, s.ppc[p].limit);
  }

  /** `claim` takes min(count, n) sequences from the end of the log at once, for the
      producer's next items, and the range it waits for is the one it took. */
  lemma FetchAddTakesTheEnd(cfg: Config, ls: seq<Label>, s: State, p: nat, count: nat)
    requires Reached(cfg, ls, s) && Step(Ideal, cfg, s, Claim(p, count)).Some?
    ensures var t, taken := Step(Ideal, cfg, s, Claim(p, count)).value, Min(count, cfg.n);
            && 1 <= taken && t.next == s.next + taken && |t.owner| == t.next && s.owner <= t.owner
            && Lo(t.ppc[p]) == s.next && Hi(t.ppc[p]) == t.next
            && forall x :: s.next <= x < t.next ==> t.owner[x].0 == p && t.owner[x].1 == s.sent[p] + x - s.next
  {
    ReachedInv(cfg, ls, s);
  }

  /** Every sequence below the claim counter belongs to exactly one claim: it is
      published, or held by exactly its owner. */
  lemma ClaimsPartition(cfg: Config, ls: seq<Label>, s: State, x: int)
    requires Reached(cfg, ls, s) && 0 <= x < s.next
    ensures |s.owner| == s.next && s.owner[x].0 < |s.ppc|
    ensures forall p: nat :: p < |s.ppc| ==>
              (Lo(s.ppc[p]) <= x < Hi(s.ppc[p]) <==> p == s.owner[x].0 && !Pub(s.owner, s.sent, x))
  {
    ReachedInv(cfg, ls, s);
    assert OwnerOk(cfg, s.sent, s.ppc, x, s.owner[x]);
    forall p: nat | p < |s.ppc| && Lo(s.ppc[p]) <= x < Hi(s.ppc[p])
      ensures p == s.owner[x].0 && !Pub(s.owner, s.sent, x)
    {
      assert ClaimOk(s.owner, s.sent[p], p, s.ppc[p]);
      HeldIsUnpublished(cfg, s, p, x);
    }
  }

  // ------------------------------------------------------------------
  // The counting bound.
  // ------------------------------------------------------------------

  function Range(lo: int, hi: int): (r: set<int>)
    ensures forall x :: x in r <==> lo <= x < hi
    decreases hi - lo
  {
    if hi <= lo then {} else Range(lo, hi - 1) + {hi - 1}
  }

  lemma {:induction false} RangeSize(lo: int, hi: int)
    requires lo <= hi
    ensures |Range(lo, hi)| == hi - lo
    decreases hi - lo
  {
    if lo < hi {
      RangeSize(lo, hi - 1);
    }
  }

  function Held(ppc: seq<ProducerPc>, k: nat): set<int>
    requires k <= |ppc|
  {
    if k == 0 then {} else Held(ppc, k - 1) + Range(Lo(ppc[k - 1]), Hi(ppc[k - 1]))
  }

  lemma ClaimIsSmall(cfg: Config, s: State, p: nat)
    requires Inv(cfg, s) && p < |s.ppc|
    ensures 0 <= Hi(s.ppc[p]) - Lo(s.ppc[p]) <= cfg.n
  {
  }

  lemma HeldGrows(n: int, ppc: seq<ProducerPc>, k: nat)
    requires 0 < k <= |ppc| && 0 <= Hi(ppc[k - 1]) - Lo(ppc[k - 1]) <= n
    ensures |Held(ppc, k)| <= |Held(ppc, k - 1)| + n
  {
    RangeSize(Lo(ppc[k - 1]), Hi(ppc[k - 1]));
    UnionSize(Held(ppc, k - 1), Range(Lo(ppc[k - 1]), Hi(ppc[k - 1])));
  }

  lemma {:induction false} HeldSize(n: int, ppc: seq<ProducerPc>, k: nat)
    requires k <= |ppc| && forall p :: 0 <= p < |ppc| ==> 0 <= Hi(ppc[p]) - Lo(ppc[p]) <= n
    ensures |Held(ppc, k)| <= Sum(seq(k, _ => n))
  {
    if k > 0 {
      HeldSize(n, ppc, k - 1);
      HeldGrows(n, ppc, k);
      assert seq(k, _ => n)[..k - 1] == seq(k - 1, _ => n);
    }
  }

  lemma UnionSize(a: set<int>, b: set<int>)
    ensures |a + b| <= |a| + |b|
  {
  }

  lemma MulSuccessor(k: int, n: int)
    ensures (k + 1) * n == k * n + n
  {
  }

  lemma {:induction false} HeldHas(ppc: seq<ProducerPc>, k: nat, p: nat, x: int)
    requires p < k <= |ppc| && Lo(ppc[p]) <= x < Hi(ppc[p])
    ensures x in Held(ppc, k)
  {
    if p < k - 1 {
      HeldHas(ppc, k - 1, p, x);
    }
  }

  /** With one outstanding claim per producer, the claim counter is at most (P+1)*n ahead
      of every consumer. */
  lemma CountingBound(cfg: Config, ls: seq<Label>, s: State, c: nat)
    requires Reached(cfg, ls, s) && c < |s.barrier|
    ensures s.next - 1 - s.barrier[c] <= (|cfg.script| + 1) * cfg.n
  {
    ReachedInv(cfg, ls, s);
    InvCounting(cfg, s, c);
  }

  lemma InvCounting(cfg: Config, s: State, c: nat)
    requires Inv(cfg, s) && c < |s.barrier|
    ensures s.next - 1 - s.barrier[c] <= (|cfg.script| + 1) * cfg.n
  {
    var first := s.barrier[c] + cfg.n + 1;
    assert ConsOk(cfg, s.owner, s.sent, s.barrier, c, s.pos[c], s.cpc[c]);
    var P := |cfg.script|;
    assert (P + 1) * cfg.n == P * cfg.n + cfg.n;
    forall p: nat | p < |s.ppc| { ClaimIsSmall(cfg, s, p); }
    HeldSize(cfg.n, s.ppc, P);
    SumConstant(seq(P, _ => cfg.n), cfg.n);
    if first < s.next {
      forall x | x in Range(first, s.next)
        ensures x in Held(s.ppc, P)
      {
        assert OwnerOk(cfg, s.sent, s.ppc, x, s.owner[x]);
        if Pub(s.owner, s.sent, x) { PublishedIsNear(cfg, s, x, c); }
        HeldHas(s.ppc, P, s.owner[x].0, x);
      }
      SubsetSize(Range(first, s.next), Held(s.ppc, P));
      RangeSize(first, s.next);
    }
  }

  lemma SubsetSize(a: set<int>, b: set<int>)
    requires a <= b
    ensures |a| <= |b|
  {
    assert b == a + (b - a);
  }

  /** A sequence number that a shared variable holds, or that a producer compares or stores
      for the claim it holds, or a consumer for what it has found published. */
  predicate Live(cfg: Config, s: State, x: int) {
    || x == s.next || x in s.pub || x in s.barrier || x in s.pos
    || (exists p :: 0 <= p < |s.ppc| && ClaimWord(cfg, s.ppc[p], x))
    || (exists c :: 0 <= c < |s.cpc| && BatchWord(s.cpc[c], x))
  }

  predicate ClaimWord(cfg: Config, pc: ProducerPc, x: int) {
    Lo(pc) <= x < Hi(pc) || (pc.PWait? && x == Hi(pc) - 1 - cfg.n)
  }

  predicate BatchWord(pc: ConsumerPc, x: int) {
    match pc
    case CCheck(_, sq) => x == sq
    case CSpin(_, sq) => x == sq
    case CExtend(last) => x == last || x == last + 1
    case CRead(available) => x == available
    case CRelease(available) => x == available
    case _ => false
  }

  /** A sequence number that a consumer waits for. */
  predicate Target(s: State, x: int) {
    exists c :: 0 <= c < |s.cpc| && (s.cpc[c].CCheck? || s.cpc[c].CSpin? || s.cpc[c].CWait?) && s.cpc[c].target == x
  }

  /** So all live sequence numbers lie within (P+2)*n of each other, and those that consumers
      wait for, fewer than n items ahead, within (P+3)*n of them. */
  lemma LiveWordsAreClose(cfg: Config, ls: seq<Label>, s: State, x: int, y: int)
    requires Reached(cfg, ls, s) && (Live(cfg, s, x) || Target(s, x)) && (Live(cfg, s, y) || Target(s, y))
    ensures x - y <= (|cfg.script| + if Live(cfg, s, x) then 2 else 3) * cfg.n
  {
    ReachedInv(cfg, ls, s);
    MulSuccessor(|cfg.script| + 2, cfg.n);
    if Live(cfg, s, x) { LiveAtMostNext(cfg, s, x); } else { TargetIsNear(cfg, s, x); }
    if Live(cfg, s, y) { LiveAtLeast(cfg, s, y); } else { TargetIsNear(cfg, s, y); }
  }

  lemma TargetIsNear(cfg: Config, s: State, x: int)
    requires Inv(cfg, s) && Target(s, x)
    ensures x < s.next + cfg.n && s.next - x <= (|cfg.script| + 2) * cfg.n
  {
    var c :| 0 <= c < |s.cpc| && (s.cpc[c].CCheck? || s.cpc[c].CSpin? || s.cpc[c].CWait?) && s.cpc[c].target == x;
    assert ConsOk(cfg, s.owner, s.sent, s.barrier, c, s.pos[c], s.cpc[c]);
    assert Pub(s.owner, s.sent, s.pos[c] - 1);
    InvCounting(cfg, s, c);
    MulSuccessor(|cfg.script| + 1, cfg.n);
  }

  lemma LiveAtLeast(cfg: Config, s: State, y: int)
    requires Inv(cfg, s) && Live(cfg, s, y)
    ensures s.next - y <= (|cfg.script| + 2) * cfg.n
  {
    MulSuccessor(|cfg.script| + 1, cfg.n);
    WindowNonNegative(|cfg.script| + 2, cfg.n);
    if y in s.pub {
      var i :| 0 <= i < cfg.n && s.pub[i] == y;
      var g := cfg.gate[0];
      InvCounting(cfg, s, g);
      PubNotFarBehind(cfg, s, i, g);
    } else if y in s.barrier || y in s.pos {
      var c: nat :| c < |s.barrier| && (y == s.barrier[c] || y == s.pos[c]);
      PosAfterBarrier(cfg, s, c);
      InvCounting(cfg, s, c);
    } else if p: nat :| p < |s.ppc| && ClaimWord(cfg, s.ppc[p], y) {
      HeldIsAhead(cfg, s, p, cfg.gate[0]);
      InvCounting(cfg, s, cfg.gate[0]);
    } else if c: nat :| c < |s.cpc| && BatchWord(s.cpc[c], y) {
      assert ConsOk(cfg, s.owner, s.sent, s.barrier, c, s.pos[c], s.cpc[c]);
      InvCounting(cfg, s, c);
    }
  }

  /** No consumer has released what a producer still holds. */
  lemma HeldIsAhead(cfg: Config, s: State, p: nat, c: nat)
    requires Inv(cfg, s) && p < |s.ppc| && Lo(s.ppc[p]) < Hi(s.ppc[p]) && c < |s.barrier|
    ensures s.barrier[c] < Lo(s.ppc[p])
  {
    HeldIsUnpublished(cfg, s, p, Lo(s.ppc[p]));
    assert ConsOk(cfg, s.owner, s.sent, s.barrier, c, s.pos[c], s.cpc[c]);
  }

  lemma WindowNonNegative(a: int, n: int)
    requires a >= 0 && n >= 0
    ensures a * n >= 0
  {
  }

  lemma PosAfterBarrier(cfg: Config, s: State, c: nat)
    requires Inv(cfg, s) && c < |s.barrier|
    ensures s.barrier[c] < s.pos[c]
  {
  }

  lemma LiveAtMostNext(cfg: Config, s: State, x: int)
    requires Inv(cfg, s) && Live(cfg, s, x)
    ensures x <= s.next
  {
    if x in s.pub {
      var i :| 0 <= i < cfg.n && s.pub[i] == x;
      assert SlotOk(cfg.n, s.owner, s.sent, i, x);
    } else if x in s.barrier || x in s.pos {
      var c: nat :| c < |s.barrier| && (x == s.barrier[c] || x == s.pos[c]);
      assert ConsOk(cfg, s.owner, s.sent, s.barrier, c, s.pos[c], s.cpc[c]);
      assert Pub(s.owner, s.sent, s.pos[c] - 1);
    } else if c: nat :| c < |s.cpc| && BatchWord(s.cpc[c], x) {
      BatchAtMostNext(cfg, s, c, x);
    }
  }

  lemma BatchAtMostNext(cfg: Config, s: State, c: nat, x: int)
    requires Inv(cfg, s) && c < |s.cpc| && BatchWord(s.cpc[c], x)
    ensures x <= s.next
  {
    assert ConsOk(cfg, s.owner, s.sent, s.barrier, c, s.pos[c], s.cpc[c]);
    assert Pub(s.owner, s.sent, s.pos[c] - 1);
    match s.cpc[c]
    case CExtend(last) => assert Pub(s.owner, s.sent, last);
    case CRead(available) => assert Pub(s.owner, s.sent, available);
    case CCheck(_, sq) => assert Pub(s.owner, s.sent, sq - 1);
    case CSpin(_, sq) => assert Pub(s.owner, s.sent, sq - 1);
    case _ =>
  }

  /** No word of the published array lags a lap behind any consumer. */
  lemma PubNotFarBehind(cfg: Config, s: State, i: int, c: nat)
    requires Inv(cfg, s) && 0 <= i < cfg.n && c < |s.barrier|
    ensures s.pub[i] > s.barrier[c] - cfg.n
  {
    var n, q := cfg.n, s.pub[i];
    assert SlotOk(n, s.owner, s.sent, i, q);
    assert ConsOk(cfg, s.owner, s.sent, s.barrier, c, s.pos[c], s.cpc[c]);
    if q <= s.barrier[c] - n {
      SlotPeriod(n, q + n);
    }
  }
}
