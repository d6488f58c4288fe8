/** Conservation and per-producer order: the log holds each producer's items exactly once
    and in its program order, and a completed run has delivered them all. */
module Conservation {
  import opened Sequences
  import opened Sums
  import opened Protocol
  import opened Invariant
  import opened Preservation
  import opened Safety

  /** The indices of p's items, in log order. */
  function ItemsOf(owner: seq<(nat, nat)>, p: nat): seq<nat> {
    if owner == [] then []
    else
      var k := |owner| - 1;
      ItemsOf(owner[..k], p) + if owner[k].0 == p then [owner[k].1] else []
  }

  /** p's entries of the log. */
  function ProducerLog(cfg: Config, owner: seq<(nat, nat)>, p: nat): seq<int> {
    if owner == [] then []
    else
      var k := |owner| - 1;
      ProducerLog(cfg, owner[..k], p) + if owner[k].0 == p then [ItemOf(cfg, owner[k])] else []
  }

  function From(start: nat, count: nat): (r: seq<nat>)
    ensures |r| == count && forall i :: 0 <= i < count ==> r[i] == start + i
  {
    seq(count, i requires 0 <= i < count => start + i)
  }

  lemma {:induction false} ItemsOfBlock(owner: seq<(nat, nat)>, p: nat, start: nat, count: nat, q: nat)
    ensures ItemsOf(owner + Block(p, start, count), q) == ItemsOf(owner, q) + if p == q then From(start, count) else []
  {
    if count == 0 {
      assert owner + Block(p, start, 0) == owner;
    } else {
      ItemsOfBlock(owner, p, start, count - 1, q);
      var all := owner + Block(p, start, count);
      assert all[..|all| - 1] == owner + Block(p, start, count - 1);
      assert From(start, count) == From(start, count - 1) + [start + count - 1];
    }
  }

  ghost predicate OrderInv(cfg: Config, s: State)
    requires |s.sent| == |s.ppc|
  {
    forall p: nat :: p < |s.ppc| ==>
      Claimed(s.sent, s.ppc)[p] >= 0 && ItemsOf(s.owner, p) == From(0, Claimed(s.sent, s.ppc)[p])
  }

  /** From s to t, producer p has claimed count more items; with count 0, nobody has. */
  ghost predicate ClaimsBlock(s: State, t: State, p: nat, count: nat)
    requires |s.sent| == |s.ppc| && |t.sent| == |t.ppc|
  {
    if count == 0 then t.owner == s.owner && Claimed(t.sent, t.ppc) == Claimed(s.sent, s.ppc)
    else (
      && p < |s.ppc| && Claimed(s.sent, s.ppc)[p] == s.sent[p]
      && t.owner == s.owner + Block(p, s.sent[p], count)
      && Claimed(t.sent, t.ppc) == Claimed(s.sent, s.ppc)[p := s.sent[p] + count])
  }

  lemma AdvanceClaims(cfg: Config, s: State, p: nat, count: nat, pc: ProducerPc)
    requires Shape(cfg, s) && p < |s.ppc| && PcOk(cfg, p, s.sent[p], pc) && count > 0
    requires Lo(s.ppc[p]) == Hi(s.ppc[p]) && Hi(pc) - Lo(pc) == count
    ensures ClaimsBlock(s, Advance(Ideal, cfg, s, p, count, pc), p, count)
  {
  }

  lemma SetPcClaims(cfg: Config, s: State, p: nat, pc: ProducerPc)
    requires Shape(cfg, s) && p < |s.ppc| && PcOk(cfg, p, s.sent[p], pc)
    requires Hi(s.ppc[p]) - Lo(s.ppc[p]) == Hi(pc) - Lo(pc)
    ensures ClaimsBlock(s, SetPc(cfg, s, p, pc), p, 0)
  {
  }

  lemma CasClaims(cfg: Config, s: State, p: nat, flag: bool) returns (count: nat)
    requires Inv(cfg, s) && p < |s.ppc| && s.ppc[p].PCas?
    ensures ClaimsBlock(s, CasStep(Ideal, cfg, s, p, flag), p, count)
  {
    var PCas(_, _, count', limit, seen) := s.ppc[p];
    assert PcOk(cfg, p, s.sent[p], s.ppc[p]);
    var t := CasStep(Ideal, cfg, s, p, flag);
    if limit >= seen == s.next && !flag {
      count := Take(count', limit - seen);
      assert t == Advance(Ideal, cfg, s, p, count, PWrite(seen, count, 0));
      AdvanceClaims(cfg, s, p, count, PWrite(seen, count, 0));
    } else {
      count := 0;
      assert t == SetPc(cfg, s, p, t.ppc[p]);
      SetPcClaims(cfg, s, p, t.ppc[p]);
    }
  }

  lemma PublishClaims(cfg: Config, s: State, p: nat)
    requires Inv(cfg, s) && p < |s.ppc| && s.ppc[p].PPublish?
    ensures ClaimsBlock(s, PublishStep(Ideal, cfg, s, p), p, 0)
  {
    PublishStepIs(cfg, s, p);
    var PPublish(first, count, k) := s.ppc[p];
    assert PcOk(cfg, p, s.sent[p], s.ppc[p]);
    if k < count {
      SameClaimed(s.sent, s.ppc, p, s.sent[p] + 1, PPublish(first, count, k + 1));
    } else {
      SameClaimed(s.sent, s.ppc, p, s.sent[p], PIdle);
      assert s.sent[p := s.sent[p]] == s.sent;
    }
  }

  lemma SameClaimed(sent: seq<nat>, ppc: seq<ProducerPc>, p: nat, k: nat, pc: ProducerPc)
    requires |sent| == |ppc| && p < |ppc| && sent[p] + Hi(ppc[p]) - Lo(ppc[p]) == k + Hi(pc) - Lo(pc)
    ensures Claimed(sent[p := k], ppc[p := pc]) == Claimed(sent, ppc)
  {
  }

  lemma WriteClaims(cfg: Config, s: State, p: nat)
    requires Inv(cfg, s) && p < |s.ppc| && s.ppc[p].PWrite?
    ensures ClaimsBlock(s, WriteStep(Ideal, cfg, s, p), p, 0)
  {
    var t := WriteStep(Ideal, cfg, s, p);
    assert PcOk(cfg, p, s.sent[p], s.ppc[p]);
    assert t.owner == s.owner && t.sent == s.sent && t.ppc == s.ppc[p := t.ppc[p]];
    assert s.sent[p := s.sent[p]] == s.sent;
    SameClaimed(s.sent, s.ppc, p, s.sent[p], t.ppc[p]);
  }

  lemma OtherProducerClaims(cfg: Config, s: State, p: nat, flag: bool)
    requires Inv(cfg, s) && p < |s.ppc| && !s.ppc[p].PCas? && ProducerStep(Ideal, cfg, s, p, flag).Some?
    ensures ClaimsBlock(s, ProducerStep(Ideal, cfg, s, p, flag).value, p, 0)
  {
    var pc := s.ppc[p];
    assert PcOk(cfg, p, s.sent[p], pc);
    match pc
    case PWait(_, _, _, _) => SetPcClaims(cfg, s, p, AfterWait(Ideal, cfg, s, pc));
    case PScan(_, _, _, _) => SetPcClaims(cfg, s, p, AfterScan(Ideal, cfg, s, pc));
    case PLoad(want, timed, limit) => SetPcClaims(cfg, s, p, PCas(want, timed, want, limit, s.next));
    case PTimedWait(_, _, _, _) => SetPcClaims(cfg, s, p, AfterTimedWait(Ideal, cfg, s, pc, flag));
    case PWrite(_, _, _) => WriteClaims(cfg, s, p);
    case PPublish(_, _, _) => PublishClaims(cfg, s, p);
  }

  /** A step claims a block for one producer, or changes nobody's claims. */
  lemma StepClaims(cfg: Config, s: State, l: Label) returns (p: nat, count: nat)
    requires Inv(cfg, s) && Step(Ideal, cfg, s, l).Some?
    ensures ClaimsBlock(s, Step(Ideal, cfg, s, l).value, p, count)
  {
    p, count := 0, 0;
    match l
    case Claim(q, n) =>
      p, count := q, Min(n, cfg.n);
      AdvanceClaims(cfg, s, p, count, PWait(s.next, count, 0, 0));
    case Try(q, n, timed) => SetPcClaims(cfg, s, q, PScan(n, timed, 0, 0));
    case Producer(q, flag) =>
      p := q;
      if s.ppc[q].PCas? {
        count := CasClaims(cfg, s, q, flag);
      } else {
        OtherProducerClaims(cfg, s, q, flag);
      }
    case Wait(c, ahead) =>
    case Consumer(c) =>
  }

  lemma OrderStep(cfg: Config, s: State, l: Label)
    requires Inv(cfg, s) && OrderInv(cfg, s) && Step(Ideal, cfg, s, l).Some?
    ensures OrderInv(cfg, Step(Ideal, cfg, s, l).value)
  {
    var t := Step(Ideal, cfg, s, l).value;
    var p, count := StepClaims(cfg, s, l);
    if count > 0 {
      BlockKeepsOrder(s.owner, p, s.sent[p], count, Claimed(s.sent, s.ppc));
    }
  }

  lemma BlockKeepsOrder(owner: seq<(nat, nat)>, p: nat, start: nat, count: nat, claimed: seq<int>)
    requires p < |claimed| && claimed[p] == start
    requires forall q: nat :: q < |claimed| ==> claimed[q] >= 0 && ItemsOf(owner, q) == From(0, claimed[q])
    ensures forall q: nat :: q < |claimed| ==>
              ItemsOf(owner + Block(p, start, count), q) == From(0, claimed[p := start + count][q])
  {
    forall q: nat | q < |claimed|
      ensures ItemsOf(owner + Block(p, start, count), q) == From(0, claimed[p := start + count][q])
    {
      ItemsOfBlock(owner, p, start, count, q);
      assert From(0, start) + From(start, count) == From(0, start + count);
    }
  }

  lemma {:induction false} RunOrder(cfg: Config, ls: seq<Label>, s: State)
    requires Reached(cfg, ls, s)
    ensures OrderInv(cfg, s)
  {
    if ls == [] {
      assert forall p: nat :: p < |s.ppc| ==> ItemsOf(s.owner, p) == From(0, 0);
    } else {
      var before := Run(Ideal, cfg, ls[..|ls| - 1]).value;
      RunOrder(cfg, ls[..|ls| - 1], before);
      ReachedInv(cfg, ls[..|ls| - 1], before);
      OrderStep(cfg, before, ls[|ls| - 1]);
    }
  }

  /** p's log entries are the items that ItemsOf lists. */
  lemma {:induction false} ProducerLogIsItems(cfg: Config, owner: seq<(nat, nat)>, p: nat)
    ensures |ProducerLog(cfg, owner, p)| == |ItemsOf(owner, p)|
    ensures forall i :: 0 <= i < |ItemsOf(owner, p)| ==>
              ProducerLog(cfg, owner, p)[i] == ItemOf(cfg, (p, ItemsOf(owner, p)[i]))
  {
    if owner != [] {
      ProducerLogIsItems(cfg, owner[..|owner| - 1], p);
    }
  }

  /** In every state, the log restricted to producer p is what p has claimed of its
      script, in program order: no item twice, none skipped. */
  lemma ProducersKeepTheirOrder(cfg: Config, ls: seq<Label>, s: State, p: nat)
    requires Reached(cfg, ls, s) && p < |s.ppc|
    ensures 0 <= Claimed(s.sent, s.ppc)[p] <= |cfg.script[p]|
    ensures ProducerLog(cfg, s.owner, p) == cfg.script[p][..Claimed(s.sent, s.ppc)[p]]
  {
    ReachedInv(cfg, ls, s);
    RunOrder(cfg, ls, s);
    assert PcOk(cfg, p, s.sent[p], s.ppc[p]);
    ProducerLogIsItems(cfg, s.owner, p);
    var k := Claimed(s.sent, s.ppc)[p];
    assert ItemsOf(s.owner, p) == From(0, k);
  }

  /** When all threads are done every consumer has read the whole log, and the log is an
      interleaving of the whole scripts. */
  lemma CompletedRunDeliversAll(cfg: Config, ls: seq<Label>, s: State)
    requires Reached(cfg, ls, s) && Finished(cfg, s)
    ensures s.next == cfg.Total()
    ensures forall c :: 0 <= c < |s.got| ==> s.got[c] == Log(cfg, s.owner)
    ensures forall p: nat :: p < |cfg.script| ==> ProducerLog(cfg, s.owner, p) == cfg.script[p]
  {
    ReachedInv(cfg, ls, s);
    var lens := seq(|cfg.script|, p requires 0 <= p < |cfg.script| => |cfg.script[p]|);
    assert Claimed(s.sent, s.ppc) == lens;
    forall c: nat | c < |s.got|
      ensures s.got[c] == Log(cfg, s.owner)
    {
      ConsumersReadTheLog(cfg, ls, s, c);
    }
    forall p: nat | p < |cfg.script|
      ensures ProducerLog(cfg, s.owner, p) == cfg.script[p]
    {
      ProducersKeepTheirOrder(cfg, ls, s, p);
    }
  }

  // ------------------------------------------------------------------
  // The sum the benchmarks check.
  // ------------------------------------------------------------------

  function SumsByProducer(cfg: Config, owner: seq<(nat, nat)>): seq<int> {
    seq(|cfg.script|, p requires 0 <= p < |cfg.script| => Sum(ProducerLog(cfg, owner, p)))
  }

  /** Summing the log is summing it producer by producer. */
  lemma {:induction false} LogSumSplits(cfg: Config, owner: seq<(nat, nat)>)
    requires forall x :: 0 <= x < |owner| ==> owner[x].0 < |cfg.script|
    ensures Sum(Log(cfg, owner)) == Sum(SumsByProducer(cfg, owner))
  {
    if owner == [] {
      SumZeros(SumsByProducer(cfg, owner));
    } else {
      var k := |owner| - 1;
      var p := owner[k].0;
      LogSumSplits(cfg, owner[..k]);
      assert Log(cfg, owner)[..k] == Log(cfg, owner[..k]);
      var before := SumsByProducer(cfg, owner[..k]);
      var v := before[p] + ItemOf(cfg, owner[k]);
      SumUpdate(before, p, v);
      forall q | 0 <= q < |cfg.script|
        ensures SumsByProducer(cfg, owner)[q] == before[p := v][q]
      {
        var l := ProducerLog(cfg, owner[..k], q);
        assert l + [] == l;
        assert (l + [ItemOf(cfg, owner[k])])[..|l|] == l;
      }
      assert SumsByProducer(cfg, owner) == before[p := v];
    }
  }

  function ScriptSums(script: seq<seq<int>>): seq<int> {
    seq(|script|, p requires 0 <= p < |script| => Sum(script[p]))
  }

  /** A consumer that has read everything has read the sum of all scripts. */
  lemma CompletedSum(cfg: Config, ls: seq<Label>, s: State, c: nat)
    requires Reached(cfg, ls, s) && Finished(cfg, s) && c < |s.got|
    ensures Sum(s.got[c]) == Sum(ScriptSums(cfg.script))
  {
    ReachedInv(cfg, ls, s);
    CompletedRunDeliversAll(cfg, ls, s);
    forall x | 0 <= x < |s.owner|
      ensures s.owner[x].0 < |cfg.script|
    {
      assert OwnerOk(cfg, s.sent, s.ppc, x, s.owner[x]);
    }
    LogSumSplits(cfg, s.owner);
    assert SumsByProducer(cfg, s.owner) == ScriptSums(cfg.script);
  }

  lemma {:induction false} TriangularSum(xs: seq<int>)
    requires forall i :: 0 <= i < |xs| ==> xs[i] == i
    ensures 2 * Sum(xs) == |xs| * (|xs| - 1)
  {
    if xs != [] {
      var k := |xs| - 1;
      TriangularSum(xs[..k]);
      assert (k + 1) * k == k * (k - 1) + 2 * k;
    }
  }

  lemma ScriptsSum(script: seq<seq<int>>, count: nat)
    requires forall p :: 0 <= p < |script| ==> |script[p]| == count
    requires forall p, i :: 0 <= p < |script| && 0 <= i < count ==> script[p][i] == i
    ensures 2 * Sum(ScriptSums(script)) == |script| * (count * (count - 1)) && Sum(ScriptSums(script)) >= 0
  {
    if script == [] {
      SumZeros(ScriptSums(script));
    } else {
      var one := Sum(script[0]);
      forall p | 0 <= p < |script|
        ensures ScriptSums(script)[p] == one && 2 * one == count * (count - 1)
      {
        TriangularSum(script[0]);
        TriangularSum(script[p]);
      }
      SumConstant(ScriptSums(script), one);
      SumNonNegative(script[0]);
      MulDouble(|script|, one, count * (count - 1));
    }
  }

  lemma MulDouble(a: nat, h: int, d: int)
    requires d == 2 * h && h >= 0
    ensures 2 * (a * h) == a * d && a * h >= 0
  {
  }

  /** benchmark/sequencer.cpp: with `producerCount` producers each sending 0..count-1, the
      consumer's 64-bit sum is the expected result (where that fits in 64 bits). */
  lemma BenchmarkSum(cfg: Config, ls: seq<Label>, s: State, c: nat, count: nat)
    requires Reached(cfg, ls, s) && Finished(cfg, s) && c < |s.got|
    requires forall p :: 0 <= p < |cfg.script| ==> |cfg.script[p]| == count
    requires forall p, i :: 0 <= p < |cfg.script| && 0 <= i < count ==> cfg.script[p][i] == i
    requires |cfg.script| * (count * (count - 1)) < WORD
    ensures 2 * Sum(s.got[c]) == |cfg.script| * (count * (count - 1))
    ensures Wrap(Sum(s.got[c])) == |cfg.script| * (count * (count - 1)) / 2
  {
    CompletedSum(cfg, ls, s, c);
    ScriptsSum(cfg.script, count);
    HalfFits(Sum(s.got[c]), |cfg.script| * (count * (count - 1)));
  }

  lemma HalfFits(sum: int, twice: int)
    requires 2 * sum == twice < WORD && sum >= 0
    ensures Wrap(sum) == twice / 2
  {
  }
}
