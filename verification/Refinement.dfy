/** The multi-producer protocol refines the abstract bounded broadcast queue. */
module Refinement {
  import opened Sequences
  import opened Protocol
  import opened Invariant
  import opened Preservation
  import opened Safety
  import BroadcastQueue

  /** The first sequence from k on that is not published. */
  function Readable(owner: seq<(nat, nat)>, sent: seq<nat>, k: nat): (r: nat)
    requires k <= |owner|
    ensures k <= r <= |owner| && !Pub(owner, sent, r)
    ensures forall x :: k <= x < r ==> Pub(owner, sent, x)
    decreases |owner| - k
  {
    if Pub(owner, sent, k) then Readable(owner, sent, k + 1) else k
  }

  function Abs(cfg: Config, s: State): BroadcastQueue.Queue {
    BroadcastQueue.Queue(
      Log(cfg, s.owner)[..Readable(s.owner, s.sent, 0)],
      seq(|s.barrier|, c requires 0 <= c < |s.barrier| => s.barrier[c] + 1),
      s.got)
  }

  /** The initial state stands for the empty queue. */
  lemma InitIsEmptyQueue(cfg: Config)
    requires cfg.Valid()
    ensures var q := Abs(cfg, Init(Ideal, cfg));
            && q.log == [] && |q.released| == |q.got| == |cfg.deps|
            && forall c :: 0 <= c < |cfg.deps| ==> q.released[c] == 0 && q.got[c] == []
    ensures BroadcastQueue.Consistent(cfg.n, cfg.deps, Abs(cfg, Init(Ideal, cfg)))
  {
  }

  lemma ReadableUnique(owner: seq<(nat, nat)>, sent: seq<nat>, r: nat)
    requires r <= |owner| && !Pub(owner, sent, r) && forall x :: 0 <= x < r ==> Pub(owner, sent, x)
    ensures Readable(owner, sent, 0) == r
  {
  }

  /** Claiming shows readers nothing. */
  lemma ClaimRefines(cfg: Config, s: State, t: State, p: nat, count: nat)
    requires Inv(cfg, s) && p < |s.sent|
    requires t.owner == s.owner + Block(p, s.sent[p], count) && t.sent == s.sent && t.barrier == s.barrier
             && t.got == s.got
    ensures Abs(cfg, t) == Abs(cfg, s)
  {
    var r := Readable(s.owner, s.sent, 0);
    forall x | 0 <= x < r
      ensures Pub(t.owner, t.sent, x)
    {
      assert Pub(s.owner, s.sent, x);
    }
    ReadableUnique(t.owner, t.sent, r);
    assert Log(cfg, t.owner)[..r] == Log(cfg, s.owner)[..r];
  }

  /** Publishing may complete a run of items: readers then see all of them. */
  lemma PublishRefines(cfg: Config, s: State, p: nat) returns (a: BroadcastQueue.Action)
    requires Inv(cfg, s) && p < |s.ppc| && s.ppc[p].PPublish?
    ensures BroadcastQueue.Next(cfg.n, cfg.deps, Abs(cfg, s), a, Abs(cfg, PublishStep(Ideal, cfg, s, p)))
  {
    var t := PublishStep(Ideal, cfg, s, p);
    if s.ppc[p].k < s.ppc[p].count {
      PublishInv(cfg, s, p);
      PublishesOne(cfg, s, p);
      a := LongerPrefix(cfg, s, t);
    } else {
      a := BroadcastQueue.Stutter;
      assert t.owner == s.owner && t.sent == s.sent && t.barrier == s.barrier && t.got == s.got;
    }
  }

  lemma LongerPrefix(cfg: Config, s: State, t: State) returns (a: BroadcastQueue.Action)
    requires Inv(cfg, s) && Inv(cfg, t)
    requires t.owner == s.owner && t.barrier == s.barrier && t.got == s.got
    requires forall x :: Pub(s.owner, s.sent, x) ==> Pub(t.owner, t.sent, x)
    ensures BroadcastQueue.Next(cfg.n, cfg.deps, Abs(cfg, s), a, Abs(cfg, t))
  {
    var r, r', log := Readable(s.owner, s.sent, 0), Readable(t.owner, t.sent, 0), Log(cfg, s.owner);
    assert r' < r ==> Pub(s.owner, s.sent, r');
    a := BroadcastQueue.Append(log[r..r']);
    PrefixGrows(log, r, r');
    forall c: nat | c < |cfg.deps|
      ensures r' <= s.barrier[c] + 1 + cfg.n
    {
      ReadableIsNear(cfg, t, c);
    }
    AppendIsNext(cfg, Abs(cfg, s), Abs(cfg, t), log[r..r']);
  }

  lemma PrefixGrows(log: seq<int>, r: nat, r': nat)
    requires r <= r' <= |log|
    ensures log[..r'] == log[..r] + log[r..r']
  {
  }

  lemma AppendIsNext(cfg: Config, q: BroadcastQueue.Queue, q': BroadcastQueue.Queue, items: seq<int>)
    requires |q.released| == |q.got| == |cfg.deps|
    requires q' == q.(log := q.log + items) && forall c :: 0 <= c < |cfg.deps| ==> |q'.log| <= q.released[c] + cfg.n
    ensures BroadcastQueue.Next(cfg.n, cfg.deps, q, BroadcastQueue.Append(items), q')
  {
  }

  lemma ReadableIsNear(cfg: Config, s: State, c: nat)
    requires Inv(cfg, s) && c < |cfg.deps|
    ensures Readable(s.owner, s.sent, 0) <= s.barrier[c] + 1 + cfg.n
  {
    var r := Readable(s.owner, s.sent, 0);
    assert ConsOk(cfg, s.owner, s.sent, s.barrier, c, s.pos[c], s.cpc[c]);
    if r > 0 { PublishedIsNear(cfg, s, r - 1, c); }
  }

  lemma ReadRefines(cfg: Config, s: State, c: nat)
    requires Inv(cfg, s) && c < |s.cpc| && s.cpc[c].CRead?
    ensures BroadcastQueue.Next(cfg.n, cfg.deps, Abs(cfg, s), BroadcastQueue.Read(c),
            Abs(cfg, ConsumerStep(Ideal, cfg, s, c).value))
  {
  }

  lemma ReleaseRefines(cfg: Config, s: State, c: nat)
    requires Inv(cfg, s) && c < |s.cpc| && s.cpc[c].CRelease?
    ensures BroadcastQueue.Next(cfg.n, cfg.deps, Abs(cfg, s), BroadcastQueue.Release(c),
            Abs(cfg, ConsumerStep(Ideal, cfg, s, c).value))
  {
  }

  /** Every atomic step is one step of the abstract queue, or none. */
  lemma StepRefines(cfg: Config, s: State, l: Label) returns (a: BroadcastQueue.Action)
    requires Inv(cfg, s) && Step(Ideal, cfg, s, l).Some?
    ensures BroadcastQueue.Next(cfg.n, cfg.deps, Abs(cfg, s), a, Abs(cfg, Step(Ideal, cfg, s, l).value))
  {
    var t := Step(Ideal, cfg, s, l).value;
    a := BroadcastQueue.Stutter;
    if l.Claim? {
      ClaimRefines(cfg, s, t, l.p, Min(l.count, cfg.n));
    } else if l.Producer? && s.ppc[l.p].PPublish? {
      a := PublishRefines(cfg, s, l.p);
    } else if l.Producer? {
      QuietProducer(cfg, s, l.p, l.flag);
    } else if l.Consumer? && s.cpc[l.c].CRead? {
      ReadRefines(cfg, s, l.c);
      a := BroadcastQueue.Read(l.c);
    } else if l.Consumer? && s.cpc[l.c].CRelease? {
      ReleaseRefines(cfg, s, l.c);
      a := BroadcastQueue.Release(l.c);
    } else {
      assert t.owner == s.owner && t.sent == s.sent && t.barrier == s.barrier && t.got == s.got;
    }
  }

  lemma QuietProducer(cfg: Config, s: State, p: nat, flag: bool)
    requires Inv(cfg, s) && p < |s.ppc| && !s.ppc[p].PPublish? && ProducerStep(Ideal, cfg, s, p, flag).Some?
    ensures Abs(cfg, ProducerStep(Ideal, cfg, s, p, flag).value) == Abs(cfg, s)
  {
    var t := ProducerStep(Ideal, cfg, s, p, flag).value;
    assert t.sent == s.sent && t.barrier == s.barrier && t.got == s.got;
    if t.owner != s.owner {
      var PCas(_, _, count, limit, seen) := s.ppc[p];
      assert PcOk(cfg, p, s.sent[p], s.ppc[p]);
      ClaimRefines(cfg, s, t, p, Take(count, limit - seen));
    }
  }

  /** So the queue every run stands for is consistent. */
  lemma {:induction false} RunsAreQueues(cfg: Config, ls: seq<Label>, s: State)
    requires Reached(cfg, ls, s)
    ensures BroadcastQueue.Consistent(cfg.n, cfg.deps, Abs(cfg, s))
  {
    if ls == [] {
      InitIsEmptyQueue(cfg);
    } else {
      var before := Run(Ideal, cfg, ls[..|ls| - 1]).value;
      RunsAreQueues(cfg, ls[..|ls| - 1], before);
      ReachedInv(cfg, ls[..|ls| - 1], before);
      var a := StepRefines(cfg, before, ls[|ls| - 1]);
      BroadcastQueue.NextKeepsConsistent(cfg.n, cfg.deps, Abs(cfg, before), a, Abs(cfg, s));
    }
  }
}
