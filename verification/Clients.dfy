/** The clients under benchmark/ are instances of the protocol, for every size. */
module Clients {
  import opened Sequences
  import opened Slots
  import opened Sums
  import opened Protocol
  import opened Safety
  import opened Conservation
  import opened Progress
  import opened WrapAround
  import opened Completion
  import opened BlockingQueue

  /** The graphs of benchmark/multicast.cpp (and unicast.cpp and sequencer.cpp, with one
      consumer), pipeline.cpp and diamond.cpp. */
  datatype Client = Multicast | Pipeline | Diamond

  /** The last consumer of a diamond joins at least one other. */
  predicate HasConsumers(client: Client, consumers: nat) {
    consumers > if client.Diamond? then 1 else 0
  }

  function Deps(client: Client, consumers: nat): (r: seq<seq<nat>>)
    requires consumers > 0
    ensures |r| == consumers
  {
    seq(consumers, c requires 0 <= c < consumers =>
      match client
      case Multicast => []
      case Pipeline => if c == 0 then [] else [c - 1]
      case Diamond => if c + 1 == consumers then From(0, c) else [])
  }

  function Gate(client: Client, consumers: nat): (r: seq<nat>)
    requires consumers > 0
  {
    if client.Multicast? then From(0, consumers) else [consumers - 1]
  }

  /** `producers` producers, each sending 0, 1, .., items-1. */
  function ClientConfig(client: Client, n: int, producers: nat, items: nat, consumers: nat, blank: seq<int>): Config
    requires consumers > 0
  {
    Config(n, seq(producers, _ => From(0, items)), Deps(client, consumers), Gate(client, consumers), blank,
           seq(consumers, _ => 0), 1)
  }

  lemma ClientIsValid(client: Client, n: int, producers: nat, items: nat, consumers: nat, blank: seq<int>)
    requires HasConsumers(client, consumers) && n > 0 && IsPow2(n) && |blank| == n
    ensures ClientConfig(client, n, producers, items, consumers, blank).Valid()
  {
    var cfg := ClientConfig(client, n, producers, items, consumers, blank);
    forall c: nat | c < consumers
      ensures cfg.Gated(c)
    {
      if client.Multicast? {
        assert cfg.gate[c] == c;
      } else if c + 1 == consumers {
        assert cfg.gate[0] == c;
      } else {
        var d := if client.Pipeline? then c + 1 else consumers - 1;
        assert cfg.deps[d][if client.Pipeline? then 0 else c] == c;
      }
    }
  }

  // ------------------------------------------------------------------
  // The benchmarks on 64-bit words.
  // ------------------------------------------------------------------

  predicate ClaimsOnly(ls: seq<Label>) { forall l :: l in ls ==> !l.Try? }

  lemma {:induction false} FlatClaims(rounds: seq<seq<Label>>)
    requires forall i :: 0 <= i < |rounds| ==> ClaimsOnly(rounds[i])
    ensures ClaimsOnly(Flat(rounds))
  {
    if rounds != [] {
      FlatClaims(rounds[..|rounds| - 1]);
    }
  }

  lemma SameDone(cfg: Config, s: State, t: Thread)
    requires Shape(cfg, s) && IsThread(cfg, t)
    ensures Shape(cfg, Wrapped(s)) && Done(cfg, Wrapped(s), t) == Done(cfg, s, t)
  {
    WrappedShape(cfg, s);
  }

  lemma SameFinished(cfg: Config, s: State)
    requires Shape(cfg, s)
    ensures Shape(cfg, Wrapped(s)) && (Finished(cfg, Wrapped(s)) <==> Finished(cfg, s))
  {
    WrappedShape(cfg, s);
    assert forall p :: 0 <= p < |s.ppc| ==> Wrapped(s).ppc[p].PIdle? == s.ppc[p].PIdle?;
    assert forall c :: 0 <= c < |s.cpc| ==> Wrapped(s).cpc[c].CIdle? == s.cpc[c].CIdle?;
  }

  /** A round that is fair on words is fair on unbounded numbers. */
  lemma FairOnBoth(cfg: Config, ls: seq<Label>, r: seq<Label>)
    requires cfg.Valid() && Fits(cfg) && ClaimsOnly(ls + r) && FairRound(Machine, cfg, ls, r)
    ensures FairRound(Ideal, cfg, ls, r)
  {
    RunOfClaimsAgrees(cfg, ls + r);
    var s := Run(Ideal, cfg, ls + r).value;
    PoliteOnBoth(cfg, ls, r);
    forall t: Thread | IsThread(cfg, t)
      ensures StepsOf(r, t) >= Bound(cfg, t) || Done(cfg, s, t)
    {
      SameDone(cfg, s, t);
    }
  }

  lemma PoliteOnBoth(cfg: Config, ls: seq<Label>, r: seq<Label>)
    requires cfg.Valid() && Fits(cfg) && ClaimsOnly(ls + r) && PoliteSteps(Machine, cfg, ls, r)
    ensures PoliteSteps(Ideal, cfg, ls, r)
  {
    forall k | 0 <= k < |r| && Run(Ideal, cfg, ls + r[..k]).Some?
      ensures Polite(cfg, Run(Ideal, cfg, ls + r[..k]).value, r[k])
    {
      assert forall l :: l in ls + r[..k] ==> l in ls + r;
      RunOfClaimsAgrees(cfg, ls + r[..k]);
    }
  }

  lemma FairRunsOnBoth(cfg: Config, rounds: seq<seq<Label>>)
    requires cfg.Valid() && Fits(cfg) && forall i :: 0 <= i < |rounds| ==> ClaimsOnly(rounds[i])
    requires FairRounds(Machine, cfg, [], rounds)
    ensures FairRounds(Ideal, cfg, [], rounds)
  {
    forall i | 0 <= i < |rounds|
      ensures FairRound(Ideal, cfg, [] + Flat(rounds[..i]), rounds[i])
    {
      FlatClaims(rounds[..i]);
      FairOnBoth(cfg, [] + Flat(rounds[..i]), rounds[i]);
    }
  }

  /** On 64-bit words, every schedule that keeps the threads running finishes, and every
      consumer has then read every item and has the expected sum. */
  lemma FairBenchmarkFinishes(cfg: Config, client: Client, producers: nat, items: nat, consumers: nat,
                              rounds: seq<seq<Label>>) returns (w: State)
    requires HasConsumers(client, consumers)
             && cfg == ClientConfig(client, cfg.n, producers, items, consumers, cfg.blank)
    requires cfg.n > 0 && IsPow2(cfg.n) && |cfg.blank| == cfg.n && Fits(cfg)
    requires producers * (items * (items - 1)) < WORD
    requires (forall i :: 0 <= i < |rounds| ==> ClaimsOnly(rounds[i])) && FairRounds(Machine, cfg, [], rounds)
    requires |rounds| > Work(cfg, Init(Ideal, cfg))
    ensures Run(Machine, cfg, Flat(rounds)) == Some(w) && Finished(cfg, w)
    ensures forall c :: 0 <= c < |w.got| ==>
              |w.got[c]| == producers * items && Wrap(Sum(w.got[c])) == producers * (items * (items - 1)) / 2
  {
    ClientIsValid(client, cfg.n, producers, items, consumers, cfg.blank);
    FairRunsOnBoth(cfg, rounds);
    NextItemsAreRoomy(cfg);
    assert Reached(cfg, [], Init(Ideal, cfg));
    var s := FairRunsFinish(cfg, [], Init(Ideal, cfg), rounds);
    assert [] + Flat(rounds) == Flat(rounds);
    FlatClaims(rounds);
    RunOfClaimsAgrees(cfg, Flat(rounds));
    SameFinished(cfg, s);
    w := Wrapped(s);
    forall c | 0 <= c < |w.got|
      ensures |w.got[c]| == producers * items && Wrap(Sum(w.got[c])) == producers * (items * (items - 1)) / 2
    {
      BenchmarkResult(cfg, client, producers, items, consumers, Flat(rounds), w, c);
    }
  }

  /** When a benchmark finishes on 64-bit words, however its threads were scheduled, every
      consumer has read every item and its sum is the expected result. */
  lemma BenchmarkResult(cfg: Config, client: Client, producers: nat, items: nat, consumers: nat,
                        ls: seq<Label>, w: State, c: nat)
    requires HasConsumers(client, consumers)
             && cfg == ClientConfig(client, cfg.n, producers, items, consumers, cfg.blank)
    requires cfg.Valid() && Fits(cfg) && producers * (items * (items - 1)) < WORD
    requires Run(Machine, cfg, ls) == Some(w) && ClaimsOnly(ls) && Finished(cfg, w) && c < |w.got|
    ensures Wrap(Sum(w.got[c])) == producers * (items * (items - 1)) / 2
    ensures |w.got[c]| == producers * items
  {
    RunOfClaimsAgrees(cfg, ls);
    var s := Run(Ideal, cfg, ls).value;
    SameFinished(cfg, s);
    BenchmarkSum(cfg, ls, s, c, items);
    CompletedRunDeliversAll(cfg, ls, s);
    ItemsInAll(cfg, producers, items);
    ConsumersReadTheLog(cfg, ls, s, c);
  }

  /** The same with the blocking strategy, where every schedule ends: where it does, each
      consumer has read every item and has the expected sum, and that is a run on words. */
  lemma BlockingBenchmarkFinishes(cfg: Config, client: Client, producers: nat, items: nat, consumers: nat,
                                  ms: seq<Move>, b: System) returns (ls: seq<Label>, w: State)
    requires HasConsumers(client, consumers)
    requires cfg == ClientConfig(client, cfg.n, producers, items, consumers, cfg.blank) && Fits(cfg)
    requires producers * (items * (items - 1)) < WORD
    requires Arrived(cfg, ms, b) && forall m: Move :: !m.Wake? ==> Next(cfg, b, m).None?
    ensures |ms| <= MovesLeft(cfg, Start(cfg)) + WakeAllowance(cfg, ms)
    ensures Run(Machine, cfg, ls) == Some(w) && w == Wrapped(b.s) && Finished(cfg, w)
    ensures forall c :: 0 <= c < |w.got| ==>
              |w.got[c]| == producers * items && Wrap(Sum(w.got[c])) == producers * (items * (items - 1)) / 2
  {
    MovesAreBounded(cfg, ms, b);
    NextItemsAreRoomy(cfg);
    StoppedMeansDone(cfg, ms, b);
    ls := BlockingRunsAreRuns(cfg, ms, b);
    RunOfClaimsAgrees(cfg, ls);
    SameFinished(cfg, b.s);
    w := Wrapped(b.s);
    forall c | 0 <= c < |w.got|
      ensures |w.got[c]| == producers * items && Wrap(Sum(w.got[c])) == producers * (items * (items - 1)) / 2
    {
      BenchmarkResult(cfg, client, producers, items, consumers, ls, w, c);
    }
  }

  lemma ItemsInAll(cfg: Config, producers: nat, items: nat)
    requires cfg.script == seq(producers, _ => From(0, items))
    ensures cfg.Total() == producers * items
  {
    SumConstant(seq(|cfg.script|, p requires 0 <= p < |cfg.script| => |cfg.script[p]|), items);
  }
}
