/** With the blocking strategy, too little room leaves threads asleep for good. */
module BlockingDeadlocks {
  import opened Protocol
  import opened Safety
  import opened Progress
  import opened Completion
  import opened Schedules
  import opened Deadlocks
  import opened BlockingQueue

  /** Nobody is in the wait strategy. */
  predicate Clear(cfg: Config, b: System)
    requires Whole(cfg, b)
  {
    b.mutex.None? && forall i :: 0 <= i < |b.modes| ==> b.modes[i].Awake?
  }

  lemma OneMove(cfg: Config, ms: seq<Move>, b: System, m: Move) returns (b': System)
    requires Arrived(cfg, ms, b) && Next(cfg, b, m).Some?
    ensures b' == Next(cfg, b, m).value && Arrived(cfg, ms + [m], b')
  {
    b' := Next(cfg, b, m).value;
    assert (ms + [m])[..|ms + [m]| - 1] == ms;
  }

  /** A smooth step of the protocol, and the notification that it may call for. */
  lemma GoAndSignal(cfg: Config, ms: seq<Move>, b: System, l: Label) returns (ms': seq<Move>, b': System)
    requires Arrived(cfg, ms, b) && Clear(cfg, b) && Smooth(cfg, b.s, l) && Step(Ideal, cfg, b.s, l).Some?
    ensures Arrived(cfg, ms', b') && Clear(cfg, b') && b'.s == Step(Ideal, cfg, b.s, l).value
  {
    var t := ThreadOf(l);
    StepHasThread(cfg, b.s, l);
    b' := OneMove(cfg, ms, b, Go(l));
    ms' := ms + [Go(l)];
    if Signals(b.s, l) {
      ms', b' := Signal(cfg, ms', b', t);
    }
  }

  lemma StepHasThread(cfg: Config, s: State, l: Label)
    requires Shape(cfg, s) && Step(Ideal, cfg, s, l).Some?
    ensures IsThread(cfg, ThreadOf(l))
  {
  }

  lemma Signal(cfg: Config, ms: seq<Move>, b: System, t: Thread) returns (ms': seq<Move>, b': System)
    requires Arrived(cfg, ms, b) && IsThread(cfg, t) && b.mutex.None? && ModeOf(cfg, b, t).Stored?
    requires forall i :: 0 <= i < |b.modes| && i != Index(cfg, t) ==> b.modes[i].Awake?
    ensures Arrived(cfg, ms', b') && Clear(cfg, b') && b'.s == b.s
  {
    b' := OneMove(cfg, ms, b, Own(t));
    ms' := ms + [Own(t)];
    b' := OneMove(cfg, ms', b', Own(t));
    ms' := ms' + [Own(t)];
    b' := OneMove(cfg, ms', b', Own(t));
    ms' := ms' + [Own(t)];
  }

  /** Every smooth run of the protocol is one with the blocking strategy. */
  lemma {:induction false} SmoothRunsBlock(cfg: Config, ls: seq<Label>, s: State) returns (ms: seq<Move>, b: System)
    requires Reached(cfg, ls, s) && SmoothRun(cfg, ls)
    ensures Arrived(cfg, ms, b) && Clear(cfg, b) && b.s == s
  {
    if ls == [] {
      ms, b := [], Start(cfg);
    } else {
      var before := ls[..|ls| - 1];
      var u := Run(Ideal, cfg, before).value;
      assert forall k :: 0 <= k < |before| ==> before[..k] == ls[..k];
      ms, b := SmoothRunsBlock(cfg, before, u);
      ms, b := GoAndSignal(cfg, ms, b, ls[|ls| - 1]);
    }
  }

  /** No thread can move without a spurious wakeup. */
  ghost predicate Stopped(cfg: Config, b: System)
    requires Whole(cfg, b)
  {
    forall m: Move :: !m.Wake? ==> Next(cfg, b, m).None?
  }

  lemma StuckThrough(cfg: Config, b: System, m: Move, g: nat, q: nat)
    requires SystemInv(cfg, b) && Next(cfg, b, m).Some? && Stuck(cfg, b.s, g, q)
    ensures Stuck(cfg, Next(cfg, b, m).value.s, g, q)
  {
    var ls := MoveIsStep(cfg, b, m);
    if |ls| == 1 { StuckStays(cfg, b.s, ls[0], g, q); }
  }

  /** Any run comes to a stop, and if it is stuck it stays so. */
  lemma {:induction false} RunOut(cfg: Config, ms: seq<Move>, b: System, g: nat, q: nat)
      returns (ms': seq<Move>, b': System)
    requires Arrived(cfg, ms, b) && Stuck(cfg, b.s, g, q)
    ensures Arrived(cfg, ms', b') && Stopped(cfg, b') && Stuck(cfg, b'.s, g, q)
    decreases MovesLeft(cfg, b)
  {
    ArrivedInv(cfg, ms, b);
    MovesLeftBounded(cfg, b);
    ms', b' := ms, b;
    if !Stopped(cfg, b) {
      var m: Move :| !m.Wake? && Next(cfg, b, m).Some?;
      StuckThrough(cfg, b, m, g, q);
      MoveWorks(cfg, b, m);
      var u := OneMove(cfg, ms, b, m);
      ms', b' := RunOut(cfg, ms + [m], u, g, q);
    }
  }

  /** Wherever the queue stops, everything is done. */
  ghost predicate StopsOnlyWhenDone(cfg: Config)
    requires cfg.Shape()
  {
    forall ms, b :: Arrived(cfg, ms, b) && Stopped(cfg, b) ==> AllDone(cfg, b)
  }

  /** With the blocking strategy, every run ends with everything done if and only if what
      any gating consumer may hold back fits into the buffer together with any claim (or all
      items do); otherwise some run ends with threads asleep. */
  lemma BlockingCompletesExactly(cfg: Config)
    requires cfg.Valid()
    ensures StopsOnlyWhenDone(cfg) <==> Roomy(cfg)
  {
    if Roomy(cfg) {
      forall ms, b | Arrived(cfg, ms, b) && Stopped(cfg, b)
        ensures AllDone(cfg, b)
      {
        StoppedMeansDone(cfg, ms, b);
      }
    } else {
      var ls, s, g, q := GetStuck(cfg);
      var ms, b := SmoothRunsBlock(cfg, ls, s);
      ms, b := RunOut(cfg, ms, b, g, q);
      assert !AllDone(cfg, b);
    }
  }
}
